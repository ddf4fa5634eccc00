/**
 The repair log's file handling (internal/kernel/catalog_wal.go).  Segments and their
 contents are those of SegmentLog; a limit that is not positive does not apply here.
 */
module CatalogWAL {
  import opened Calendar
  import opened SegmentLog

  predicate Due<E>(l: Log<E>, now: Instant) {
    || (l.limits.maxSize > 0 && l.activeSize >= l.limits.maxSize)
    || (l.limits.maxAge > 0 && now - l.activeCreatedAt >= l.limits.maxAge)
  }

  class CatalogWAL<E(0)> {
    var segments: map<nat, seq<E>>
    var activeFile: nat
    var activeSize: nat
    var activeCreatedAt: Instant
    var stopped: bool
    const limits: Limits

    function View(): Log<E>
      reads this
    {
      Log(segments, activeFile, activeSize, activeCreatedAt, limits)
    }

    constructor (limits: Limits, now: Instant)
      ensures View() == Reopened(map[], limits, now) && !stopped
    {
      this.limits := limits;
      segments, activeFile, activeSize, activeCreatedAt := map[1 := []], 1, 0, now;
      stopped := false;
    }

    /** Seals the active segment and opens the next. */
    method RotateSegment(now: Instant)
      modifies this
      ensures View() == old(View()).Rotated(now) && stopped == old(stopped)
    {
      var next := activeFile + 1;
      segments := segments[next := if next in segments then segments[next] else []];
      activeFile, activeSize, activeCreatedAt := next, 0, now;
    }

    method Append(e: E, size: nat, now: Instant) returns (ok: bool)
      requires View().Valid()
      modifies this
      ensures ok == !old(stopped) && stopped == old(stopped)
      ensures View() == if !ok then old(View())
                        else (if Due(old(View()), now) then old(View()).Rotated(now) else old(View())).Put(e, size)
      ensures ok ==>
                && activeFile == old(activeFile) + (if (limits.maxSize > 0 && old(activeSize) >= limits.maxSize)
                                                       || (limits.maxAge > 0 && now - old(activeCreatedAt) >= limits.maxAge) then 1 else 0)
                && activeSize == size + (if activeFile == old(activeFile) then old(activeSize) else 0)
                && segments == old(segments)[activeFile := (if activeFile == old(activeFile) then old(segments)[activeFile] else []) + [e]]
    {
      if stopped {
        return false;
      }
      if Due(View(), now) {
        RotateSegment(now);
      }
      segments := segments[activeFile := segments[activeFile] + [e]];
      activeSize := activeSize + size;
      return true;
    }

    method Remove(k: nat)
      modifies this
      ensures View() == old(View()).Deleted(k) && stopped == old(stopped)
    {
      segments := segments - {k};
    }
  }
}
