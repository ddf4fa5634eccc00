/** Trimming and lower-casing, on ASCII text. */
module Text {

  predicate IsSpace(c: char) { c == ' ' || 9 <= c as int <= 13 }

  function TrimLeft(s: string): (t: string)
    ensures |t| <= |s| && (t != [] ==> !IsSpace(t[0]))
  {
    if s != [] && IsSpace(s[0]) then TrimLeft(s[1..]) else s
  }

  function TrimRight(s: string): (t: string)
    ensures |t| <= |s| && t <= s && (t != [] ==> !IsSpace(t[|t| - 1]))
  {
    if s != [] && IsSpace(s[|s| - 1]) then TrimRight(s[..|s| - 1]) else s
  }

  /** Without white space at either end. */
  function Trim(s: string): (t: string)
    ensures t != [] ==> !IsSpace(t[0]) && !IsSpace(t[|t| - 1])
  {
    TrimRight(TrimLeft(s))
  }

  /** Trimmed, and not blank. */
  predicate Tidy(s: string) { s != "" && Trim(s) == s }

  lemma TrimIdempotent(s: string)
    ensures Trim(Trim(s)) == Trim(s)
  {
  }

  function LowerChar(c: char): char {
    if 'A' <= c <= 'Z' then c - 'A' + 'a' else c
  }

  /** Capital letters become small ones; nothing else changes. */
  function Lower(s: string): (t: string)
    ensures |t| == |s|
    ensures forall i :: 0 <= i < |s| ==> t[i] as int == if 65 <= s[i] as int <= 90 then s[i] as int + 32 else s[i] as int
  {
    seq(|s|, i requires 0 <= i < |s| => LowerChar(s[i]))
  }

  /** Small letters become capital ones; nothing else changes. */
  function Upper(s: string): (t: string)
    ensures |t| == |s|
    ensures forall i :: 0 <= i < |s| ==> t[i] as int == if 97 <= s[i] as int <= 122 then s[i] as int - 32 else s[i] as int
  {
    seq(|s|, i requires 0 <= i < |s| => if 'a' <= s[i] <= 'z' then s[i] - 'a' + 'A' else s[i])
  }

  lemma {:induction false} TrimLeftPadded(left: string, s: string)
    requires forall i :: 0 <= i < |left| ==> IsSpace(left[i])
    ensures TrimLeft(left + s) == TrimLeft(s)
  {
    if left == [] {
      assert left + s == s;
    } else {
      assert (left + s)[1..] == left[1..] + s;
      TrimLeftPadded(left[1..], s);
    }
  }

  lemma {:induction false} TrimRightPadded(s: string, right: string)
    requires forall i :: 0 <= i < |right| ==> IsSpace(right[i])
    ensures TrimRight(s + right) == TrimRight(s)
  {
    if right == [] {
      assert s + right == s;
    } else {
      var n := |right| - 1;
      assert (s + right)[..|s + right| - 1] == s + right[..n];
      TrimRightPadded(s, right[..n]);
    }
  }

  lemma {:induction false} TrimLeftThenPad(s: string, right: string)
    requires forall i :: 0 <= i < |right| ==> IsSpace(right[i])
    ensures TrimRight(TrimLeft(s + right)) == TrimRight(TrimLeft(s))
  {
    if s == [] {
      assert s + right == right && right + [] == right;
      TrimLeftPadded(right, []);
    } else if IsSpace(s[0]) {
      assert (s + right)[1..] == s[1..] + right;
      TrimLeftThenPad(s[1..], right);
    } else {
      TrimRightPadded(s, right);
    }
  }

  /** White space around a text does not matter. */
  lemma TrimPadded(left: string, s: string, right: string)
    requires forall i :: 0 <= i < |left| ==> IsSpace(left[i])
    requires forall i :: 0 <= i < |right| ==> IsSpace(right[i])
    ensures Trim(left + s + right) == Trim(s)
  {
    assert left + s + right == left + (s + right);
    TrimLeftPadded(left, s + right);
    TrimLeftThenPad(s, right);
  }

  /** Trimming takes white space off the ends and nothing else. */
  lemma TrimMeaning(s: string) returns (left: string, right: string)
    ensures s == left + Trim(s) + right
    ensures forall c :: c in left || c in right ==> c as int in {9, 10, 11, 12, 13, 32}
    ensures Trim(s) != "" ==> Trim(s)[0] as int !in {9, 10, 11, 12, 13, 32} && Trim(s)[|Trim(s)| - 1] as int !in {9, 10, 11, 12, 13, 32}
  {
    left := TrimLeftTakes(s);
    right := TrimRightTakes(TrimLeft(s));
  }

  lemma {:induction false} TrimLeftTakes(s: string) returns (left: string)
    ensures s == left + TrimLeft(s) && forall c :: c in left ==> IsSpace(c)
  {
    left := "";
    if s != [] && IsSpace(s[0]) {
      var rest := TrimLeftTakes(s[1..]);
      left := [s[0]] + rest;
    }
  }

  lemma {:induction false} TrimRightTakes(s: string) returns (right: string)
    ensures s == TrimRight(s) + right && forall c :: c in right ==> IsSpace(c)
  {
    right := "";
    if s != [] && IsSpace(s[|s| - 1]) {
      var rest := TrimRightTakes(s[..|s| - 1]);
      right := rest + [s[|s| - 1]];
    }
  }

  lemma LowerUpper(s: string)
    ensures Lower(Upper(s)) == Lower(s)
  {
  }

  lemma LowerTwice(s: string)
    ensures Lower(Lower(s)) == Lower(s)
  {
  }

  lemma {:induction false} TrimLeftLower(s: string)
    ensures TrimLeft(Lower(s)) == Lower(TrimLeft(s))
  {
    if s != [] && IsSpace(s[0]) {
      assert Lower(s)[1..] == Lower(s[1..]);
      TrimLeftLower(s[1..]);
    }
  }

  lemma {:induction false} TrimRightLower(s: string)
    ensures TrimRight(Lower(s)) == Lower(TrimRight(s))
  {
    if s != [] && IsSpace(s[|s| - 1]) {
      assert Lower(s)[..|s| - 1] == Lower(s[..|s| - 1]);
      TrimRightLower(s[..|s| - 1]);
    }
  }

  /** Trimming and lower-casing can be done in either order. */
  lemma TrimLower(s: string)
    ensures Trim(Lower(s)) == Lower(Trim(s))
  {
    TrimLeftLower(s);
    TrimRightLower(TrimLeft(s));
  }
}
