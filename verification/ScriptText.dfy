/** The JavaScript string operations the modelled files call: `trim`, `length`, `endsWith`, digit classes. */
module ScriptText {

  /** White space and line terminators, as String.prototype.trim strips them. */
  predicate IsSpace(c: char) {
    var n := c as int;
    || 9 <= n <= 13 || n == 0x20 || n == 0xA0 || n == 0x1680
    || 0x2000 <= n <= 0x200A || n == 0x2028 || n == 0x2029
    || n == 0x202F || n == 0x205F || n == 0x3000 || n == 0xFEFF
  }

  /** The white space and line terminators of ECMA-262, sections 12.2 and 12.3, by code point. */
  const SPACES: seq<int> := [
    0x09, 0x0A, 0x0B, 0x0C, 0x0D, 0x20, 0xA0, 0x1680, 0x2000, 0x2001, 0x2002, 0x2003, 0x2004, 0x2005, 0x2006, 0x2007,
    0x2008, 0x2009, 0x200A, 0x2028, 0x2029, 0x202F, 0x205F, 0x3000, 0xFEFF]

  lemma SpacesExactly(c: char)
    ensures IsSpace(c) <==> c as int in SPACES
  {
    assert forall n :: n in SPACES <==> exists i :: 0 <= i < 25 && SPACES[i] == n;
  }

  function TrimStart(s: string): (t: string)
    ensures |t| <= |s| && t == s[|s| - |t|..]
    ensures t != "" ==> !IsSpace(t[0])
    ensures forall i :: 0 <= i < |s| - |t| ==> IsSpace(s[i])
  {
    if s == "" || !IsSpace(s[0]) then s else TrimStart(s[1..])
  }

  function TrimEnd(s: string): (t: string)
    ensures |t| <= |s| && t == s[..|t|]
    ensures t != "" ==> !IsSpace(t[|t| - 1])
    ensures forall i :: |t| <= i < |s| ==> IsSpace(s[i])
  {
    if s == "" || !IsSpace(s[|s| - 1]) then s else TrimEnd(s[..|s| - 1])
  }

  function Trim(s: string): string {
    TrimEnd(TrimStart(s))
  }

  /** A string that neither starts nor ends in white space. */
  predicate Trimmed(s: string) {
    s != "" ==> !IsSpace(s[0]) && !IsSpace(s[|s| - 1])
  }

  lemma TrimOfTrimmed(s: string)
    requires Trimmed(s)
    ensures Trim(s) == s
  {
  }

  /** What is left by `trim` is trimmed, and is empty exactly when the string is all white space. */
  lemma TrimResult(s: string)
    ensures Trimmed(Trim(s))
    ensures Trim(s) == "" <==> forall i :: 0 <= i < |s| ==> IsSpace(s[i])
  {
    hide IsSpace, TrimStart, TrimEnd;
    var t := TrimStart(s);
    if Trim(s) != "" {
      assert Trim(s)[0] == t[0] == s[|s| - |t|];
    }
  }

  /** `trim` is the one way to strip white space at both ends that leaves none there. */
  lemma TrimExactly(s: string, t: string)
    ensures t == Trim(s) <==> (Trimmed(t) && exists k: nat :: k + |t| <= |s| && StrippedAt(s, t, k))
  {
    hide IsSpace, Trim, TrimStart, TrimEnd, StrippedAt;
    TrimResult(s);
    if t == Trim(s) {
      var k := TrimStrips(s);
    } else if Trimmed(t) {
      forall k: nat | k + |t| <= |s|
        ensures !StrippedAt(s, t, k)
      {
        if StrippedAt(s, t, k) { OneStrip(s, t, k); }
      }
    }
  }

  lemma TrimStrips(s: string) returns (k: nat)
    ensures k + |Trim(s)| <= |s| && StrippedAt(s, Trim(s), k)
  {
    hide IsSpace, TrimStart, TrimEnd;
    var start := TrimStart(s);
    var t := TrimEnd(start);
    k := |s| - |start|;
    assert s[k..k + |t|] == t by {
      assert start == s[k..] && start[..|t|] == t;
    }
    forall i | 0 <= i < |s| && !(k <= i < k + |t|)
      ensures IsSpace(s[i])
    {
      if i >= k { assert start[i - k] == s[i]; }
    }
  }

  /** `t` stands at `k` in `s`, and everything around it is white space. */
  predicate StrippedAt(s: string, t: string, k: nat)
    requires k + |t| <= |s|
  {
    s[k..k + |t|] == t && forall i :: 0 <= i < |s| && !(k <= i < k + |t|) ==> IsSpace(s[i])
  }

  lemma OneStrip(s: string, t: string, k: nat)
    requires k + |t| <= |s| && StrippedAt(s, t, k) && Trimmed(t)
    ensures t == Trim(s)
  {
    hide IsSpace, TrimStart, TrimEnd;
    var start := TrimStart(s);
    var lead := |s| - |start|;
    if t == "" {
      TrimResult(s);
    } else {
      assert t[0] == s[k] && t[|t| - 1] == s[k + |t| - 1];
      assert start != "" && start[0] == s[lead];
      assert lead == k;
      var end := TrimEnd(start);
      assert start[|t| - 1] == t[|t| - 1];
      assert |end| >= |t|;
      assert end[|end| - 1] == start[|end| - 1] == s[k + |end| - 1];
      assert |end| == |t|;
    }
  }

  predicate IsDigit(c: char) { '0' <= c <= '9' }

  predicate IsLowerHex(c: char) { IsDigit(c) || 'a' <= c <= 'f' }

  predicate AllDigits(s: string) { forall c :: c in s ==> IsDigit(c) }

  predicate AllLowerHex(s: string) { forall c :: c in s ==> IsLowerHex(c) }

  /** `String.length` counts UTF-16 code units: a character beyond the basic plane is two. */
  function Length16(s: string): nat {
    if s == "" then 0 else Length16(s[1..]) + if s[0] as int > 0xFFFF then 2 else 1
  }

  /** It adds up over a text, and counts a character beyond the basic plane as two. */
  lemma {:induction false} Length16Adds(a: string, b: string, c: char)
    ensures Length16("") == 0 && Length16([c]) == if c as int >= 0x10000 then 2 else 1
    ensures Length16(a + b) == Length16(a) + Length16(b)
  {
    if a == "" {
      assert a + b == b;
    } else {
      assert (a + b)[1..] == a[1..] + b;
      Length16Adds(a[1..], b, c);
    }
  }

  predicate EndsWith(s: string, suffix: string) {
    |suffix| <= |s| && s[|s| - |suffix|..] == suffix
  }

  lemma EndsWithLast(s: string, suffix: string)
    requires suffix != ""
    ensures EndsWith(s, suffix) ==> s != "" && s[|s| - 1] == suffix[|suffix| - 1]
  {
  }
}
