/** Options and the two text operations the program leans on: trimming and
    lower-casing.  Strings are sequences of characters; case folding is ASCII. */
module Text {

  datatype Option<+T> = None | Some(value: T)

  predicate IsSpace(c: char) {
    var n := c as int;
    9 <= n <= 13 || n == 32 || n == 0x85 || n == 0xA0
  }

  function TrimLeft(s: string): (r: string)
    ensures r == [] || !IsSpace(r[0])
    ensures |r| <= |s| && r == s[|s| - |r|..]
  {
    if s != [] && IsSpace(s[0]) then TrimLeft(s[1..]) else s
  }

  function TrimRight(s: string): (r: string)
    ensures r == [] || !IsSpace(r[|r| - 1])
    ensures r <= s
  {
    if s != [] && IsSpace(s[|s| - 1]) then TrimRight(s[..|s| - 1]) else s
  }

  function Trim(s: string): string {
    TrimRight(TrimLeft(s))
  }

  function LowerChar(c: char): char {
    if 'A' <= c <= 'Z' then ((c as int) + 32) as char else c
  }

  function Lower(s: string): (r: string)
    ensures |r| == |s|
    ensures forall k :: 0 <= k < |s| ==> r[k] == LowerChar(s[k])
  {
    if s == [] then [] else [LowerChar(s[0])] + Lower(s[1..])
  }

  /** A string without blanks at either end is left alone by Trim. */
  lemma TrimFixes(s: string)
    requires s == [] || (!IsSpace(s[0]) && !IsSpace(s[|s| - 1]))
    ensures Trim(s) == s
  {
  }

  lemma TrimHasNoOuterBlanks(s: string)
    ensures Trim(s) == [] || (!IsSpace(Trim(s)[0]) && !IsSpace(Trim(s)[|Trim(s)| - 1]))
  {
    var left := TrimLeft(s);
    var r := TrimRight(left);
    if r != [] {
      assert r[0] == left[0];
    }
  }

  predicate AllBlank(s: string) {
    forall k :: 0 <= k < |s| ==> IsSpace(s[k])
  }

  /** Blanks are the ASCII ones and the two of Latin-1. */
  lemma BlanksByTable(c: char)
    ensures IsSpace(c) <==>
      c == ' ' || c == '\t' || c == '\n' || c == '\r' || c == 11 as char || c == 12 as char || c == 133 as char || c == 160 as char
  {
  }

  predicate CutAt(s: string, k: nat, r: string) {
    k + |r| <= |s| && r == s[k..k + |r|] && AllBlank(s[..k]) && AllBlank(s[k + |r|..])
  }

  /** Trimming cuts off blanks at both ends, and as many as there are. */
  lemma TrimCutsBlanks(s: string)
    ensures exists k: nat :: CutAt(s, k, Trim(s))
    ensures Trim(s) == [] || (!IsSpace(Trim(s)[0]) && !IsSpace(Trim(s)[|Trim(s)| - 1]))
  {
    hide AllBlank, IsSpace, TrimLeft, TrimRight;
    var left := TrimLeft(s);
    CutLeft(s);
    CutRight(left);
    TrimHasNoOuterBlanks(s);
    var k, n := |s| - |left|, |TrimRight(left)|;
    assert s[k..][..n] == s[k..k + n] && s[k..][n..] == s[k + n..];
    assert CutAt(s, k, Trim(s));
  }

  lemma {:induction false} CutLeft(s: string)
    ensures AllBlank(s[..|s| - |TrimLeft(s)|])
  {
    if s != [] && IsSpace(s[0]) {
      CutLeft(s[1..]);
      var cut := |s| - |TrimLeft(s)|;
      forall k | 0 <= k < cut ensures IsSpace(s[k]) {
        assert k > 0 ==> s[k] == s[1..][..cut - 1][k - 1];
      }
    }
  }

  lemma {:induction false} CutRight(s: string)
    ensures AllBlank(s[|TrimRight(s)|..])
  {
    if s != [] && IsSpace(s[|s| - 1]) {
      var init := s[..|s| - 1];
      CutRight(init);
      var kept := |TrimRight(s)|;
      forall k | kept <= k < |s| ensures IsSpace(s[k]) {
        assert k < |s| - 1 ==> s[k] == init[kept..][k - kept];
      }
    }
  }

  /** Capital ASCII letters keep their place in the alphabet, everything else stays. */
  lemma LowerByTable(c: char)
    ensures if 'A' <= c <= 'Z' then 'a' <= LowerChar(c) <= 'z' && LowerChar(c) - 'a' == c - 'A' else LowerChar(c) == c
  {
  }

  lemma LowerCharFacts(c: char)
    ensures IsSpace(LowerChar(c)) == IsSpace(c)
    ensures LowerChar(LowerChar(c)) == LowerChar(c)
  {
  }

  /** Lower(Trim(s)) is a normal form: normalising twice changes nothing. */
  lemma NormalIdempotent(s: string)
    ensures Lower(Trim(Lower(Trim(s)))) == Lower(Trim(s))
  {
    var t := Trim(s);
    var n := Lower(t);
    assert Trim(n) == n by {
      TrimHasNoOuterBlanks(s);
      if t != [] {
        LowerCharFacts(t[0]);
        LowerCharFacts(t[|t| - 1]);
      }
      TrimFixes(n);
    }
    LowerTwice(t);
  }

  lemma LowerTwice(t: string)
    ensures Lower(Lower(t)) == Lower(t)
  {
    forall k | 0 <= k < |t| ensures Lower(Lower(t))[k] == Lower(t)[k] {
      LowerCharFacts(t[k]);
    }
  }
}
