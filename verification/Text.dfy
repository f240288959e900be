/** The parts of Go's `strings` package the orchestrator relies on, over ASCII text. */
module Text {

  /** The ASCII characters Go's `unicode.IsSpace` accepts. */
  predicate IsSpace(c: char) {
    c == ' ' || c == '\t' || c == '\n' || c == '\r' || c == '\U{000B}' || c == '\U{000C}'
  }

  function TrimLeft(s: string): (r: string)
    ensures r != "" ==> !IsSpace(r[0])
  {
    if s != "" && IsSpace(s[0]) then TrimLeft(s[1..]) else s
  }

  function TrimRight(s: string): (r: string)
    ensures r <= s && (r != "" ==> !IsSpace(r[|r| - 1]))
    ensures s != "" && !IsSpace(s[0]) ==> r != ""
  {
    if s != "" && IsSpace(s[|s| - 1]) then TrimRight(s[..|s| - 1]) else s
  }

  function TrimSpace(s: string): string {
    TrimRight(TrimLeft(s))
  }

  /** Trimming once is enough. */
  lemma TrimTwice(s: string)
    ensures TrimSpace(TrimSpace(s)) == TrimSpace(s)
  {
    hide TrimLeft, TrimRight;
    TrimmedStays(TrimSpace(s));
  }

  lemma TrimmedStays(r: string)
    requires r != "" ==> !IsSpace(r[0]) && !IsSpace(r[|r| - 1])
    ensures TrimSpace(r) == r
  {}

  const WHITE: set<char> := {' ', '\t', '\n', '\r', '\U{000B}', '\U{000C}'}

  ghost predicate Trims(s: string, i: nat, j: nat) {
    && i <= j <= |s| && TrimSpace(s) == s[i..j]
    && (forall k :: 0 <= k < i || j <= k < |s| ==> s[k] in WHITE)
    && (i < j ==> s[i] !in WHITE && s[j - 1] !in WHITE)
  }

  /** Trimming takes the white space off both ends and nothing else. */
  lemma {:induction false} TrimSpaceMeans(s: string)
    ensures exists i: nat, j: nat :: Trims(s, i, j)
  {
    var i := LeftTrimmed(s);
    var j := RightTrimmed(s[i..]);
    assert forall k :: i + j <= k < |s| ==> s[k] == s[i..][k - i];
    assert Trims(s, i, i + j);
  }

  lemma {:induction false} LeftTrimmed(s: string) returns (i: nat)
    ensures i <= |s| && TrimLeft(s) == s[i..] && forall k :: 0 <= k < i ==> s[k] in WHITE
  {
    i := 0;
    if s != "" && IsSpace(s[0]) {
      i := LeftTrimmed(s[1..]);
      i := i + 1;
    }
  }

  lemma {:induction false} RightTrimmed(s: string) returns (j: nat)
    ensures j <= |s| && TrimRight(s) == s[..j] && forall k :: j <= k < |s| ==> s[k] in WHITE
  {
    j := |s|;
    if s != "" && IsSpace(s[|s| - 1]) {
      j := RightTrimmed(s[..|s| - 1]);
    }
  }

  /** `s` is what the validator compares and also what the engine compares. */
  predicate Trimmed(s: string) {
    TrimSpace(s) == s
  }

  function LowerChar(c: char): char {
    if 'A' <= c <= 'Z' then (c as int + 32) as char else c
  }

  function ToLower(s: string): string {
    seq(|s|, i requires 0 <= i < |s| => LowerChar(s[i]))
  }

  predicate EqualFold(s: string, t: string) {
    ToLower(s) == ToLower(t)
  }

  /** Folding compares letters without regard to case, and all other characters as they are. */
  lemma FoldMeans(s: string, t: string)
    ensures EqualFold(s, t) <==>
              |s| == |t| && forall k :: 0 <= k < |s| ==>
                || s[k] == t[k]
                || ('A' <= s[k] <= 'Z' && t[k] as int == s[k] as int + 32)
                || ('A' <= t[k] <= 'Z' && s[k] as int == t[k] as int + 32)
  {
    if EqualFold(s, t) {
      assert |ToLower(s)| == |ToLower(t)|;
      forall k | 0 <= k < |s| ensures LowerChar(s[k]) == LowerChar(t[k]) {
        assert ToLower(s)[k] == ToLower(t)[k];
      }
    }
  }
}
