/** The string operations of the source that the models need, on ASCII text. */
module Text {
  predicate IsSpace(c: char) {
    c == ' ' || '\t' <= c <= '\r' || '\U{1c}' <= c <= '\U{1f}'
  }

  function StripLeft(s: string): (r: string)
    ensures |r| <= |s|
    ensures r != [] ==> !IsSpace(r[0])
  {
    if s != [] && IsSpace(s[0]) then StripLeft(s[1..]) else s
  }

  function StripRight(s: string): (r: string)
    ensures |r| <= |s| && r == s[..|r|]
    ensures r != [] ==> !IsSpace(r[|r| - 1])
  {
    if s != [] && IsSpace(s[|s| - 1]) then StripRight(s[..|s| - 1]) else s
  }

  /** Python's `str.strip()`. */
  function Strip(s: string): (r: string)
    ensures Trimmed(r)
  {
    StripRight(StripLeft(s))
  }

  predicate Trimmed(s: string) {
    s != [] ==> !IsSpace(s[0]) && !IsSpace(s[|s| - 1])
  }

  lemma StripOfTrimmed(s: string)
    requires Trimmed(s)
    ensures Strip(s) == s
  {
  }

  /** The blanks of ASCII text. */
  const BLANKS: set<char> := {' ', '\t', '\n', '\U{b}', '\U{c}', '\r', '\U{1c}', '\U{1d}', '\U{1e}', '\U{1f}'}

  lemma {:induction false} StripLeftCuts(s: string) returns (i: nat)
    ensures i <= |s| && StripLeft(s) == s[i..] && forall k :: 0 <= k < i ==> IsSpace(s[k])
    decreases |s|
  {
    if s != [] && IsSpace(s[0]) {
      var n := StripLeftCuts(s[1..]);
      i := n + 1;
      assert s[1..][n..] == s[i..];
      assert forall k :: 0 < k < i ==> s[k] == s[1..][k - 1];
    } else {
      i := 0;
    }
  }

  lemma {:induction false} StripRightCuts(s: string)
    ensures forall k :: |StripRight(s)| <= k < |s| ==> IsSpace(s[k])
    decreases |s|
  {
    if s != [] && IsSpace(s[|s| - 1]) {
      StripRightCuts(s[..|s| - 1]);
      assert forall k :: 0 <= k < |s| - 1 ==> s[k] == s[..|s| - 1][k];
    }
  }

  /** Stripping cuts blanks off both ends, and all of them. */
  lemma StripCuts(s: string) returns (i: nat, j: nat)
    ensures i <= j <= |s| && Strip(s) == s[i..j]
    ensures forall k :: 0 <= k < i || j <= k < |s| ==> s[k] in BLANKS
    ensures i < j ==> s[i] !in BLANKS && s[j - 1] !in BLANKS
  {
    i := StripLeftCuts(s);
    StripRightCuts(StripLeft(s));
    hide StripLeft, StripRight;
    j := i + |Strip(s)|;
    assert forall k :: j <= k < |s| ==> s[k] == StripLeft(s)[k - i];
  }

  /** A blank at either end makes no difference to the stripped text. */
  lemma StripBlankFirst(x: char, s: string)
    requires IsSpace(x)
    ensures Strip([x] + s) == Strip(s)
  {
    assert ([x] + s)[1..] == s;
  }

  lemma {:induction false} StripLeftBlankLast(s: string, x: char)
    requires IsSpace(x)
    ensures StripLeft(s + [x]) == if StripLeft(s) == "" then "" else StripLeft(s) + [x]
    decreases |s|
  {
    if s == "" {
      assert "" + [x] == [x] && [x][1..] == "";
    } else {
      assert (s + [x])[1..] == s[1..] + [x];
      if IsSpace(s[0]) {
        StripLeftBlankLast(s[1..], x);
      }
    }
  }

  lemma StripBlankLast(s: string, x: char)
    requires IsSpace(x)
    ensures Strip(s + [x]) == Strip(s)
  {
    StripLeftBlankLast(s, x);
    var left := StripLeft(s);
    hide StripLeft;
    assert (left + [x])[..|left|] == left;
  }
}
