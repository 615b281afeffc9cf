/**
 * The few Python string operations the service relies on: `str.endswith`,
 * the slice `s[1:]`, and `str.split()` with no separator (used to count
 * tokens), together with `" ".join`, its inverse on words.
 */
module Text {

  /** Python's `s.endswith(suffix)`. */
  predicate EndsWith(s: string, suffix: string) {
    |suffix| <= |s| && s[|s| - |suffix|..] == suffix
  }

  /** Python's `s[1:]`, which is the empty string when `s` is empty. */
  function Tail(s: string): (t: string)
    ensures |s| > 0 ==> t == s[1..]
    ensures |s| == 0 ==> t == ""
  {
    if |s| == 0 then "" else s[1..]
  }

  /** The characters Python's `str.isspace()` accepts (and `str.split()` splits on). */
  predicate IsSpace(c: char) {
    var n := c as int;
    (9 <= n <= 13) || (28 <= n <= 32) || n == 0x85 || n == 0xA0 || n == 0x1680
    || (0x2000 <= n <= 0x200A) || n == 0x2028 || n == 0x2029 || n == 0x202F
    || n == 0x205F || n == 0x3000
  }

  /** A word as `str.split()` produces it: non-empty, no whitespace. */
  predicate IsWord(w: string) {
    |w| > 0 && forall i :: 0 <= i < |w| ==> !IsSpace(w[i])
  }

  /** `s` with its leading whitespace removed (`s.lstrip()`). */
  function DropSpaces(s: string): (t: string)
    ensures |t| <= |s| && t == s[|s| - |t|..]
    ensures forall i :: 0 <= i < |s| - |t| ==> IsSpace(s[i])
    ensures |t| > 0 ==> !IsSpace(t[0])
  {
    if |s| > 0 && IsSpace(s[0]) then DropSpaces(s[1..]) else s
  }

  /** The length of the longest whitespace-free prefix of `s`. */
  function WordLength(s: string): (n: nat)
    ensures n <= |s|
    ensures forall i :: 0 <= i < n ==> !IsSpace(s[i])
    ensures n < |s| ==> IsSpace(s[n])
  {
    if |s| == 0 || IsSpace(s[0]) then 0 else 1 + WordLength(s[1..])
  }

  /** Python's `s.split()`: the maximal runs of non-whitespace characters, in order. */
  function Split(s: string): (ws: seq<string>)
    ensures forall k :: 0 <= k < |ws| ==> IsWord(ws[k])
    decreases |s|
  {
    var t := DropSpaces(s);
    if |t| == 0 then []
    else
      var n := WordLength(t);
      assert n > 0;
      var rest := Split(t[n..]);
      assert IsWord(t[..n]);
      [t[..n]] + rest
  }

  /** Python's `" ".join(ws)`. */
  function Join(ws: seq<string>): string {
    if |ws| == 0 then ""
    else if |ws| == 1 then ws[0]
    else ws[0] + " " + Join(ws[1..])
  }

  /** Whitespace in front of a string that starts with a word is skipped entirely. */
  lemma DropSpacesBeforeWord(p: string, s: string)
    requires forall i :: 0 <= i < |p| ==> IsSpace(p[i])
    requires |s| > 0 ==> !IsSpace(s[0])
    ensures DropSpaces(p + s) == s
  {
    var t := DropSpaces(p + s);
    assert forall i :: 0 <= i < |p| ==> (p + s)[i] == p[i];
    assert |s| > 0 ==> (p + s)[|p|] == s[0];
    assert |t| == |s|;
  }

  /** A string built by joining words starts with the first word's first character. */
  lemma JoinStartsWithWord(ws: seq<string>)
    requires |ws| > 0 && IsWord(ws[0])
    ensures |Join(ws)| > 0 && Join(ws)[0] == ws[0][0]
  {
  }

  /** A string that starts with a non-whitespace character holds at least one word. */
  lemma SplitStartsWithWord(s: string)
    requires |s| > 0 && !IsSpace(s[0])
    ensures |Split(s)| > 0
  {
  }

  /** A single leading space does not change the split of a string that starts with a word. */
  lemma SplitSkipsSpace(s: string)
    requires |s| > 0 && !IsSpace(s[0])
    ensures Split(" " + s) == Split(s)
  {
    DropSpacesBeforeWord(" ", s);
    DropSpacesBeforeWord("", s);
    assert "" + s == s;
  }

  /** `w + rest` splits into `w` followed by the split of `rest`, when `rest` starts with whitespace. */
  lemma SplitAfterWord(w: string, rest: string)
    requires IsWord(w)
    requires |rest| == 0 || IsSpace(rest[0])
    ensures Split(w + rest) == [w] + Split(rest)
  {
    var s := w + rest;
    DropSpacesBeforeWord("", s);
    assert "" + s == s;
    var n := WordLength(s);
    assert forall i :: 0 <= i < |w| ==> s[i] == w[i];
    assert |rest| > 0 ==> s[|w|] == rest[0];
    assert n == |w|;
    assert s[..n] == w;
    assert s[n..] == rest;
  }

  /** Round trip: splitting a space-joined list of words gives back the words. */
  lemma {:induction false} SplitJoin(ws: seq<string>)
    requires forall k :: 0 <= k < |ws| ==> IsWord(ws[k])
    ensures Split(Join(ws)) == ws
  {
    if |ws| == 1 {
      SplitAfterWord(ws[0], "");
      assert ws[0] + "" == ws[0];
    } else if |ws| > 1 {
      SplitJoin(ws[1..]);
      SplitJoinStep(ws);
    }
  }

  /** The inductive step of `SplitJoin`: the first word comes back in front of the rest. */
  lemma SplitJoinStep(ws: seq<string>)
    requires |ws| > 1 && forall k :: 0 <= k < |ws| ==> IsWord(ws[k])
    requires Split(Join(ws[1..])) == ws[1..]
    ensures Split(Join(ws)) == ws
  {
    var j := Join(ws[1..]);
    JoinCons(ws);
    assert ws[1..][0] == ws[1];
    JoinStartsWithWord(ws[1..]);
    SplitConsWord(ws[0], j);
    HeadTail(ws);
  }

  /** A word, a space and a string starting with a word split into the word followed by that string's split. */
  lemma SplitConsWord(w: string, j: string)
    requires IsWord(w) && |j| > 0 && !IsSpace(j[0])
    ensures Split(w + (" " + j)) == [w] + Split(j)
  {
    var rest := " " + j;
    assert rest[0] == ' ' && rest[1..] == j;
    SplitAfterWord(w, rest);
    assert Split(w + rest) == [w] + Split(rest);
    SplitSkipsSpace(j);
    assert Split(rest) == Split(j);
  }

  /** A join of two or more words is the first word, a space, and the join of the rest. */
  lemma JoinCons(ws: seq<string>)
    requires |ws| > 1
    ensures Join(ws) == ws[0] + (" " + Join(ws[1..]))
  {
  }

  /** A non-empty sequence is its head followed by its tail. */
  lemma HeadTail<X>(xs: seq<X>)
    requires |xs| > 0
    ensures [xs[0]] + xs[1..] == xs
  {
  }
}
