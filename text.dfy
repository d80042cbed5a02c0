/**
 * Python's no-argument `str.split()`, `str.strip()`, `" ".join(...)` and the
 * substring test `sub in s`, on Dafny strings.
 */
module Text {

  /** The code points Python's `str.isspace()` accepts; `split()` and `strip()` cut on these. */
  predicate IsSpace(c: char) {
    ('\t' <= c <= '\r') || ('\U{1C}' <= c <= '\U{1F}') || c == ' ' || c == '\U{85}' || c == '\U{A0}'
    || c == '\U{1680}' || ('\U{2000}' <= c <= '\U{200A}') || c == '\U{2028}' || c == '\U{2029}'
    || c == '\U{202F}' || c == '\U{205F}' || c == '\U{3000}'
  }

  /** A token as `split()` yields it: non-empty and free of whitespace. */
  predicate IsWord(w: string) {
    |w| > 0 && forall i :: 0 <= i < |w| ==> !IsSpace(w[i])
  }

  /** Length of the leading run of non-whitespace characters of `s`. */
  function WordEnd(s: string): (k: nat)
    ensures k <= |s|
    ensures forall i :: 0 <= i < k ==> !IsSpace(s[i])
    ensures k < |s| ==> IsSpace(s[k])
  {
    if s == [] || IsSpace(s[0]) then 0 else 1 + WordEnd(s[1..])
  }

  /** `s.split()`: the maximal runs of non-whitespace characters, in order. */
  function Words(s: string): (ws: seq<string>)
    ensures forall i :: 0 <= i < |ws| ==> IsWord(ws[i])
    decreases |s|
  {
    if s == [] then []
    else if IsSpace(s[0]) then Words(s[1..])
    else
      var k := WordEnd(s);
      [s[..k]] + Words(s[k..])
  }

  /** `" ".join(ss)`. */
  function Join(ss: seq<string>): string {
    if ss == [] then ""
    else if |ss| == 1 then ss[0]
    else ss[0] + " " + Join(ss[1..])
  }

  /** The words of each string of `ss`, one after another. */
  function WordsOfAll(ss: seq<string>): seq<string> {
    if ss == [] then [] else Words(ss[0]) + WordsOfAll(ss[1..])
  }

  /** The sequences of `xss`, one after another. */
  function Flatten<T>(xss: seq<seq<T>>): seq<T> {
    if xss == [] then [] else xss[0] + Flatten(xss[1..])
  }

  /** The characters of `s` that are not whitespace, in order. */
  function Squash(s: string): string {
    if s == [] then [] else (if IsSpace(s[0]) then [] else [s[0]]) + Squash(s[1..])
  }

  /** Python's `sub in s`. */
  predicate Contains(s: string, sub: string)
    decreases |s|
  {
    sub <= s || (s != [] && Contains(s[1..], sub))
  }

  /** The number of whitespace characters `s` starts with. */
  function LeadingSpaces(s: string): (k: nat)
    ensures k <= |s|
    ensures forall i :: 0 <= i < k ==> IsSpace(s[i])
    ensures k < |s| ==> !IsSpace(s[k])
  {
    if s != [] && IsSpace(s[0]) then 1 + LeadingSpaces(s[1..]) else 0
  }

  /** The number of whitespace characters `s` ends with. */
  function TrailingSpaces(s: string): (k: nat)
    ensures k <= |s|
    ensures forall i :: |s| - k <= i < |s| ==> IsSpace(s[i])
    ensures k < |s| ==> !IsSpace(s[|s| - k - 1])
  {
    if s != [] && IsSpace(s[|s| - 1]) then 1 + TrailingSpaces(s[..|s| - 1]) else 0
  }

  /** `s.strip()`. */
  function Strip(s: string): (r: string)
    ensures r == [] || (!IsSpace(r[0]) && !IsSpace(r[|r| - 1]))
    ensures (s == [] || (!IsSpace(s[0]) && !IsSpace(s[|s| - 1]))) ==> r == s
  {
    var t := s[LeadingSpaces(s)..];
    t[..|t| - TrailingSpaces(t)]
  }

  /**
   * `strip()` removes exactly a whitespace run at each end: the result is a
   * slice `s[i..j]` with only whitespace before `i` and after `j`.
   */
  lemma StripKeepsMiddle(s: string)
    ensures exists i, j :: 0 <= i <= j <= |s| && Strip(s) == s[i..j]
                           && (forall k :: 0 <= k < i ==> IsSpace(s[k]))
                           && (forall k :: j <= k < |s| ==> IsSpace(s[k]))
  {
    var i := LeadingSpaces(s);
    var t := s[i..];
    var j := i + |t| - TrailingSpaces(t);
    assert Strip(s) == s[i..j];
    assert forall k :: j <= k < |s| ==> s[k] == t[k - i];
  }

  /** A word on its own splits into just itself. */
  lemma WordsOfWord(w: string)
    requires IsWord(w)
    ensures Words(w) == [w]
  {
    assert !IsSpace(w[0]);
    var k := WordEnd(w);
    assert k == |w|;
    assert w[..k] == w && w[k..] == [];
    assert Words(w) == [w[..k]] + Words(w[k..]);
  }

  /** The leading word of `x + y` is the leading word of `x` when it ends inside `x` or `y` starts with a separator. */
  lemma {:induction false} WordEndAppend(x: string, y: string)
    requires WordEnd(x) < |x| || y == [] || IsSpace(y[0])
    ensures WordEnd(x + y) == WordEnd(x)
  {
    if x == [] {
    } else if IsSpace(x[0]) {
    } else {
      assert (x + y)[1..] == x[1..] + y;
      WordEndAppend(x[1..], y);
    }
  }

  /** A leading separator is skipped by `split()`. */
  lemma WordsSkipSpace(s: string)
    requires s != [] && IsSpace(s[0])
    ensures Words(s) == Words(s[1..])
  {
  }

  /** A leading non-separator starts the first word, which runs to `WordEnd(s)`. */
  lemma WordsTakeWord(s: string)
    requires s != [] && !IsSpace(s[0])
    ensures Words(s) == [s[..WordEnd(s)]] + Words(s[WordEnd(s)..])
  {
  }

  /** The first `n` elements of `a + b`, `n <= |a|`, are those of `a`. */
  lemma TakeAppend<T>(a: seq<T>, b: seq<T>, n: nat)
    requires n <= |a|
    ensures (a + b)[..n] == a[..n]
  {
  }

  /** Dropping `n <= |a|` elements of `a + b` drops them from `a`. */
  lemma DropAppend<T>(a: seq<T>, b: seq<T>, n: nat)
    requires n <= |a|
    ensures (a + b)[n..] == a[n..] + b
  {
  }

  /** Concatenation is associative. */
  lemma AppendAssoc<T>(a: seq<T>, b: seq<T>, c: seq<T>)
    ensures a + (b + c) == (a + b) + c
  {
  }

  /** Splitting distributes over a concatenation whose seam is whitespace (or an end). */
  lemma {:induction false} WordsAppend(x: string, y: string)
    requires x == [] || y == [] || IsSpace(x[|x| - 1]) || IsSpace(y[0])
    ensures Words(x + y) == Words(x) + Words(y)
    decreases |x|
  {
    if x == [] {
      assert x + y == y;
    } else if IsSpace(x[0]) {
      assert x[1..] == [] || x[1..][|x[1..]| - 1] == x[|x| - 1];
      WordsAppend(x[1..], y);
      WordsAppendAfterSpace(x, y);
    } else {
      var k := WordEnd(x);
      if k < |x| {
        assert x[k..][|x[k..]| - 1] == x[|x| - 1];
        WordsAppend(x[k..], y);
      } else {
        assert x[k..] == [];
        assert x[k..] + y == y;
      }
      WordsAppendAfterWord(x, y);
    }
  }

  /** The step of `WordsAppend` past a leading separator of `x`. */
  lemma WordsAppendAfterSpace(x: string, y: string)
    requires x != [] && IsSpace(x[0])
    requires Words(x[1..] + y) == Words(x[1..]) + Words(y)
    ensures Words(x + y) == Words(x) + Words(y)
  {
    assert (x + y)[0] == x[0];
    WordsSkipSpace(x);
    WordsSkipSpace(x + y);
    DropAppend(x, y, 1);
  }

  /** The step of `WordsAppend` past the leading word of `x`. */
  lemma WordsAppendAfterWord(x: string, y: string)
    requires x != [] && !IsSpace(x[0])
    requires WordEnd(x) < |x| || y == [] || IsSpace(y[0])
    requires Words(x[WordEnd(x)..] + y) == Words(x[WordEnd(x)..]) + Words(y)
    ensures Words(x + y) == Words(x) + Words(y)
  {
    var k := WordEnd(x);
    assert (x + y)[0] == x[0];
    WordEndAppend(x, y);
    WordsTakeWord(x);
    WordsTakeWord(x + y);
    TakeAppend(x, y, k);
    DropAppend(x, y, k);
    AppendAssoc([x[..k]], Words(x[k..]), Words(y));
  }

  /** `" ".join(ss).split()` is the words of every `s` in `ss`, in order: joining adds no word and merges none. */
  lemma {:induction false} WordsOfJoin(ss: seq<string>)
    ensures Words(Join(ss)) == WordsOfAll(ss)
  {
    if ss == [] {
    } else if |ss| == 1 {
      assert WordsOfAll(ss[1..]) == [];
    } else {
      WordsAppend(ss[0], " " + Join(ss[1..]));
      assert ss[0] + " " + Join(ss[1..]) == ss[0] + (" " + Join(ss[1..]));
      assert (" " + Join(ss[1..]))[1..] == Join(ss[1..]);
      WordsOfJoin(ss[1..]);
    }
  }

  /** Joining words and splitting again gives the same words back. */
  lemma {:induction false} JoinWordsRoundTrip(ws: seq<string>)
    requires forall i :: 0 <= i < |ws| ==> IsWord(ws[i])
    ensures Words(Join(ws)) == ws
  {
    WordsOfJoin(ws);
    WordsOfAllWords(ws);
  }

  lemma {:induction false} WordsOfAllWords(ws: seq<string>)
    requires forall i :: 0 <= i < |ws| ==> IsWord(ws[i])
    ensures WordsOfAll(ws) == ws
  {
    if ws != [] {
      WordsOfWord(ws[0]);
      WordsOfAllWords(ws[1..]);
    }
  }

  /** `Squash` of a concatenation is the concatenation of the `Squash`es. */
  lemma {:induction false} SquashAppend(x: string, y: string)
    ensures Squash(x + y) == Squash(x) + Squash(y)
  {
    if x == [] {
      assert x + y == y;
    } else {
      assert (x + y)[1..] == x[1..] + y;
      SquashAppend(x[1..], y);
    }
  }

  /** A word squashes to itself. */
  lemma {:induction false} SquashWord(w: string)
    requires forall i :: 0 <= i < |w| ==> !IsSpace(w[i])
    ensures Squash(w) == w
  {
    if w != [] {
      SquashWord(w[1..]);
    }
  }

  /**
   * `split()` loses only whitespace: the words, put side by side, are the
   * non-whitespace characters of `s` in their original order.
   */
  lemma {:induction false} WordsKeepText(s: string)
    ensures Flatten(Words(s)) == Squash(s)
    decreases |s|
  {
    if s == [] {
    } else if IsSpace(s[0]) {
      WordsKeepText(s[1..]);
    } else {
      var k := WordEnd(s);
      assert s == s[..k] + s[k..];
      SquashAppend(s[..k], s[k..]);
      SquashWord(s[..k]);
      WordsKeepText(s[k..]);
      assert Words(s) == [s[..k]] + Words(s[k..]);
      assert Flatten(Words(s)) == s[..k] + Flatten(Words(s[k..]));
    }
  }

  /** A string that starts with `sub` contains it, whatever follows. */
  lemma PrefixContains(sub: string, rest: string)
    ensures Contains(sub + rest, sub)
  {
    assert sub <= sub + rest;
  }

  /** A string contains whatever its suffix contains. */
  lemma {:induction false} SuffixContains(front: string, back: string, sub: string)
    requires Contains(back, sub)
    ensures Contains(front + back, sub)
    decreases |front|
  {
    if front != [] {
      assert (front + back)[1..] == front[1..] + back;
      SuffixContains(front[1..], back, sub);
    } else {
      assert front + back == back;
    }
  }

  /** A string contains whatever its prefix contains. */
  lemma {:induction false} PrefixPartContains(front: string, back: string, sub: string)
    requires Contains(front, sub)
    ensures Contains(front + back, sub)
    decreases |front|
  {
    if sub <= front {
      assert sub <= front + back;
    } else {
      assert (front + back)[1..] == front[1..] + back;
      PrefixPartContains(front[1..], back, sub);
    }
  }

  /** `" ".join(ss)` contains whatever any part contains. */
  lemma {:induction false} JoinContains(ss: seq<string>, k: nat, sub: string)
    requires k < |ss| && Contains(ss[k], sub)
    ensures Contains(Join(ss), sub)
  {
    if k == 0 {
      if |ss| == 1 {
        assert Join(ss) == ss[0];
      } else {
        assert Join(ss) == ss[0] + (" " + Join(ss[1..]));
        PrefixPartContains(ss[0], " " + Join(ss[1..]), sub);
      }
    } else {
      JoinContains(ss[1..], k - 1, sub);
      SuffixContains(ss[0] + " ", Join(ss[1..]), sub);
      assert Join(ss) == ss[0] + " " + Join(ss[1..]);
    }
  }
}
