/**
 * String helpers with the semantics of the JavaScript and lodash calls the
 * normaliser makes: ASCII `toUpperCase`/`toLowerCase`, `_.upperFirst`,
 * `String.prototype.split` on one character, `Array.prototype.join`,
 * `String.prototype.substring`, and character replacement.
 */
module Text {

  function UpperChar(c: char): char {
    if 'a' <= c <= 'z' then (c as int - 32) as char else c
  }

  function LowerChar(c: char): char {
    if 'A' <= c <= 'Z' then (c as int + 32) as char else c
  }

  /** `toUpperCase` (and lodash `_.upperCase` on a single word), ASCII letters only. */
  function Upper(s: string): (r: string)
    ensures |r| == |s|
    ensures forall i :: 0 <= i < |s| ==> r[i] == UpperChar(s[i])
  {
    if s == [] then [] else [UpperChar(s[0])] + Upper(s[1..])
  }

  /** `toLowerCase`, ASCII letters only. */
  function Lower(s: string): (r: string)
    ensures |r| == |s|
    ensures forall i :: 0 <= i < |s| ==> r[i] == LowerChar(s[i])
  {
    if s == [] then [] else [LowerChar(s[0])] + Lower(s[1..])
  }

  /** lodash `_.upperFirst`: the first character upper-cased, the rest kept. */
  function UpperFirst(s: string): (r: string)
    ensures |r| == |s|
    ensures |s| > 0 ==> r[0] == UpperChar(s[0]) && r[1..] == s[1..]
  {
    if s == [] then [] else [UpperChar(s[0])] + s[1..]
  }

  /** `s.split(sep)` for a one-character separator: never empty, and "" splits to [""]. */
  function Split(s: string, sep: char): (r: seq<string>)
    ensures |r| >= 1
    ensures forall k :: 0 <= k < |r| ==> sep !in r[k]
  {
    if s == [] then [""]
    else if s[0] == sep then [""] + Split(s[1..], sep)
    else
      var rest := Split(s[1..], sep);
      [[s[0]] + rest[0]] + rest[1..]
  }

  /** `segs.join(sep)`. */
  function Join(segs: seq<string>, sep: string): string {
    if segs == [] then ""
    else if |segs| == 1 then segs[0]
    else segs[0] + sep + Join(segs[1..], sep)
  }

  lemma JoinCons(x: string, rest: seq<string>, sep: string)
    requires rest != []
    ensures Join([x] + rest, sep) == x + sep + Join(rest, sep)
  {
    assert ([x] + rest)[1..] == rest;
  }

  lemma JoinPrependToFirst(x: string, y: string, more: seq<string>, sep: string)
    ensures Join([x + y] + more, sep) == x + Join([y] + more, sep)
  {
    if more == [] {
    } else {
      JoinCons(x + y, more, sep);
      JoinCons(y, more, sep);
    }
  }

  /** Splitting and joining back on the same character gives the string back. */
  lemma {:induction false} JoinSplit(s: string, sep: char)
    ensures Join(Split(s, sep), [sep]) == s
  {
    if s == [] {
    } else if s[0] == sep {
      JoinSplit(s[1..], sep);
      JoinCons("", Split(s[1..], sep), [sep]);
      assert s == [sep] + s[1..];
    } else {
      var rest := Split(s[1..], sep);
      JoinSplit(s[1..], sep);
      assert [rest[0]] + rest[1..] == rest;
      JoinPrependToFirst([s[0]], rest[0], rest[1..], [sep]);
      assert s == [s[0]] + s[1..];
    }
  }

  /** `s.replace(pattern, [to])` where the pattern matches each character of `chars`, globally. */
  function ReplaceChars(s: string, chars: set<char>, to: char): (r: string)
    ensures |r| == |s|
    ensures forall i :: 0 <= i < |s| ==> r[i] == if s[i] in chars then to else s[i]
  {
    if s == [] then [] else [if s[0] in chars then to else s[0]] + ReplaceChars(s[1..], chars, to)
  }

  /** `s.split(sep).join(to)` replaces each occurrence of `sep` by `to`. */
  lemma {:induction false} SplitJoinReplaces(s: string, sep: char, to: char)
    ensures Join(Split(s, sep), [to]) == ReplaceChars(s, {sep}, to)
  {
    if s == [] {
    } else if s[0] == sep {
      SplitJoinReplaces(s[1..], sep, to);
      JoinCons("", Split(s[1..], sep), [to]);
    } else {
      var rest := Split(s[1..], sep);
      SplitJoinReplaces(s[1..], sep, to);
      assert [rest[0]] + rest[1..] == rest;
      JoinPrependToFirst([s[0]], rest[0], rest[1..], [to]);
    }
  }

  /** The last element of `s.split(sep)`. */
  function LastSegment(s: string, sep: char): string {
    var segs := Split(s, sep);
    segs[|segs| - 1]
  }

  /** After a separator, a separator-free tail is the last piece. */
  lemma {:induction false} LastSegmentAfterSep(head: string, sep: char, tail: string)
    requires sep !in tail
    ensures var segs := Split(head + [sep] + tail, sep); |segs| >= 2 && segs[|segs| - 1] == tail
    decreases |head|
  {
    var s := head + [sep] + tail;
    if head == [] {
      assert s[0] == sep && s[1..] == tail;
      SplitWithoutSep(tail, sep);
    } else {
      assert s[0] == head[0] && s[1..] == head[1..] + [sep] + tail;
      LastSegmentAfterSep(head[1..], sep, tail);
    }
  }

  lemma {:induction false} SplitWithoutSep(s: string, sep: char)
    requires sep !in s
    ensures Split(s, sep) == [s]
  {
    if s != [] {
      SplitWithoutSep(s[1..], sep);
      assert [s[0]] + s[1..] == s;
    }
  }

  lemma {:induction false} SplitWithSep(s: string, sep: char)
    requires sep in s
    ensures |Split(s, sep)| >= 2
  {
    if s[0] != sep {
      SplitWithSep(s[1..], sep);
    }
  }

  /** How the last segment of `s` relates to the last segment of `s[1..]`. */
  lemma LastSegmentStep(s: string, sep: char)
    requires s != []
    ensures sep in s[1..] ==> LastSegment(s, sep) == LastSegment(s[1..], sep)
    ensures s[0] == sep ==> LastSegment(s, sep) == LastSegment(s[1..], sep)
    ensures sep !in s ==> LastSegment(s, sep) == s
  {
    if sep !in s {
      SplitWithoutSep(s, sep);
    } else if s[0] != sep {
      SplitWithSep(s[1..], sep);
    }
  }

  /**
   * The last segment is the suffix of `s` after its last `sep`, or all of `s`
   * when it has none.
   */
  lemma {:induction false} LastSegmentIsSuffix(s: string, sep: char)
    ensures |LastSegment(s, sep)| <= |s|
    ensures s[|s| - |LastSegment(s, sep)|..] == LastSegment(s, sep)
    ensures sep !in LastSegment(s, sep)
    ensures |LastSegment(s, sep)| == |s| <==> sep !in s
    ensures |LastSegment(s, sep)| < |s| ==> s[|s| - |LastSegment(s, sep)| - 1] == sep
  {
    var r := LastSegment(s, sep);
    if s == [] {
    } else if sep !in s {
      LastSegmentStep(s, sep);
    } else {
      LastSegmentStep(s, sep);
      if s[0] == sep && sep !in s[1..] {
        SplitWithoutSep(s[1..], sep);
        assert r == s[1..];
      } else {
        LastSegmentIsSuffix(s[1..], sep);
        assert r == LastSegment(s[1..], sep);
        assert sep in s[1..];
        assert s[1..][|s| - 1 - |r|..] == s[|s| - |r|..];
        assert s[1..][|s| - 1 - |r| - 1] == s[|s| - |r| - 1];
      }
    }
  }

  function Clamp(i: int, n: nat): (r: nat)
    ensures r <= n
  {
    if i < 0 then 0 else if i > n then n else i
  }

  /** `s.substring(start, end)`: both bounds clamped to the string, swapped when `start > end`. */
  function Substring(s: string, start: int, end: int): (r: string)
    ensures |r| <= |s|
    ensures 0 <= start <= end <= |s| ==> r == s[start..end]
    ensures 0 <= end <= start <= |s| ==> r == s[end..start]
  {
    var a := Clamp(start, |s|);
    var b := Clamp(end, |s|);
    if a <= b then s[a..b] else s[b..a]
  }

  /** Swapped bounds give the same piece; a negative bound acts as 0 and one past the end as the length. */
  lemma SubstringSwapClamp(s: string, start: int, end: int)
    ensures Substring(s, start, end) == Substring(s, end, start)
    ensures start < 0 ==> Substring(s, start, end) == Substring(s, 0, end)
    ensures end < 0 ==> Substring(s, start, end) == Substring(s, start, 0)
    ensures start > |s| ==> Substring(s, start, end) == Substring(s, |s|, end)
    ensures end > |s| ==> Substring(s, start, end) == Substring(s, start, |s|)
  {
  }
}
