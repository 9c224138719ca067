/**
 * The two static name rules of `MethodsParser`: `_normalizeMethodName`, which
 * turns an `operationId` into an identifier, and `_getPathToMethodName`, which
 * derives a name from the verb and the path when there is no `operationId`.
 */
module MethodNames {
  import opened Js
  import opened Text

  /** The characters the regular expression `/\.|\-|\{|\}/g` matches. */
  const Punctuation: set<char> := {'.', '-', '{', '}'}

  /** Every character `_normalizeMethodName` turns into `_`. */
  const Replaced: set<char> := {'.', '-', '{', '}', ' '}

  /** `_normalizeMethodName`: replace `.`, `-`, `{`, `}`, then split on spaces and join with `_`. */
  function NormalizeMethodName(id: string): string {
    Join(Split(ReplaceChars(id, Punctuation, '_'), ' '), "_")
  }

  /** The five characters become `_`, every other character is kept, and the length is preserved. */
  lemma NormalizeMethodNamePointwise(id: string)
    ensures |NormalizeMethodName(id)| == |id|
    ensures forall i :: 0 <= i < |id| ==>
      NormalizeMethodName(id)[i] == if id[i] in Replaced then '_' else id[i]
  {
    var step := ReplaceChars(id, Punctuation, '_');
    SplitJoinReplaces(step, ' ', '_');
  }

  /** The name contains none of the five replaced characters. */
  lemma NormalizeMethodNameClean(id: string)
    ensures forall i :: 0 <= i < |NormalizeMethodName(id)| ==> NormalizeMethodName(id)[i] !in Replaced
  {
    NormalizeMethodNamePointwise(id);
  }

  /** Normalising twice is normalising once. */
  lemma NormalizeMethodNameIdempotent(id: string)
    ensures NormalizeMethodName(NormalizeMethodName(id)) == NormalizeMethodName(id)
  {
    var once := NormalizeMethodName(id);
    NormalizeMethodNamePointwise(id);
    NormalizeMethodNamePointwise(once);
  }

  /** `path.replace(/\/$/, '')`: one trailing `/` removed. */
  function StripTrailingSlash(path: string): (r: string)
    ensures |path| > 0 && path[|path| - 1] == '/' ==> r + "/" == path
    ensures !(|path| > 0 && path[|path| - 1] == '/') ==> r == path
  {
    if |path| > 0 && path[|path| - 1] == '/' then path[..|path| - 1] else path
  }

  /** A segment `{...}`: first character `{` and last character `}`. */
  predicate IsTemplate(segment: string) {
    |segment| > 0 && segment[0] == '{' && segment[|segment| - 1] == '}'
  }

  /** The `_.transform` step: `'by' + segment[1].toUpperCase() + segment.substring(2, segment.length - 1)`. */
  function RewriteSegment(segment: string): string {
    if IsTemplate(segment) then "by" + [UpperChar(segment[1])] + Substring(segment, 2, |segment| - 1)
    else segment
  }

  /** `{x...}` becomes `by`, the upper-cased `x` and the rest; other segments are kept. */
  lemma RewriteTemplate(c: char, rest: string)
    ensures RewriteSegment("{" + [c] + rest + "}") == "by" + [UpperChar(c)] + rest
  {
    var s := "{" + [c] + rest + "}";
    assert IsTemplate(s);
    assert s[1] == c;
    assert s[2..|s| - 1] == rest;
  }

  /** The empty template `{}`: `segment[1]` is the closing brace and `substring(2, 1)` swaps to `substring(1, 2)`. */
  lemma RewriteEmptyTemplate()
    ensures RewriteSegment("{}") == "by}}"
  {
    assert IsTemplate("{}");
    assert Substring("{}", 2, 1) == "}";
  }

  function RewriteAll(segments: seq<string>): (r: seq<string>)
    ensures |r| == |segments|
    ensures forall i :: 0 <= i < |segments| ==> r[i] == RewriteSegment(segments[i])
  {
    if segments == [] then [] else [RewriteSegment(segments[0])] + RewriteAll(segments[1..])
  }

  /** The segments after the first `/`-separated piece of the cleaned path. */
  function PathSegments(path: string): seq<string> {
    Split(StripTrailingSlash(path), '/')[1..]
  }

  /** The text `_.camelCase` is applied to. */
  function CamelSource(path: string): string {
    Join(RewriteAll(PathSegments(path)), "-")
  }

  /** `_getPathToMethodName`, with `m` the already upper-cased verb. */
  function PathToMethodName(m: string, path: string, camelCase: string -> string): (r: Result<string>)
    ensures path == "/" || path == "" ==> r == Success(m)
  {
    if path == "/" || path == "" then Success(m)
    else
      var result := camelCase(CamelSource(path));
      if result == [] then Failure(EmptyMethodName)
      else Success(Lower(m) + [UpperChar(result[0])] + result[1..])
  }

  /** Otherwise the name is the lower-cased verb followed by the camel-cased, upper-first path text. */
  lemma PathToMethodNameShape(m: string, path: string, camelCase: string -> string)
    requires path != "/" && path != ""
    ensures camelCase(CamelSource(path)) == [] <==> PathToMethodName(m, path, camelCase) == Failure(EmptyMethodName)
    ensures camelCase(CamelSource(path)) != [] ==>
      PathToMethodName(m, path, camelCase) == Success(Lower(m) + UpperFirst(camelCase(CamelSource(path))))
  {
    var result := camelCase(CamelSource(path));
    if result != [] {
      assert [UpperChar(result[0])] + result[1..] == UpperFirst(result);
      AppendAssoc3(Lower(m), [UpperChar(result[0])], result[1..]);
    }
  }

  /** A path and the same path with one more trailing `/` give the same name. */
  lemma TrailingSlashIgnored(m: string, path: string, camelCase: string -> string)
    requires path != "" && path[|path| - 1] != '/'
    ensures PathToMethodName(m, path + "/", camelCase) == PathToMethodName(m, path, camelCase)
  {
    var p := path + "/";
    assert p[|p| - 1] == '/';
    assert p[..|p| - 1] == path;
    assert StripTrailingSlash(p) == StripTrailingSlash(path);
    assert p != "/" by {
      assert |p| >= 2;
    }
  }

  /** The first piece and the segments, joined again with `/`, give back the cleaned path. */
  lemma SegmentsReassemble(path: string)
    ensures var pieces := Split(StripTrailingSlash(path), '/');
      Join(pieces, "/") == StripTrailingSlash(path) && pieces[1..] == PathSegments(path)
  {
    JoinSplit(StripTrailingSlash(path), '/');
  }

  /** Splitting a separator-free head, the separator and a tail gives the head, then the tail's pieces. */
  lemma {:induction false} SplitAfterHead(head: string, sep: char, tail: string)
    requires sep !in head
    ensures Split(head + [sep] + tail, sep) == [head] + Split(tail, sep)
    decreases |head|
  {
    if head == [] {
      assert head + [sep] + tail == [sep] + tail;
      assert ([sep] + tail)[1..] == tail;
    } else {
      SplitAfterHead(head[1..], sep, tail);
      var s := head + [sep] + tail;
      assert s[0] == head[0] && s[1..] == head[1..] + [sep] + tail;
      assert [head[0]] + head[1..] == head;
    }
  }

  /** Joining separator-free pieces and splitting again gives the pieces back. */
  lemma {:induction false} SplitJoin(pieces: seq<string>, sep: char)
    requires |pieces| >= 1
    requires forall k :: 0 <= k < |pieces| ==> sep !in pieces[k]
    ensures Split(Join(pieces, [sep]), sep) == pieces
    decreases |pieces|
  {
    if |pieces| == 1 {
      SplitWithoutSep(pieces[0], sep);
    } else {
      var rest := pieces[1..];
      assert forall k :: 0 <= k < |rest| ==> rest[k] == pieces[k + 1];
      SplitJoin(rest, sep);
      JoinCons(pieces[0], rest, [sep]);
      assert [pieces[0]] + rest == pieces;
      SplitAfterHead(pieces[0], sep, Join(rest, [sep]));
    }
  }

  /** The last character of a join of pieces whose last piece is not empty. */
  lemma {:induction false} JoinLast(pieces: seq<string>, sep: string)
    requires |pieces| >= 1 && pieces[|pieces| - 1] != ""
    ensures var j := Join(pieces, sep); |j| > 0 && j[|j| - 1] == pieces[|pieces| - 1][|pieces[|pieces| - 1]| - 1]
    decreases |pieces|
  {
    if |pieces| > 1 {
      var rest := pieces[1..];
      JoinLast(rest, sep);
      JoinCons(pieces[0], rest, sep);
      assert [pieces[0]] + rest == pieces;
    }
  }

  /**
   * A path `/s1/.../sn` whose segments hold no `/` and whose last segment is
   * not empty has exactly the segments s1 ... sn.
   */
  lemma PathOfSegments(segments: seq<string>)
    requires |segments| >= 1 && segments[|segments| - 1] != ""
    requires forall k :: 0 <= k < |segments| ==> '/' !in segments[k]
    ensures PathSegments("/" + Join(segments, "/")) == segments
  {
    var j := Join(segments, "/");
    var path := "/" + j;
    JoinLast(segments, "/");
    var last := segments[|segments| - 1];
    assert last[|last| - 1] != '/';
    assert path[|path| - 1] == j[|j| - 1];
    assert StripTrailingSlash(path) == path;
    SplitJoin(segments, '/');
    assert path == [] + ['/'] + j;
    SplitAfterHead([], '/', j);
  }

  /** For such a path, `_.camelCase` receives the rewritten segments joined with `-`. */
  lemma CamelSourceOfSegments(segments: seq<string>)
    requires |segments| >= 1 && segments[|segments| - 1] != ""
    requires forall k :: 0 <= k < |segments| ==> '/' !in segments[k]
    ensures CamelSource("/" + Join(segments, "/")) == Join(RewriteAll(segments), "-")
  {
    PathOfSegments(segments);
  }
}
