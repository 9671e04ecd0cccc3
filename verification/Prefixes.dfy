/**
 Prefix matching on segment boundaries (pathHasPrefix in internal/route/route.go) and the joining
 of two paths (singleJoiningSlash in internal/route/path.go), with their meaning on segments.
 */
module Prefixes {
  import opened GoText

  predicate PathHasPrefix(path: string, prefix: string) {
    if prefix == "/" then true
    else if !HasPrefix(path, prefix) then false
    else if HasSuffix(prefix, "/") then true
    else |path| == |prefix| || path[|prefix|] == '/'
  }

  function SingleJoiningSlash(base: string, rest: string): string {
    var baseSlash := HasSuffix(base, "/");
    var restSlash := HasPrefix(rest, "/");
    if baseSlash && restSlash then base + rest[1..]
    else if !baseSlash && !restSlash then base + "/" + rest
    else base + rest
  }

  // ---------------------------------------------------------------------------------------------
  // Segments
  // ---------------------------------------------------------------------------------------------

  function Segments(path: string): seq<string> {
    Split(path, '/')
  }

  /** The segments a path names as a place to append to: one final slash opens no segment. */
  function Stem(path: string): seq<string> {
    if HasSuffix(path, "/") then Segments(path[..|path| - 1]) else Segments(path)
  }

  /** The segments of a path that remain once the prefix's are taken off. */
  function SegmentsAfter(path: string, prefix: string): seq<string> {
    if |Stem(prefix)| <= |Segments(path)| then Segments(path)[|Stem(prefix)|..] else []
  }

  lemma SlashEnding(path: string)
    ensures HasSuffix(path, "/") <==> path != "" && path[|path| - 1] == '/'
    ensures HasSuffix(path, "/") ==> path == path[..|path| - 1] + ['/'] && Segments(path) == Stem(path) + [""]
    ensures HasPrefix(path, "/") <==> path != "" && path[0] == '/'
  {
    if path != "" && path[|path| - 1] == '/' {
      assert path[|path| - 1..] == "/";
      assert path == path[..|path| - 1] + ['/'] + "";
      SplitAppend(path[..|path| - 1], "", '/');
    }
    if path != "" && path[0] == '/' {
      assert path[..1] == "/";
    }
  }

  /** Following a path by a slash and a tail appends the tail's segments. */
  lemma SegmentsAppend(path: string, tail: string)
    ensures Segments(path + "/" + tail) == Segments(path) + Segments(tail)
  {
    SplitAppend(path, tail, '/');
  }

  /** The two are the same path up to the point where `long` has more segments. */
  lemma SegmentPrefixIsTextPrefix(long: string, short: string)
    requires Segments(short) <= Segments(long)
    ensures HasPrefix(long, short)
    ensures Segments(short) == Segments(long) ==> long == short
    ensures Segments(short) < Segments(long) ==> |long| > |short| && long[|short|] == '/'
  {
    var more := Segments(long)[|Segments(short)|..];
    assert Segments(long) == Segments(short) + more;
    JoinSplit(long, '/');
    JoinSplit(short, '/');
    if more != [] {
      JoinAppend(Segments(short), more, '/');
      assert long == short + ['/'] + Join(more, '/');
    } else {
      assert Segments(long) == Segments(short);
    }
  }

  lemma TextMatchesSegments(path: string, prefix: string)
    requires PathHasPrefix(path, prefix) && prefix != "/"
    ensures !HasSuffix(prefix, "/") ==> Segments(prefix) <= Segments(path)
    ensures HasSuffix(prefix, "/") ==> Stem(prefix) < Segments(path)
  {
    SlashEnding(prefix);
    hide Split;
    var stem := if HasSuffix(prefix, "/") then prefix[..|prefix| - 1] else prefix;
    if HasSuffix(prefix, "/") || path != prefix {
      var tail := path[|stem| + 1..];
      assert path == stem + "/" + tail;
      SegmentsAppend(stem, tail);
    }
  }

  lemma SegmentsMatchText(path: string, prefix: string)
    requires if HasSuffix(prefix, "/") then Stem(prefix) < Segments(path) else Segments(prefix) <= Segments(path)
    ensures PathHasPrefix(path, prefix)
  {
    SlashEnding(prefix);
    SegmentPrefixIsTextPrefix(path, if HasSuffix(prefix, "/") then prefix[..|prefix| - 1] else prefix);
    hide Split;
  }

  /**
   Prefix matching is segment matching: without a final slash the prefix's segments begin the
   path's, with one they begin it strictly. The prefix "/" alone also matches what does not start
   with a slash.
   */
  lemma MatchesBySegments(path: string, prefix: string)
    ensures PathHasPrefix(path, prefix) <==>
            prefix == "/"
            || (!HasSuffix(prefix, "/") && Segments(prefix) <= Segments(path))
            || (HasSuffix(prefix, "/") && Stem(prefix) < Segments(path))
  {
    hide Segments, Stem;
    if PathHasPrefix(path, prefix) && prefix != "/" {
      TextMatchesSegments(path, prefix);
    }
    if if HasSuffix(prefix, "/") then Stem(prefix) < Segments(path) else Segments(prefix) <= Segments(path) {
      SegmentsMatchText(path, prefix);
    }
  }

  lemma Cancel(a: seq<string>, b: seq<string>, c: seq<string>)
    ensures a + b == a + c <==> b == c
  {
    assert (a + b)[|a|..] == b && (a + c)[|a|..] == c;
  }

  lemma SegmentsAfterPrefix(path: string, prefix: string)
    requires HasPrefix(path, prefix) && PathHasPrefix(path, prefix)
    ensures var rest := TrimPrefix(path, prefix);
            SegmentsAfter(path, prefix) ==
            if HasSuffix(prefix, "/") then Segments(rest)
            else if rest == "" then []
            else Segments(rest[1..])
  {
    SlashEnding(prefix);
    var rest := TrimPrefix(path, prefix);
    if HasSuffix(prefix, "/") {
      assert path == prefix[..|prefix| - 1] + "/" + rest;
      SegmentsAppend(prefix[..|prefix| - 1], rest);
    } else if rest != "" {
      assert path == prefix + "/" + rest[1..];
      SegmentsAppend(prefix, rest[1..]);
    } else {
      assert path == prefix;
    }
  }

  function AfterSlash(rest: string): string {
    if HasPrefix(rest, "/") then rest[1..] else rest
  }

  lemma AfterSlashSegments(rest: string)
    ensures HasPrefix(rest, "/") ==> Segments(rest) == [""] + Segments(AfterSlash(rest))
    ensures |Segments(rest)| == |Segments(AfterSlash(rest))| + if HasPrefix(rest, "/") then 1 else 0
  {
    SlashEnding(rest);
    SplitWithout("", '/');
    hide Split;
    if HasPrefix(rest, "/") {
      assert rest == "" + "/" + rest[1..];
      SegmentsAppend("", rest[1..]);
    }
  }

  /** What remains of the segments is what remains of the text, in all cases but three. */
  lemma RemainingSegments(path: string, prefix: string)
    requires PathHasPrefix(path, prefix)
    ensures Segments(AfterSlash(TrimPrefix(path, prefix))) == SegmentsAfter(path, prefix)
       <==> HasPrefix(path, prefix)
            && (HasSuffix(prefix, "/") || path != prefix)
            && !(HasSuffix(prefix, "/") && HasPrefix(TrimPrefix(path, prefix), "/"))
  {
    var rest := TrimPrefix(path, prefix);
    AfterSlashSegments(rest);
    if HasPrefix(path, prefix) {
      SegmentsAfterPrefix(path, prefix);
      SlashEnding(rest);
      hide Segments, SegmentsAfter;
      assert path == prefix <==> rest == "";
    } else {
      // only "/" matches a path it does not begin
      SlashEnding(path);
      assert "/"[..0] == "";
      SplitWithout("", '/');
      assert |Stem(prefix)| == 1;
    }
  }

  /**
   Rewriting replaces exactly the prefix's segments by the base's, if and only if the prefix is
   literally there, the path is not the (slash-free) prefix itself and, for a prefix ending in a
   slash, what remains does not start with another one.
   */
  lemma RewriteReplacesSegments(path: string, prefix: string, base: string)
    requires PathHasPrefix(path, prefix)
    ensures Segments(SingleJoiningSlash(base, TrimPrefix(path, prefix)))
         == Stem(base) + SegmentsAfter(path, prefix)
       <==> HasPrefix(path, prefix)
            && (HasSuffix(prefix, "/") || path != prefix)
            && !(HasSuffix(prefix, "/") && HasPrefix(TrimPrefix(path, prefix), "/"))
  {
    hide Segments, SegmentsAfter, Stem, PathHasPrefix;
    var rest := TrimPrefix(path, prefix);
    JoiningSegments(base, rest);
    RemainingSegments(path, prefix);
    Cancel(Stem(base), Segments(AfterSlash(rest)), SegmentsAfter(path, prefix));
  }

  /** Joining puts the rest's segments, its leading slash aside, after the base's. */
  lemma JoiningSegments(base: string, rest: string)
    ensures Segments(SingleJoiningSlash(base, rest))
         == Stem(base) + Segments(AfterSlash(rest))
  {
    SlashEnding(base);
    SlashEnding(rest);
    var stem := if HasSuffix(base, "/") then base[..|base| - 1] else base;
    assert SingleJoiningSlash(base, rest) == stem + "/" + AfterSlash(rest);
    SegmentsAppend(stem, AfterSlash(rest));
  }
}
