/** Path policy (src/policy.ts): remote paths are normalized to absolute POSIX paths and compared with
    configured prefixes as strings. The strings stand for lists of segments, and every answer is shown
    to be the one the segment lists give. */
module PathPolicy {
  import opened Options

  type Segments = seq<string>

  const SLASH := '/'

  // ---------------------------------------------------------------------------------------------
  // Strings and segments
  // ---------------------------------------------------------------------------------------------

  /** The pieces between slashes; always at least one. */
  function Split(s: string): (r: seq<string>)
    ensures |r| > 0
  {
    if s == "" then [""]
    else
      var rest := Split(s[1..]);
      if s[0] == SLASH then [""] + rest else [[s[0]] + rest[0]] + rest[1..]
  }

  /** A slash before each segment. */
  function Path(segments: Segments): string {
    if segments == [] then ""
    else Path(segments[..|segments| - 1]) + "/" + segments[|segments| - 1]
  }

  /** The absolute path of a segment list; the empty list is the root. */
  function Render(segments: Segments): string {
    if segments == [] then "/" else Path(segments)
  }

  ghost predicate SlashFree(s: string) { forall i :: 0 <= i < |s| ==> s[i] != SLASH }

  /** A segment that names something. */
  ghost predicate CleanSegment(s: string) {
    SlashFree(s) && s != "" && s != "." && s != ".."
  }

  ghost predicate Clean(segments: Segments) {
    forall i :: 0 <= i < |segments| ==> CleanSegment(segments[i])
  }

  lemma {:induction false} SplitConcat(x: string, y: string)
    ensures Split(x + "/" + y) == Split(x) + Split(y)
  {
    if x == "" {
      assert (x + "/" + y)[1..] == y;
    } else {
      assert (x + "/" + y)[1..] == x[1..] + "/" + y;
      SplitConcat(x[1..], y);
    }
  }

  lemma {:induction false} SplitWhole(s: string)
    requires SlashFree(s)
    ensures Split(s) == [s]
  {
    if s != "" {
      SplitWhole(s[1..]);
      assert s == [s[0]] + s[1..];
    }
  }

  lemma {:induction false} PiecesAreSlashFree(s: string)
    ensures forall i :: 0 <= i < |Split(s)| ==> SlashFree(Split(s)[i])
  {
    if s != "" {
      PiecesAreSlashFree(s[1..]);
    }
  }

  /** Splitting undoes joining. */
  lemma {:induction false} SplitPath(segments: Segments)
    requires forall i :: 0 <= i < |segments| ==> SlashFree(segments[i])
    ensures Split(Path(segments)) == [""] + segments
  {
    if segments != [] {
      var front, last := segments[..|segments| - 1], segments[|segments| - 1];
      SplitPath(front);
      SplitConcat(Path(front), last);
      SplitWhole(last);
      assert segments == front + [last];
    }
  }

  lemma {:induction false} PathConcat(a: Segments, b: Segments)
    ensures Path(a + b) == Path(a) + Path(b)
  {
    if b == [] {
      assert a + b == a;
    } else {
      var front := b[..|b| - 1];
      assert (a + b)[..|a + b| - 1] == a + front;
      PathConcat(a, front);
    }
  }

  lemma {:induction false} PathStartsWithSlash(segments: Segments)
    requires segments != []
    ensures Path(segments) != "" && Path(segments)[0] == SLASH
  {
    if |segments| > 1 {
      PathStartsWithSlash(segments[..|segments| - 1]);
    }
  }

  // ---------------------------------------------------------------------------------------------
  // Prefix tests
  // ---------------------------------------------------------------------------------------------

  predicate SegmentBoundaryMatch(candidate: string, prefix: string) {
    candidate == prefix || prefix + "/" <= candidate
  }

  predicate PathUnder(path: string, prefix: string) {
    prefix == "/" || SegmentBoundaryMatch(path, prefix)
  }

  lemma StringPrefixGivesSegments(a: Segments, b: Segments)
    requires Clean(a) && Clean(b) && Path(b) + "/" <= Path(a)
    ensures b <= a
  {
    SplitPath(a);
    SplitPath(b);
    hide Split, Path, Clean;
    var x, y := Path(a), Path(b);
    var rest := x[|y| + 1..];
    assert x == y + "/" + rest;
    SplitConcat(y, rest);
    TailPrefix(a, b, Split(rest));
  }

  lemma TailPrefix(a: Segments, b: Segments, c: Segments)
    requires [""] + a == [""] + b + c
    ensures b <= a
  {
    assert a == ([""] + a)[1..] == b + c;
  }

  lemma SegmentsGiveStringPrefix(a: Segments, b: Segments)
    requires b <= a && b != a
    ensures Path(b) + "/" <= Path(a)
  {
    var rest := a[|b|..];
    assert a == b + rest;
    PathConcat(b, rest);
    PathStartsWithSlash(rest);
  }

  lemma PathInjective(a: Segments, b: Segments)
    requires Clean(a) && Clean(b) && Path(a) == Path(b)
    ensures a == b
  {
    SplitPath(a);
    SplitPath(b);
    assert a == ([""] + a)[1..] && b == ([""] + b)[1..];
  }

  lemma RenderRoot(b: Segments)
    requires Clean(b)
    ensures Render(b) == "/" <==> b == []
  {
    if b != [] {
      PathConcat([b[0]], b[1..]);
      assert b == [b[0]] + b[1..];
      assert Path([b[0]]) == "/" + b[0];
    }
  }

  /** On normalized paths the string test is the segment-list prefix test. */
  lemma UnderIsSegmentPrefix(a: Segments, b: Segments)
    requires Clean(a) && Clean(b)
    ensures PathUnder(Render(a), Render(b)) <==> b <= a
  {
    RenderRoot(a);
    RenderRoot(b);
    if b != [] {
      PathStartsWithSlash(b);
      if a != [] && Path(a) == Path(b) {
        PathInjective(a, b);
      } else if a != [] && Path(b) + "/" <= Path(a) {
        StringPrefixGivesSegments(a, b);
      }
      if b <= a && b != a {
        SegmentsGiveStringPrefix(a, b);
      }
    }
  }

  // ---------------------------------------------------------------------------------------------
  // Normalization
  // ---------------------------------------------------------------------------------------------

  /** Dropping empty and `.` pieces and letting `..` take back the piece before it. */
  function Resolve(pieces: seq<string>): Segments {
    if pieces == [] then []
    else
      var before, last := Resolve(pieces[..|pieces| - 1]), pieces[|pieces| - 1];
      if last == "" || last == "." then before
      else if last == ".." then (if before == [] then [] else before[..|before| - 1])
      else before + [last]
  }

  function UnixSeparators(s: string): (r: string)
    ensures |r| == |s|
    ensures forall i :: 0 <= i < |s| ==> r[i] == if s[i] == '\\' then SLASH else s[i]
  {
    seq(|s|, i requires 0 <= i < |s| => if s[i] == '\\' then SLASH else s[i])
  }

  function Absolute(s: string): (r: string)
    ensures |r| > 0 && r[0] == SLASH
  {
    if |s| > 0 && s[0] == SLASH then s else "/" + s
  }

  /** What a path string means. */
  function SegmentsOf(s: string): Segments {
    Resolve(Split(Absolute(UnixSeparators(s))))
  }

  /** `posix.normalize` of an absolute path: a trailing slash survives. */
  function PosixNormalized(s: string): string
    requires |s| > 0 && s[0] == SLASH
  {
    var segments := Resolve(Split(s));
    Render(segments) + if segments != [] && s[|s| - 1] == SLASH then "/" else ""
  }

  function Stripped(s: string, separator: char, root: nat): string {
    if |s| > root && s[|s| - 1] == separator then Stripped(s[..|s| - 1], separator, root) else s
  }

  method StripTrailingSeparators(value: string, separator: char, root: string) returns (stripped: string)
    ensures stripped == Stripped(value, separator, |root|)
    ensures |stripped| <= |value| && stripped == value[..|stripped|]
    ensures |stripped| > |root| ==> stripped[|stripped| - 1] != separator
    ensures forall i :: |stripped| <= i < |value| ==> value[i] == separator
    ensures |stripped| >= |root| || stripped == value
  {
    stripped := value;
    while |stripped| > |root| && stripped[|stripped| - 1] == separator
      invariant |stripped| <= |value| && stripped == value[..|stripped|]
      invariant forall i :: |stripped| <= i < |value| ==> value[i] == separator
      invariant |stripped| >= |root| || stripped == value
      invariant Stripped(stripped, separator, |root|) == Stripped(value, separator, |root|)
    {
      stripped := stripped[..|stripped| - 1];
    }
  }

  predicate HasNul(s: string) { exists i :: 0 <= i < |s| && s[i] == 0 as char }

  /** `normalizeRemotePosixPath`; a NUL byte is an error. */
  function Normalize(s: string): Option<string> {
    if HasNul(s) then None
    else Some(Stripped(PosixNormalized(Absolute(UnixSeparators(s))), SLASH, 1))
  }

  lemma {:induction false} ResolveClean(pieces: seq<string>)
    requires forall i :: 0 <= i < |pieces| ==> SlashFree(pieces[i])
    ensures Clean(Resolve(pieces))
  {
    if pieces != [] {
      ResolveClean(pieces[..|pieces| - 1]);
    }
  }

  lemma {:induction false} ResolveOfClean(segments: Segments)
    requires Clean(segments)
    ensures Resolve([""] + segments) == segments
  {
    var pieces := [""] + segments;
    if segments == [] {
      assert pieces[..0] == [];
    } else {
      var front := segments[..|segments| - 1];
      assert pieces[..|pieces| - 1] == [""] + front;
      ResolveOfClean(front);
      assert segments == front + [segments[|segments| - 1]];
    }
  }

  lemma SegmentsAreClean(s: string)
    ensures Clean(SegmentsOf(s))
  {
    PiecesAreSlashFree(Absolute(UnixSeparators(s)));
    ResolveClean(Split(Absolute(UnixSeparators(s))));
  }

  lemma LastOfPath(segments: Segments)
    requires Clean(segments) && segments != []
    ensures |Path(segments)| > 1 && Path(segments)[|Path(segments)| - 1] != SLASH
  {
    var last := segments[|segments| - 1];
    assert CleanSegment(last);
    assert Path(segments)[|Path(segments)| - 1] == last[|last| - 1];
  }

  /** A normalized path is the rendering of clean segments: no empty, `.` or `..` segment is left. */
  lemma NormalizeMeaning(s: string)
    ensures Normalize(s) == if HasNul(s) then None else Some(Render(SegmentsOf(s)))
    ensures Clean(SegmentsOf(s))
  {
    SegmentsAreClean(s);
    var segments := SegmentsOf(s);
    if segments != [] {
      LastOfPath(segments);
      var path := Path(segments);
      assert Stripped(path, SLASH, 1) == path;
      assert (path + "/")[..|path|] == path;
      assert Stripped(path + "/", SLASH, 1) == path;
      assert path + "" == path;
    } else {
      assert "/" + "" == "/";
    }
  }

  lemma {:induction false} NoNulInPath(segments: Segments)
    requires forall i :: 0 <= i < |segments| ==> Plain(segments[i])
    ensures Plain(Path(segments))
  {
    if segments != [] {
      NoNulInPath(segments[..|segments| - 1]);
    }
  }

  /** No NUL and no backslash. */
  ghost predicate Plain(s: string) {
    forall i :: 0 <= i < |s| ==> s[i] != 0 as char && s[i] != '\\'
  }

  lemma {:induction false} PiecesArePlain(s: string)
    requires Plain(s)
    ensures forall i :: 0 <= i < |Split(s)| ==> Plain(Split(s)[i])
  {
    if s != "" {
      PiecesArePlain(s[1..]);
    }
  }

  lemma {:induction false} ResolvePlain(pieces: seq<string>)
    requires forall i :: 0 <= i < |pieces| ==> Plain(pieces[i])
    ensures forall i :: 0 <= i < |Resolve(pieces)| ==> Plain(Resolve(pieces)[i])
  {
    if pieces != [] {
      ResolvePlain(pieces[..|pieces| - 1]);
    }
  }

  /** A rendered clean list reads back as itself. */
  lemma SegmentsOfRender(segments: Segments)
    requires Clean(segments) && forall i :: 0 <= i < |segments| ==> Plain(segments[i])
    ensures SegmentsOf(Render(segments)) == segments && !HasNul(Render(segments))
  {
    var s := Render(segments);
    NoNulInPath(segments);
    assert UnixSeparators(s) == s;
    if segments == [] {
      assert Split("/") == [""] + Split("");
      assert Resolve([""] + [""]) == [] by {
        assert ([""] + [""])[..1] == [""];
        assert [""][..0] == [];
      }
    } else {
      PathStartsWithSlash(segments);
      SplitPath(segments);
      ResolveOfClean(segments);
    }
  }

  lemma SegmentsArePlain(s: string)
    requires !HasNul(s)
    ensures forall i :: 0 <= i < |SegmentsOf(s)| ==> Plain(SegmentsOf(s)[i])
  {
    var t := Absolute(UnixSeparators(s));
    assert Plain(t);
    PiecesArePlain(t);
    ResolvePlain(Split(t));
  }

  /** Normalizing twice changes nothing. */
  lemma NormalizeIdempotent(s: string)
    requires Normalize(s).Some?
    ensures Normalize(Normalize(s).value) == Normalize(s)
  {
    NormalizeMeaning(s);
    SegmentsArePlain(s);
    SegmentsOfRender(SegmentsOf(s));
    NormalizeMeaning(Normalize(s).value);
  }

  // ---------------------------------------------------------------------------------------------
  // What `..`, `.` and empty pieces mean
  // ---------------------------------------------------------------------------------------------

  /** What comes later only sees what the pieces before it resolve to. */
  lemma {:induction false} ResolveCongruent(a: seq<string>, b: seq<string>, later: seq<string>)
    requires Resolve(a) == Resolve(b)
    ensures Resolve(a + later) == Resolve(b + later)
  {
    if later == [] {
      assert a + later == a && b + later == b;
    } else {
      var front := later[..|later| - 1];
      assert (a + later)[..|a + later| - 1] == a + front && (b + later)[..|b + later| - 1] == b + front;
      ResolveCongruent(a, b, front);
    }
  }

  lemma ResolveOneMore(pieces: seq<string>, last: string)
    ensures Resolve(pieces + [last]) ==
              if last == "" || last == "." then Resolve(pieces)
              else if last == ".." then (if Resolve(pieces) == [] then [] else Resolve(pieces)[..|Resolve(pieces)| - 1])
              else Resolve(pieces) + [last]
  {
    assert (pieces + [last])[..|pieces|] == pieces;
  }

  lemma DotDotCancelsLast(a: seq<string>, x: string)
    requires CleanSegment(x)
    ensures Resolve(a + [x, ".."]) == Resolve(a)
  {
    ResolveOneMore(a, x);
    ResolveOneMore(a + [x], "..");
    assert a + [x] + [".."] == a + [x, ".."];
  }

  /** A segment and the `..` after it cancel, wherever they stand. */
  lemma DotDotCancels(a: seq<string>, x: string, b: seq<string>)
    requires CleanSegment(x)
    ensures Resolve(a + [x, ".."] + b) == Resolve(a + b)
  {
    DotDotCancelsLast(a, x);
    hide Resolve;
    ResolveCongruent(a + [x, ".."], a, b);
  }

  /** At the root, `..` stays there. */
  lemma DotDotAtRoot(a: seq<string>, b: seq<string>)
    requires Resolve(a) == []
    ensures Resolve(a + [".."] + b) == Resolve(a + b)
  {
    ResolveOneMore(a, "..");
    hide Resolve;
    ResolveCongruent(a + [".."], a, b);
  }

  /** `.` and the empty piece mean nothing. */
  lemma DotMeansNothing(a: seq<string>, x: string, b: seq<string>)
    requires x == "." || x == ""
    ensures Resolve(a + [x] + b) == Resolve(a + b)
  {
    ResolveOneMore(a, x);
    hide Resolve;
    ResolveCongruent(a + [x], a, b);
  }

  lemma CleanResolvesToItself(segments: Segments)
    requires Clean(segments)
    ensures Resolve(segments) == segments
  {
    ResolveOfClean(segments);
    DotMeansNothing([], "", segments);
    assert [] + [""] + segments == [""] + segments && [] + segments == segments;
  }

  /** These laws leave no choice: whatever obeys them resolves every list as `Resolve` does. */
  lemma {:induction false} LawsDetermineResolve(F: seq<string> -> Segments, pieces: seq<string>)
    requires forall a, x, b :: CleanSegment(x) ==> F(a + [x, ".."] + b) == F(a + b)
    requires forall b :: F([".."] + b) == F(b)
    requires forall a, x, b :: x == "." || x == "" ==> F(a + [x] + b) == F(a + b)
    requires forall segments :: Clean(segments) ==> F(segments) == segments
    requires forall i :: 0 <= i < |pieces| ==> SlashFree(pieces[i])
    ensures F(pieces) == Resolve(pieces)
  {
    Reduces(F, pieces, []);
    ResolveClean(pieces);
    assert pieces + [] == pieces && Resolve(pieces) + [] == Resolve(pieces);
  }

  lemma {:induction false} Reduces(F: seq<string> -> Segments, pieces: seq<string>, later: seq<string>)
    requires forall a, x, b :: CleanSegment(x) ==> F(a + [x, ".."] + b) == F(a + b)
    requires forall b :: F([".."] + b) == F(b)
    requires forall a, x, b :: x == "." || x == "" ==> F(a + [x] + b) == F(a + b)
    requires forall i :: 0 <= i < |pieces| ==> SlashFree(pieces[i])
    ensures F(pieces + later) == F(Resolve(pieces) + later)
  {
    if pieces != [] {
      var front, last := pieces[..|pieces| - 1], pieces[|pieces| - 1];
      var r := Resolve(front);
      ResolveClean(front);
      assert pieces + later == front + ([last] + later);
      Reduces(F, front, [last] + later);
      assert r + ([last] + later) == r + [last] + later;
      if last == ".." {
        if r == [] {
          assert r + [last] + later == [".."] + later && r + later == later;
        } else {
          var shorter := r[..|r| - 1];
          assert r + [last] + later == shorter + [r[|r| - 1], ".."] + later;
        }
      }
    }
  }

  // ---------------------------------------------------------------------------------------------
  // The same on strings
  // ---------------------------------------------------------------------------------------------

  /** Nothing, or a further path. */
  ghost predicate Further(rest: string) { rest == "" || rest[0] == SLASH || rest[0] == '\\' }

  lemma UnixConcat(a: string, b: string)
    ensures UnixSeparators(a + b) == UnixSeparators(a) + UnixSeparators(b)
  {
  }

  /** The pieces of a path that goes on, and of what goes on behind it. */
  ghost function Before(p: string): seq<string> { if p == "" then [""] else Split(Absolute(UnixSeparators(p))) }

  ghost function More(rest: string): seq<string> { if rest == "" then [] else Split(UnixSeparators(rest)[1..]) }

  lemma PiecesBehind(p: string, rest: string)
    requires Further(rest) && rest != ""
    ensures Split(Absolute(UnixSeparators(p + rest))) == Before(p) + More(rest)
  {
    UnixConcat(p, rest);
    var u, r := UnixSeparators(p), UnixSeparators(rest);
    assert r == "/" + r[1..];
    hide UnixSeparators, Split;
    if p == "" {
      assert p + rest == rest && "" + "/" + r[1..] == r && Absolute(r) == r;
      SplitConcat("", r[1..]);
      EmptySplit();
    } else {
      assert u + r == u + "/" + r[1..] && Absolute(u + r) == Absolute(u) + "/" + r[1..];
      SplitConcat(Absolute(u), r[1..]);
    }
  }

  lemma EmptySplit()
    ensures Split("") == [""] && Split("/") == ["", ""]
  {
    assert Split("/") == [""] + Split("");
  }

  lemma SegmentsBehind(p: string, rest: string)
    requires Further(rest)
    ensures SegmentsOf(p + rest) == Resolve(Before(p) + More(rest))
  {
    if rest != "" {
      PiecesBehind(p, rest);
      hide Before, More, Resolve, Split, Absolute, UnixSeparators;
    } else {
      assert p + rest == p && Before(p) + More(rest) == Before(p);
      EmptySplit();
      DotMeansNothing([""], "", []);
      assert [""] + [""] + [] == ["", ""] && [""] + [] == [""];
      assert p == "" ==> Absolute(UnixSeparators(p)) == "/";
      hide Resolve, Split, Absolute, UnixSeparators;
    }
  }

  /** A path without what marks its start. */
  lemma PathPieces(middle: Segments)
    requires middle != [] && forall i :: 0 <= i < |middle| ==> SlashFree(middle[i])
    ensures Path(middle) != "" && Path(middle)[0] == SLASH && Split(Path(middle)[1..]) == middle
  {
    PathStartsWithSlash(middle);
    SplitPath(middle);
    hide Path, Split;
    SplitAfterSlash(Path(middle), middle);
  }

  lemma SplitAfterSlash(m: string, pieces: seq<string>)
    requires m != "" && m[0] == SLASH && Split(m) == [""] + pieces
    ensures Split(m[1..]) == pieces
  {
    SlashFirst(m);
    SplitConcat("", m[1..]);
    EmptySplit();
    hide Split;
    SameTail(Split(m[1..]), pieces);
  }

  lemma SlashFirst(m: string)
    requires m != "" && m[0] == SLASH
    ensures "" + "/" + m[1..] == m
  {
  }

  lemma SameTail(x: seq<string>, y: seq<string>)
    requires [""] + x == [""] + y
    ensures x == y
  {
    assert ([""] + x)[1..] == x && ([""] + y)[1..] == y;
  }

  lemma UnixPlain(m: string)
    requires Plain(m)
    ensures UnixSeparators(m) == m
  {
  }

  /** What stands behind a slash, when more stands behind it. */
  lemma BehindSlash(m: string, rest: string)
    requires m != "" && m[0] == SLASH && Plain(m) && Further(rest)
    ensures Further(m + rest)
    ensures UnixSeparators(m + rest)[1..] == if rest == "" then m[1..] else m[1..] + "/" + UnixSeparators(rest)[1..]
  {
    UnixConcat(m, rest);
    UnixPlain(m);
    var r := UnixSeparators(rest);
    assert (m + r)[1..] == m[1..] + r;
    assert rest != "" ==> r[0] == SLASH;
    hide UnixSeparators;
    assert rest != "" ==> m[1..] + r == m[1..] + "/" + r[1..];
  }

  lemma MoreOfPath(middle: Segments, rest: string)
    requires Further(rest) && middle != []
    requires forall i :: 0 <= i < |middle| ==> SlashFree(middle[i]) && Plain(middle[i])
    ensures Further(Path(middle) + rest) && More(Path(middle) + rest) == middle + More(rest)
  {
    PathPieces(middle);
    NoNulInPath(middle);
    BehindSlash(Path(middle), rest);
    var m := Path(middle);
    hide Path, Split, UnixSeparators, Further, Plain, SlashFree;
    if rest == "" {
      assert middle + [] == middle;
    } else {
      SplitConcat(m[1..], UnixSeparators(rest)[1..]);
    }
    assert m + rest != "";
  }

  lemma Associate(p: string, m: string, rest: string)
    ensures p + m + rest == p + (m + rest)
  {
  }

  lemma AssociatePieces(a: seq<string>, m: seq<string>, b: seq<string>)
    ensures a + (m + b) == a + m + b
  {
  }

  lemma MiddleSegments(p: string, middle: Segments, rest: string)
    requires Further(rest) && middle != []
    requires forall i :: 0 <= i < |middle| ==> SlashFree(middle[i]) && Plain(middle[i])
    requires Resolve(Before(p) + middle) == Resolve(Before(p))
    ensures SegmentsOf(p + Path(middle) + rest) == SegmentsOf(p + rest)
  {
    MoreOfPath(middle, rest);
    hide *;
    Associate(p, Path(middle), rest);
    SegmentsBehind(p, Path(middle) + rest);
    SegmentsBehind(p, rest);
    AssociatePieces(Before(p), middle, More(rest));
    ResolveCongruent(Before(p) + middle, Before(p), More(rest));
  }

  /** If a path in the middle means nothing where it stands, it can be left out. */
  lemma MiddleDrops(p: string, middle: Segments, rest: string)
    requires Further(rest) && middle != []
    requires forall i :: 0 <= i < |middle| ==> SlashFree(middle[i]) && Plain(middle[i])
    requires Resolve(Before(p) + middle) == Resolve(Before(p))
    ensures Normalize(p + Path(middle) + rest) == Normalize(p + rest)
  {
    MiddleSegments(p, middle, rest);
    NulsDrop(p, middle, rest);
    hide *;
    NormalizeMeaning(p + Path(middle) + rest);
    NormalizeMeaning(p + rest);
  }

  lemma NulsDrop(p: string, middle: Segments, rest: string)
    requires forall i :: 0 <= i < |middle| ==> Plain(middle[i])
    ensures HasNul(p + Path(middle) + rest) <==> HasNul(p + rest)
  {
    NoNulInPath(middle);
    var m := Path(middle);
    hide Path;
    NulsOf(p + m, rest);
    NulsOf(p, m);
    NulsOf(p, rest);
  }

  lemma NulsOf(a: string, b: string)
    ensures HasNul(a + b) <==> HasNul(a) || HasNul(b)
  {
    assert forall i :: 0 <= i < |a| ==> (a + b)[i] == a[i];
    assert forall i :: 0 <= i < |b| ==> (a + b)[|a| + i] == b[i];
  }

  lemma TwoPieces(x: string, y: string)
    ensures Path([x]) == "/" + x && Path([x, y]) == "/" + x + "/" + y
  {
    assert [x][..0] == [] && [x, y][..1] == [x];
  }

  lemma DotsArePlain()
    ensures SlashFree("..") && Plain("..") && SlashFree(".") && Plain(".") && SlashFree("") && Plain("")
  {
  }

  lemma RegroupTwo(p: string, x: string, rest: string)
    ensures p + "/" + x + "/.." + rest == p + ("/" + x + "/" + "..") + rest
  {
    assert "/" + ".." == "/..";
    assert p + "/" + x + "/.." == p + ("/" + x + "/" + "..");
  }

  lemma RegroupOne(p: string, x: string, rest: string)
    ensures p + "/" + x + rest == p + ("/" + x) + rest
  {
    assert p + "/" + x == p + ("/" + x);
  }

  /** Going into a directory and out again changes nothing: `p/x/..` is `p`, whatever follows. */
  lemma UpUndoesDown(p: string, x: string, rest: string)
    requires CleanSegment(x) && Plain(x) && Further(rest)
    ensures Normalize(p + "/" + x + "/.." + rest) == Normalize(p + rest)
  {
    DotsArePlain();
    assert SlashFree(x);
    hide *;
    DotDotCancelsLast(Before(p), x);
    TwoPieces(x, "..");
    MiddleDrops(p, [x, ".."], rest);
    RegroupTwo(p, x, rest);
  }

  lemma RootStays()
    ensures Resolve(Before("") + [".."]) == Resolve(Before(""))
  {
    ResolveOneMore([], "");
    ResolveOneMore([""], "..");
    assert [] + [""] == [""];
  }

  /** There is nothing above the root: `/..` is the root, whatever follows. */
  lemma UpAtRoot(rest: string)
    requires Further(rest)
    ensures Normalize("/.." + rest) == Normalize(rest)
  {
    DotsArePlain();
    RootStays();
    hide *;
    TwoPieces("..", "");
    MiddleDrops("", [".."], rest);
    AtTheStart(rest);
  }

  lemma AtTheStart(rest: string)
    ensures "" + ("/" + "..") + rest == "/.." + rest && "" + rest == rest
  {
    assert "/" + ".." == "/..";
  }

  /** `/.` and a doubled slash change nothing. */
  lemma HereAndDoubledSlash(p: string, x: string, rest: string)
    requires (x == "." || x == "") && Further(rest)
    ensures Normalize(p + "/" + x + rest) == Normalize(p + rest)
  {
    DotsArePlain();
    ResolveOneMore(Before(p), x);
    hide *;
    TwoPieces(x, "");
    MiddleDrops(p, [x], rest);
    RegroupOne(p, x, rest);
  }

  lemma HomeEtc()
    ensures "" + "/" + "home" + "/.." + "/etc" == "/home/../etc" && "" + "/etc" == "/etc"
  {
  }

  /** Climbing out of an allowed prefix leaves it. */
  lemma ClimbingOut()
    ensures Normalize("/home/../etc") == Some("/etc")
  {
    assert CleanSegment("home") && Plain("home") && Further("/etc");
    hide *;
    UpUndoesDown("", "home", "/etc");
    HomeEtc();
    EtcIsNormal();
  }

  lemma EtcIsNormal()
    ensures Normalize("/etc") == Some("/etc")
  {
    var segments: Segments := ["etc"];
    TwoPieces("etc", "");
    assert Clean(segments) && Plain(segments[0]);
    assert Render(segments) == "/" + "etc" == "/etc";
    SegmentsOfRender(segments);
    NormalizeMeaning("/etc");
  }

  // ---------------------------------------------------------------------------------------------
  // The check
  // ---------------------------------------------------------------------------------------------

  /** What destructive operations may touch when no allow list is configured. */
  const DEFAULT_ALLOWED: seq<string> := ["/tmp", "/var/tmp", "/home", "/Users"]

  /** The configured prefixes as written. */
  datatype Config = Config(allow: seq<string>, deny: seq<string>, allowDestructiveFs: bool)

  /** The engine keeps them normalized. */
  datatype Engine = Engine(allow: seq<string>, deny: seq<string>, defaults: seq<string>, allowDestructiveFs: bool)

  datatype Decision = Allowed | NulByte(index: nat) | UnderDenied(index: nat) | OutsideAllowed(index: nat)

  ghost predicate NormalizedFrom(normalized: seq<string>, written: seq<string>) {
    && |normalized| == |written|
    && forall i :: 0 <= i < |written| ==> Normalize(written[i]) == Some(normalized[i])
  }

  ghost predicate Built(e: Engine, c: Config) {
    && NormalizedFrom(e.allow, c.allow) && NormalizedFrom(e.deny, c.deny)
    && NormalizedFrom(e.defaults, DEFAULT_ALLOWED) && e.allowDestructiveFs == c.allowDestructiveFs
  }

  ghost predicate AnyNul(written: seq<string>) {
    exists i :: 0 <= i < |written| && HasNul(written[i])
  }

  lemma DefaultsHaveNoNul()
    ensures !AnyNul(DEFAULT_ALLOWED)
  {
    assert !HasNul("/tmp") && !HasNul("/var/tmp") && !HasNul("/home") && !HasNul("/Users");
  }

  method NormalizeAll(written: seq<string>) returns (r: Option<seq<string>>)
    ensures r.Some? ==> NormalizedFrom(r.value, written)
    ensures r.None? <==> AnyNul(written)
  {
    hide Stripped, PosixNormalized, Absolute, UnixSeparators, HasNul;
    var normalized: seq<string> := [];
    for i := 0 to |written|
      invariant NormalizedFrom(normalized, written[..i])
      invariant forall j :: 0 <= j < i ==> !HasNul(written[j])
    {
      var n := Normalize(written[i]);
      if n.None? {
        return None;
      }
      normalized := normalized + [n.value];
    }
    assert written[..|written|] == written;
    r := Some(normalized);
  }

  /** The constructor of `PolicyEngine`; it throws on a prefix with a NUL byte. */
  method BuildEngine(c: Config) returns (e: Option<Engine>)
    ensures e.Some? ==> Built(e.value, c)
    ensures e.None? <==> AnyNul(c.allow) || AnyNul(c.deny)
  {
    DefaultsHaveNoNul();
    hide AnyNul, NormalizedFrom;
    var allow := NormalizeAll(c.allow);
    var deny := NormalizeAll(c.deny);
    var defaults := NormalizeAll(DEFAULT_ALLOWED);
    if allow.None? || deny.None? || defaults.None? {
      return None;
    }
    e := Some(Engine(allow.value, deny.value, defaults.value, c.allowDestructiveFs));
  }

  /** `path` lies at or below `prefix`, as lists of segments. */
  ghost predicate Below(path: string, prefix: string) { SegmentsOf(prefix) <= SegmentsOf(path) }

  ghost predicate UnderSome(path: string, prefixes: seq<string>) {
    exists i :: 0 <= i < |prefixes| && Below(path, prefixes[i])
  }

  ghost function AllowList(c: Config): seq<string> { if |c.allow| > 0 then c.allow else DEFAULT_ALLOWED }

  /** What the policy says about one path. */
  ghost predicate Permitted(c: Config, destructive: bool, path: string) {
    && !HasNul(path)
    && !UnderSome(path, c.deny)
    && (destructive && !c.allowDestructiveFs ==> UnderSome(path, AllowList(c)))
  }

  /** Why a path is refused: the first reason in the order the checks are made. */
  ghost function Refusal(c: Config, path: string, i: nat): Decision {
    if HasNul(path) then NulByte(i)
    else if UnderSome(path, c.deny) then UnderDenied(i)
    else OutsideAllowed(i)
  }

  lemma UnderAgrees(path: string, normalized: string, prefixes: seq<string>, written: seq<string>, i: nat)
    requires Normalize(path) == Some(normalized) && NormalizedFrom(prefixes, written) && i < |written|
    ensures PathUnder(normalized, prefixes[i]) <==> Below(path, written[i])
  {
    NormalizeMeaning(path);
    NormalizeMeaning(written[i]);
    UnderIsSegmentPrefix(SegmentsOf(path), SegmentsOf(written[i]));
  }

  predicate AnyPrefix(normalized: string, prefixes: seq<string>) {
    exists i :: 0 <= i < |prefixes| && PathUnder(normalized, prefixes[i])
  }

  lemma AnyPrefixAgrees(path: string, normalized: string, prefixes: seq<string>, written: seq<string>)
    requires Normalize(path) == Some(normalized) && NormalizedFrom(prefixes, written)
    ensures AnyPrefix(normalized, prefixes) <==> UnderSome(path, written)
  {
    assert |prefixes| == |written|;
    forall i | 0 <= i < |written| ensures PathUnder(normalized, prefixes[i]) <==> Below(path, written[i]) {
      UnderAgrees(path, normalized, prefixes, written, i);
    }
    hide Below, Normalize, PathUnder, NormalizedFrom;
  }

  /** The checks made on one path, in order. */
  function Judged(e: Engine, destructive: bool, path: string, i: nat): Decision {
    var normalized := Normalize(path);
    if normalized.None? then NulByte(i)
    else if AnyPrefix(normalized.value, e.deny) then UnderDenied(i)
    else if destructive && !e.allowDestructiveFs
            && !AnyPrefix(normalized.value, if |e.allow| > 0 then e.allow else e.defaults) then OutsideAllowed(i)
    else Allowed
  }

  lemma JudgedAgrees(e: Engine, c: Config, destructive: bool, path: string, i: nat)
    requires Built(e, c)
    ensures Judged(e, destructive, path, i) == if Permitted(c, destructive, path) then Allowed else Refusal(c, path, i)
  {
    var normalized := Normalize(path);
    if normalized.Some? {
      AnyPrefixAgrees(path, normalized.value, e.deny, c.deny);
      AnyPrefixAgrees(path, normalized.value, if |e.allow| > 0 then e.allow else e.defaults, AllowList(c));
      hide AnyPrefix, UnderSome, NormalizedFrom;
    }
  }

  /** Every path is permitted, or the decision names the first that is not and why. */
  method CheckRemotePaths(e: Engine, destructive: bool, paths: seq<string>, ghost c: Config) returns (d: Decision)
    requires Built(e, c)
    ensures d == Allowed <==> forall i :: 0 <= i < |paths| ==> Permitted(c, destructive, paths[i])
    ensures d != Allowed ==>
              exists i :: 0 <= i < |paths| && !Permitted(c, destructive, paths[i])
                          && d == Refusal(c, paths[i], i)
                          && forall j :: 0 <= j < i ==> Permitted(c, destructive, paths[j])
  {
    hide Judged, Permitted, Built;
    for i := 0 to |paths|
      invariant forall j :: 0 <= j < i ==> Permitted(c, destructive, paths[j])
    {
      JudgedAgrees(e, c, destructive, paths[i], i);
      d := Judged(e, destructive, paths[i], i);
      if d != Allowed {
        return;
      }
    }
    d := Allowed;
  }

  // ---------------------------------------------------------------------------------------------
  // Local paths
  // ---------------------------------------------------------------------------------------------

  /** Climbs to the nearest existing ancestor, resolves it and puts the rest back. The file system is
      what `realpath` answers for each path. */
  method ResolveExistingPrefix(path: Segments, realpath: Segments -> Option<Segments>) returns (r: Segments)
    ensures (forall k :: 0 <= k <= |path| ==> realpath(path[..k]).None?) ==> r == path
    ensures forall k :: 0 <= k <= |path| && realpath(path[..k]).Some?
                        && (forall j :: k < j <= |path| ==> realpath(path[..j]).None?) ==>
              r == realpath(path[..k]).value + path[k..]
  {
    var pending: Segments := [];
    var candidate := path;
    assert path[..|path|] == path;
    while true
      invariant candidate + pending == path
      invariant forall j :: |candidate| < j <= |path| ==> realpath(path[..j]).None?
      decreases |candidate|
    {
      assert candidate == path[..|candidate|] && pending == path[|candidate|..];
      var resolved := realpath(candidate);
      if resolved.Some? {
        return resolved.value + pending;
      }
      if candidate == [] {
        return path;
      }
      pending := [candidate[|candidate| - 1]] + pending;
      candidate := candidate[..|candidate| - 1];
    }
  }
}
