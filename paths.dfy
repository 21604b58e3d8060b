/** POSIX `pathlib` paths as their `parts`: an absolute path starts with the part "/". */
module Paths {
  import opened Base
  import opened Text

  type Path = seq<string>

  predicate IsSlash(c: char) {
    c == '/'
  }

  /** A part of a normalised path: non-empty, not ".", no separator. */
  predicate IsComponent(part: string) {
    part != "" && part != "." && '/' !in part
  }

  /** The shape `Path(...).parts` always has: components, after an optional "/" anchor. */
  predicate WellFormed(p: Path) {
    forall i :: 0 <= i < |p| ==> IsComponent(p[i]) || (i == 0 && p[i] == "/")
  }

  /** `p.is_absolute()`: the path carries the "/" anchor. */
  predicate IsAbsolute(p: Path) {
    p != [] && p[0] == "/"
  }

  /** `str(p)`. */
  function PathStr(p: Path): string {
    if p == [] then "."
    else if p[0] == "/" then "/" + Join(p[1..], "/")
    else Join(p, "/")
  }

  /** `s.split("/")`. */
  function Segments(s: string): (segs: seq<string>)
    ensures segs != []
    ensures forall i :: 0 <= i < |segs| ==> '/' !in segs[i]
    decreases |s|
  {
    var k := UpTo(s, IsSlash);
    if |k| == |s| then [s] else [k] + Segments(s[|k| + 1..])
  }

  /** Drops the empty and "." segments, as `pathlib` does when it parses a path. */
  function Components(segs: seq<string>): (parts: seq<string>)
    requires forall i :: 0 <= i < |segs| ==> '/' !in segs[i]
    ensures forall i :: 0 <= i < |parts| ==> IsComponent(parts[i])
    ensures |parts| <= |segs|
  {
    if segs == [] then []
    else if segs[0] == "" || segs[0] == "." then Components(segs[1..])
    else [segs[0]] + Components(segs[1..])
  }

  /** `Path(s).parts`. */
  function ParsePath(s: string): (p: Path)
    ensures WellFormed(p)
  {
    (if s != [] && s[0] == '/' then ["/"] else []) + Components(Segments(s))
  }

  /** A separator-free first segment is split off whole. */
  lemma SegmentsCons(first: string, rest: string)
    requires '/' !in first
    ensures Segments(first + "/" + rest) == [first] + Segments(rest)
  {
    var s := first + "/" + rest;
    assert s == first + ("/" + rest);
    assert forall i :: 0 <= i < |first| ==> !IsSlash(first[i]);
    UpToAppend(first, "/" + rest, IsSlash);
    assert UpTo("/" + rest, IsSlash) == [];
    assert s[|first| + 1..] == rest;
  }

  /** A separator-free last segment is not split at all. */
  lemma SegmentsSingle(last: string)
    requires '/' !in last
    ensures Segments(last) == [last]
  {
    assert forall i :: 0 <= i < |last| ==> !IsSlash(last[i]);
    UpToAppend(last, "", IsSlash);
    assert last + "" == last;
  }

  /** Splitting a joined list of separator-free parts gives the parts back. */
  lemma {:induction false} SegmentsJoin(parts: seq<string>)
    requires parts != []
    requires forall i :: 0 <= i < |parts| ==> '/' !in parts[i]
    ensures Segments(Join(parts, "/")) == parts
  {
    if |parts| > 1 {
      SegmentsCons(parts[0], Join(parts[1..], "/"));
      SegmentsJoin(parts[1..]);
    } else {
      SegmentsSingle(parts[0]);
    }
  }

  lemma {:induction false} ComponentsKeepsComponents(parts: seq<string>)
    requires forall i :: 0 <= i < |parts| ==> '/' !in parts[i]
    requires forall i :: 0 <= i < |parts| ==> IsComponent(parts[i])
    ensures Components(parts) == parts
  {
    if parts != [] {
      ComponentsKeepsComponents(parts[1..]);
    }
  }

  /** An anchored path reads back as the anchor followed by its components. */
  lemma ParseAbsolute(rest: Path)
    requires forall i :: 0 <= i < |rest| ==> IsComponent(rest[i])
    ensures ParsePath("/" + Join(rest, "/")) == ["/"] + rest
  {
    var s := "/" + Join(rest, "/");
    var segs := Segments(Join(rest, "/"));
    SegmentsAnchored(Join(rest, "/"));
    assert Components([""] + segs) == Components(segs) by {
      assert ([""] + segs)[1..] == segs;
    }
    ComponentsOfJoin(rest);
    assert s[0] == '/';
  }

  /** A leading separator splits off an empty first segment. */
  lemma SegmentsAnchored(tail: string)
    ensures Segments("/" + tail) == [""] + Segments(tail)
  {
    assert UpTo("/" + tail, IsSlash) == [];
    assert ("/" + tail)[1..] == tail;
  }

  /** The components of joined components are those components. */
  lemma ComponentsOfJoin(parts: Path)
    requires forall i :: 0 <= i < |parts| ==> IsComponent(parts[i])
    ensures Components(Segments(Join(parts, "/"))) == parts
  {
    if parts == [] {
      assert UpTo("", IsSlash) == "";
    } else {
      SegmentsJoin(parts);
      ComponentsKeepsComponents(parts);
    }
  }

  /** Parsing the text of a normalised path gives back the same parts. */
  lemma ParsePathStr(p: Path)
    requires WellFormed(p)
    ensures ParsePath(PathStr(p)) == p
  {
    if p == [] {
      assert Segments(".") == ["."] by { assert UpTo(".", IsSlash) == "."; }
    } else if p[0] == "/" {
      ParseAbsolute(p[1..]);
      assert p == ["/"] + p[1..];
    } else {
      SegmentsJoin(p);
      ComponentsKeepsComponents(p);
      assert PathStr(p)[0] != '/' by {
        if |p| == 1 {
          assert PathStr(p) == p[0] && p[0][0] != '/';
        } else {
          assert PathStr(p) == p[0] + "/" + Join(p[1..], "/") && p[0][0] != '/';
        }
      }
    }
  }

  /** `p.relative_to(base)`: the parts after `base`, or ValueError when `base` does not lead to `p`.
      The empty path is relative, so an absolute `p` is never relative to it. */
  function RelativeTo(p: Path, base: Path): (r: Option<Path>)
    ensures r.Some? ==> base + r.value == p
    ensures r.None? <==> !(|base| <= |p| && p[..|base|] == base) || (base == [] && IsAbsolute(p))
  {
    if base == [] && IsAbsolute(p) then
      None
    else if |base| <= |p| && p[..|base|] == base then
      assert base + p[|base|..] == p;
      Some(p[|base|..])
    else
      None
  }
}
