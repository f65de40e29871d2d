/**
 * The bookkeeping structure under the topology-preserving line simplifier:
 * a line is split once into a fixed array of tagged segments, and the
 * simplifier appends the segments it keeps to a growing result list,
 * from which the simplified coordinates are extracted.
 */
module Simplify {
  import opened Geom

  datatype Option<T> = None | Some(value: T)

  /** A segment of the parent line, tagged with its position in that line. */
  datatype TaggedLineSegment = TaggedLineSegment(p0: Coord, p1: Coord, index: nat) {
    /** The same segment seen as a plain line segment. */
    function Segment(): LineSegment {
      LineSegment(p0, p1)
    }
  }

  // ---------------------------------------------------------------------
  // Specification functions
  // ---------------------------------------------------------------------

  /** The segments of a line with coordinates `pts`: segment `i` joins
      `pts[i]` to `pts[i+1]` and carries index `i`. */
  function OriginalSegments(pts: seq<Coord>): (ts: seq<TaggedLineSegment>)
    requires |pts| >= 1
    ensures |ts| == |pts| - 1
    ensures forall i :: 0 <= i < |ts| ==>
              ts[i].p0 == pts[i] && ts[i].p1 == pts[i + 1] && ts[i].index == i
  {
    seq(|pts| - 1, i requires 0 <= i < |pts| - 1 => TaggedLineSegment(pts[i], pts[i + 1], i))
  }

  /** Tagged segments with their tags dropped. */
  function Untagged(ts: seq<TaggedLineSegment>): (ss: seq<LineSegment>)
    ensures |ss| == |ts|
    ensures forall i :: 0 <= i < |ts| ==> ss[i] == ts[i].Segment()
  {
    seq(|ts|, i requires 0 <= i < |ts| => ts[i].Segment())
  }

  /** The chain of segments through the coordinates `pts`, in order. */
  function Chain(pts: seq<Coord>): (ss: seq<LineSegment>)
    requires |pts| >= 1
    ensures |ss| == |pts| - 1
    ensures forall i :: 0 <= i < |ss| ==> ss[i] == LineSegment(pts[i], pts[i + 1])
  {
    seq(|pts| - 1, i requires 0 <= i < |pts| - 1 => LineSegment(pts[i], pts[i + 1]))
  }

  /** The vertices a non-empty segment list stands for: the start of every
      segment, in order, followed by the end of the last one. */
  function Vertices(segs: seq<LineSegment>): (pts: seq<Coord>)
    requires segs != []
    ensures |pts| == |segs| + 1
    ensures forall i :: 0 <= i < |segs| ==> pts[i] == segs[i].p0
    ensures pts[|segs|] == segs[|segs| - 1].p1
    decreases |segs|
  {
    if |segs| == 1 then [segs[0].p0, segs[0].p1]
    else
      var rest := Vertices(segs[1..]);
      assert forall i :: 1 <= i < |segs| ==> ([segs[0].p0] + rest)[i] == segs[1..][i - 1].p0;
      [segs[0].p0] + rest
  }

  /** Every segment starts where the previous one ends. */
  ghost predicate Connected(segs: seq<LineSegment>) {
    forall k :: 0 < k < |segs| ==> segs[k - 1].p1 == segs[k].p0
  }

  /** A coordinate list whose first and last coordinates coincide. */
  ghost predicate Closed(pts: seq<Coord>) {
    |pts| >= 2 && pts[0] == pts[|pts| - 1]
  }

  /** The result list after the ring endpoint is merged away: the first
      segment now starts where the last one started, and the last one is
      dropped. With a single segment nothing is rewritten and the list
      becomes empty. */
  function RingEndpointRemoved(rs: seq<LineSegment>): (r: seq<LineSegment>)
    requires rs != []
    ensures |r| == |rs| - 1
    ensures |rs| >= 2 ==> r[0] == LineSegment(rs[|rs| - 1].p0, rs[0].p1)
    ensures forall k :: 1 <= k < |r| ==> r[k] == rs[k]
  {
    if |rs| == 1 then []
    else [rs[0].(p0 := rs[|rs| - 1].p0)] + rs[1..|rs| - 1]
  }

  // ---------------------------------------------------------------------
  // Lemmas about the specification functions
  // ---------------------------------------------------------------------

  /** Extracting the chain through `pts` gives back `pts`, and the chain is connected. */
  lemma {:induction false} ChainRoundTrip(pts: seq<Coord>)
    requires |pts| >= 2
    ensures Connected(Chain(pts))
    ensures Vertices(Chain(pts)) == pts
  {
    var c := Chain(pts);
    var v := Vertices(c);
    forall i | 0 <= i < |pts| ensures v[i] == pts[i] {
      if i < |c| {
        assert v[i] == c[i].p0;
      } else {
        assert v[i] == c[i - 1].p1;
      }
    }
  }

  /** A non-empty segment list is connected exactly when it is the chain
      through its own vertices. */
  lemma {:induction false} ConnectedIffChain(segs: seq<LineSegment>)
    requires segs != []
    ensures Connected(segs) <==> Chain(Vertices(segs)) == segs
  {
    var v := Vertices(segs);
    var c := Chain(v);
    if Connected(segs) {
      forall k | 0 <= k < |segs| ensures c[k] == segs[k] {
        if k + 1 < |segs| {
          assert segs[k].p1 == segs[k + 1].p0;
        }
      }
    }
    if c == segs {
      forall k | 0 < k < |segs| ensures segs[k - 1].p1 == segs[k].p0 {
        assert c[k - 1] == LineSegment(v[k - 1], v[k]);
      }
    }
  }

  /** Appending a segment that starts where the result ends keeps the
      result connected and adds exactly its end as one new vertex. */
  lemma {:induction false} AppendConnected(segs: seq<LineSegment>, s: LineSegment)
    requires segs != [] && Connected(segs)
    requires segs[|segs| - 1].p1 == s.p0
    ensures Connected(segs + [s])
    ensures Vertices(segs + [s]) == Vertices(segs) + [s.p1]
  {
    var t := segs + [s];
    forall k | 0 < k < |t| ensures t[k - 1].p1 == t[k].p0 {
      if k < |segs| {
        assert t[k - 1] == segs[k - 1] && t[k] == segs[k];
      }
    }
    var v := Vertices(t);
    var w := Vertices(segs) + [s.p1];
    forall i | 0 <= i < |v| ensures v[i] == w[i] {
      if i < |segs| {
        assert t[i] == segs[i];
      } else if i == |segs| {
        assert v[i] == s.p0;
      }
    }
  }

  /** Merging the ring endpoint of a connected list of at least two
      segments yields a connected list whose vertices are the old ones with
      the first vertex replaced by the last segment's start and the last
      vertex dropped; in particular the result is a closed ring. */
  lemma {:induction false} RingEndpointRemovedCloses(rs: seq<LineSegment>)
    requires |rs| >= 2 && Connected(rs)
    ensures Connected(RingEndpointRemoved(rs))
    ensures Vertices(RingEndpointRemoved(rs)) == [Vertices(rs)[|rs| - 1]] + Vertices(rs)[1..|rs|]
    ensures Closed(Vertices(RingEndpointRemoved(rs)))
  {
    var n := |rs|;
    var r := RingEndpointRemoved(rs);
    var v := Vertices(rs);
    forall k | 0 < k < |r| ensures r[k - 1].p1 == r[k].p0 {
      assert rs[k - 1].p1 == rs[k].p0;
    }
    var w := Vertices(r);
    var u := [v[n - 1]] + v[1..n];
    forall i | 0 <= i < n ensures w[i] == u[i] {
      if i == 0 {
      } else if i < n - 1 {
        assert w[i] == r[i].p0 == rs[i].p0;
      } else {
        assert rs[n - 2].p1 == rs[n - 1].p0;
        if n > 2 {
          assert w[i] == r[n - 2].p1 == rs[n - 2].p1;
        } else {
          assert w[i] == r[0].p1 == rs[0].p1;
        }
      }
    }
  }

  /** Merging the endpoint of the three-segment ring (a,b),(c,d),(e,a)
      leaves two segments, the first now starting at e. */
  lemma RingRepairExample(a: Coord, b: Coord, c: Coord, d: Coord, e: Coord)
    ensures RingEndpointRemoved([LineSegment(a, b), LineSegment(c, d), LineSegment(e, a)])
            == [LineSegment(e, b), LineSegment(c, d)]
  {
  }

  // ---------------------------------------------------------------------
  // The tagged line string
  // ---------------------------------------------------------------------

  /** A line being simplified: its original coordinates, the fixed array of
      its original segments, and the result segments accumulated so far. */
  class TaggedLineString {
    const parent: seq<Coord>
    const segs: array<TaggedLineSegment>
    var resultSegs: seq<LineSegment>
    const minimumSize: int
    const isRing: bool

    /** The segment array holds the original segments of the parent line. */
    ghost predicate Valid()
      reads this, segs
    {
      |parent| >= 1 && segs[..] == OriginalSegments(parent)
    }

    constructor (parentLine: seq<Coord>, minimumSize: int, isRing: bool)
      requires |parentLine| >= 1
      ensures Valid() && fresh(segs)
      ensures parent == parentLine && segs.Length == |parentLine| - 1
      ensures this.minimumSize == minimumSize && this.isRing == isRing
      ensures resultSegs == []
    {
      parent := parentLine;
      this.minimumSize := minimumSize;
      this.isRing := isRing;
      var a := TaggedLineString.Init(parentLine);
      segs := a;
      resultSegs := [];
    }

    /** Splits the coordinates into segments: segment `i` joins `pts[i]`
        to `pts[i+1]` and carries index `i`. */
    static method Init(pts: seq<Coord>) returns (a: array<TaggedLineSegment>)
      requires |pts| >= 1
      ensures fresh(a)
      ensures a[..] == OriginalSegments(pts)
    {
      a := new TaggedLineSegment[|pts| - 1];
      for i := 0 to |pts| - 1
        invariant forall k :: 0 <= k < i ==> a[k] == TaggedLineSegment(pts[k], pts[k + 1], k)
      {
        a[i] := TaggedLineSegment(pts[i], pts[i + 1], i);
      }
    }

    /** The number of coordinates of the parent line. */
    function Size(): (n: nat)
      requires Valid()
      reads this, segs
      ensures n == |parent|
      ensures n == segs.Length + 1
    {
      |parent|
    }

    /** Original coordinate `i`; it starts original segment `i` and ends
        original segment `i-1`. */
    function GetCoordinate(i: int): (c: Coord)
      requires Valid()
      requires 0 <= i < Size()
      reads this, segs
      ensures c == parent[i]
      ensures i < segs.Length ==> c == segs[i].p0
      ensures 0 < i ==> c == segs[i - 1].p1
    {
      parent[i]
    }

    /** Original segment `i`. */
    function GetSegment(i: int): (s: TaggedLineSegment)
      requires Valid()
      requires 0 <= i < segs.Length
      reads this, segs
      ensures s.p0 == parent[i] && s.p1 == parent[i + 1] && s.index == i
    {
      segs[i]
    }

    /** The array of original segments; it has one segment fewer than the
        parent line has coordinates. */
    function GetSegments(): (a: array<TaggedLineSegment>)
      requires Valid()
      reads this, segs
      ensures a.Length == |parent| - 1
      ensures a[..] == OriginalSegments(parent)
    {
      segs
    }

    /** A vertex of the component: of the simplified line once it has a
        segment, otherwise original vertex 1. */
    function GetComponentPoint(): (c: Coord)
      requires Valid()
      requires resultSegs != [] || |parent| >= 2
      reads this, segs
      ensures resultSegs != [] ==> c == resultSegs[0].p0 && c == Vertices(resultSegs)[0]
      ensures resultSegs == [] ==> c == parent[1] && c == segs[0].p1
    {
      if |resultSegs| > 0 then resultSegs[0].p0
      else parent[1]
    }

    /** The number of vertices of the simplified line. */
    function GetResultSize(): (n: nat)
      reads this
      ensures n == 0 <==> resultSegs == []
      ensures resultSegs != [] ==> n == |resultSegs| + 1 && n == |Vertices(resultSegs)|
    {
      var resultSegsSize := |resultSegs|;
      if resultSegsSize == 0 then 0 else resultSegsSize + 1
    }

    /** Result segment `i`; a negative `i` counts from the end. */
    function GetResultSegment(i: int): (s: LineSegment)
      requires -|resultSegs| <= i < |resultSegs|
      reads this
      ensures 0 <= i ==> s == resultSegs[i]
      ensures i < 0 ==> s == resultSegs[|resultSegs| + i]
    {
      var index := if i < 0 then |resultSegs| + i else i;
      resultSegs[index]
    }

    /** Indexing from the end agrees with indexing from the start. */
    lemma ResultSegmentFromEnd(i: int)
      requires 0 <= i < |resultSegs|
      ensures GetResultSegment(i - |resultSegs|) == GetResultSegment(i)
      ensures GetResultSegment(-1) == resultSegs[|resultSegs| - 1]
    {
    }

    /** Appends a simplified segment to the result. */
    method AddToResult(seg: LineSegment)
      requires Valid()
      modifies this`resultSegs
      ensures Valid()
      ensures resultSegs == old(resultSegs) + [seg]
      ensures GetResultSize() == if old(resultSegs) == [] then 2 else old(GetResultSize()) + 1
    {
      resultSegs := resultSegs + [seg];
    }

    /** The coordinates of a non-empty segment list: the start of each
        segment and the end of the last. */
    static method ExtractCoordinates(segs: seq<LineSegment>) returns (pts: array<Coord>)
      requires segs != []
      ensures fresh(pts)
      ensures pts[..] == Vertices(segs)
    {
      pts := new Coord[|segs| + 1];
      var seg: Option<LineSegment> := None;
      for i := 0 to |segs|
        invariant i == 0 ==> seg == None
        invariant i > 0 ==> seg == Some(segs[i - 1])
        invariant forall k :: 0 <= k < i ==> pts[k] == segs[k].p0
      {
        seg := Some(segs[i]);
        pts[i] := seg.value.p0;
      }
      pts[pts.Length - 1] := seg.value.p1;
      assert pts[..] == Vertices(segs) by {
        var v := Vertices(segs);
        forall k | 0 <= k < pts.Length ensures pts[k] == v[k] {
        }
      }
    }

    /** The coordinates of the simplified line; there are as many as the
        result size says. */
    method GetResultCoordinates() returns (pts: array<Coord>)
      requires resultSegs != []
      ensures fresh(pts)
      ensures pts[..] == Vertices(resultSegs)
      ensures pts.Length == GetResultSize()
    {
      pts := ExtractCoordinates(resultSegs);
    }

    /** Merges a ring's endpoint: the first result segment now starts where
        the last one started, the last one is dropped, and the (rewritten)
        first segment is returned. */
    method RemoveRingEndpoint() returns (firstSeg: LineSegment)
      requires Valid()
      requires resultSegs != []
      modifies this`resultSegs
      ensures Valid()
      ensures resultSegs == RingEndpointRemoved(old(resultSegs))
      ensures firstSeg == LineSegment(old(resultSegs)[|old(resultSegs)| - 1].p0, old(resultSegs)[0].p1)
      ensures resultSegs != [] ==> firstSeg == resultSegs[0]
    {
      firstSeg := resultSegs[0];
      var lastSeg := resultSegs[|resultSegs| - 1];
      firstSeg := firstSeg.(p0 := lastSeg.p0);
      resultSegs := resultSegs[0 := firstSeg];
      resultSegs := resultSegs[..|resultSegs| - 1];
    }

    /** With every original segment kept, the result coordinates are the
        parent line's own. */
    lemma UnsimplifiedIsParent()
      requires Valid() && |parent| >= 2
      ensures Vertices(Untagged(segs[..])) == parent
    {
      assert Untagged(segs[..]) == Chain(parent);
      ChainRoundTrip(parent);
    }
  }

  /** The square ring of five coordinates with its third vertex dropped
      extracts to the four-coordinate closed ring. */
  method SquareRingExample()
  {
    var a, b, c, d := Coord(0.0, 0.0), Coord(10.0, 0.0), Coord(10.0, 10.0), Coord(0.0, 10.0);
    var line := new TaggedLineString([a, b, c, d, a], 4, true);
    assert line.GetSegment(3).p1 == a;
    line.AddToResult(LineSegment(a, b));
    line.AddToResult(LineSegment(b, d));
    line.AddToResult(LineSegment(d, a));
    var pts := line.GetResultCoordinates();
    assert pts[..] == [a, b, d, a];
  }
}
