# Tagged line string

This project is a Dafny model of `TaggedLineString`, the bookkeeping structure that JTS's topology-preserving line simplifier builds for each line or ring it simplifies. The structure has two views:

- **The original view.** On construction it records the parent line's coordinates (`parent`). It splits them into a fixed array `segs` of tagged segments. Segment `i` joins coordinate `i` to coordinate `i+1` and carries index `i`. It also stores the `minimumSize` threshold and the `isRing` flag.
- **The result view.** The simplification driver appends the segments it keeps to the growing list `resultSegs`, in the order they occur along the line. The simplified coordinates are then read back from that list: the start of each segment, then the end of the last one. For a ring, the driver can first merge away the ring endpoint. This rewrites the first result segment's start to the last segment's start and drops the last segment.

The model is in two files:

- `geom.dfy` (module `Geom`) holds the coordinate and line-segment value types.
- `tagged_line_string.dfy` (module `Simplify`) holds the tagged segment type, the specification functions, their lemmas and the class `TaggedLineString`.

The specification functions are:

- `OriginalSegments`: the segments built from a coordinate list.
- `Vertices`: the coordinates a segment list stands for.
- `Chain`: the connected segment list through a coordinate list.
- `Connected`: every segment starts where the previous one ends.
- `RingEndpointRemoved`: the result list after the ring endpoint is merged away.
- `TaggedLineSegment.Segment`: a tagged segment seen as a plain line segment, without its index.
- `Untagged`: a list of tagged segments with every index dropped.
- `Closed`: a coordinate list of at least two entries whose first and last coordinates coincide.

The class keeps `parent`, `segs`, `minimumSize` and `isRing` as `const` fields, set only by the constructor. As a result, no result-list operation can change them. `resultSegs` is the only mutable field, and `AddToResult` and `RemoveRingEndpoint` modify only it. `Valid()` states that the segment array holds exactly `OriginalSegments(parent)`.

At the edges the model does what the code does:

- `removeRingEndpoint` returns the rewritten first segment, and the removed last segment is not returned (`TaggedLineString.java:157`).
- Construction accepts a one-point line and builds zero segments for it. A line with no points makes the segment array length −1, which throws (`TaggedLineString.java:106`). The constructor therefore requires at least one coordinate.
- `extractCoordinates` on an empty list dereferences a null segment (`TaggedLineString.java:146`). The model requires a non-empty list, and the loop carries the last segment as an `Option` that is `None` before the first iteration.
- With exactly one result segment, `removeRingEndpoint` is deterministic (`TaggedLineString.java:152-157`). The first and last segments are the same object, so the start is rewritten to itself, the list becomes empty, and that segment is returned unchanged.

## Model

| member | source | states |
|---|---|---|
| `Simplify.TaggedLineString.constructor` | modules/core/src/main/java/org/locationtech/jts/simplify/TaggedLineString.java:39-44 | stores the parent coordinates, minimum size and ring flag; builds one segment fewer than there are coordinates, with the structure invariant holding; starts with an empty result |
| `Simplify.TaggedLineString.Init` | modules/core/src/main/java/org/locationtech/jts/simplify/TaggedLineString.java:103-112 | fills a fresh array whose segment `i` joins `pts[i]` to `pts[i+1]` with index `i`, for every `i` |
| `Simplify.OriginalSegments` | modules/core/src/main/java/org/locationtech/jts/simplify/TaggedLineString.java:106-111 | the original segments of `pts` are one fewer than its coordinates; segment `i` starts at `pts[i]`, ends at `pts[i+1]` and is tagged `i` |
| `Simplify.TaggedLineString.Size` | modules/core/src/main/java/org/locationtech/jts/simplify/TaggedLineString.java:59-61 | the number of parent coordinates, which is one more than the number of original segments |
| `Simplify.TaggedLineString.GetCoordinate` | modules/core/src/main/java/org/locationtech/jts/simplify/TaggedLineString.java:55-57 | original coordinate `i`, which is the start of segment `i` and the end of segment `i-1` where these exist |
| `Simplify.TaggedLineString.GetSegment` | modules/core/src/main/java/org/locationtech/jts/simplify/TaggedLineString.java:87 | original segment `i` joins parent coordinates `i` and `i+1` and carries index `i` |
| `Simplify.TaggedLineString.GetSegments` | modules/core/src/main/java/org/locationtech/jts/simplify/TaggedLineString.java:114 | the segment array has `size() - 1` entries and holds the original segments of the parent |
| `Simplify.TaggedLineString.GetComponentPoint` | modules/core/src/main/java/org/locationtech/jts/simplify/TaggedLineString.java:73-79 | with a non-empty result, the start of the first result segment, which is the first simplified vertex; otherwise parent coordinate 1, the end of original segment 0; needs two parent coordinates only when the result is empty |
| `Simplify.TaggedLineString.GetResultSize` | modules/core/src/main/java/org/locationtech/jts/simplify/TaggedLineString.java:81-85 | zero exactly when the result is empty; otherwise the result count plus one, which equals the number of extracted vertices |
| `Simplify.TaggedLineString.GetResultSegment` | modules/core/src/main/java/org/locationtech/jts/simplify/TaggedLineString.java:95-101 | for `0 <= i < n`, result entry `i`; for `-n <= i < 0`, result entry `n + i` |
| `Simplify.TaggedLineString.ResultSegmentFromEnd` | modules/core/src/main/java/org/locationtech/jts/simplify/TaggedLineString.java:89-101 | index `i - n` gives the same segment as index `i`; index `-1` gives the last segment |
| `Simplify.TaggedLineString.AddToResult` | modules/core/src/main/java/org/locationtech/jts/simplify/TaggedLineString.java:123-126 | the result becomes the old result with `seg` appended; the result size goes from 0 to 2 on the first append and grows by one on every later append; only the result field may change |
| `Simplify.Vertices` | modules/core/src/main/java/org/locationtech/jts/simplify/TaggedLineString.java:137-148 | a non-empty list of `k` segments stands for `k + 1` coordinates: the start of each segment in order, then the end of the last segment |
| `Simplify.TaggedLineString.ExtractCoordinates` | modules/core/src/main/java/org/locationtech/jts/simplify/TaggedLineString.java:137-148 | for a non-empty segment list, a fresh array holding exactly the vertices of the list |
| `Simplify.TaggedLineString.GetResultCoordinates` | modules/core/src/main/java/org/locationtech/jts/simplify/TaggedLineString.java:53 | a fresh array of the result's vertices, whose length is the result size |
| `Simplify.ChainRoundTrip` | modules/core/src/main/java/org/locationtech/jts/simplify/TaggedLineString.java:141-146 | the chain of segments through `pts` is connected, and extracting its coordinates gives back `pts` |
| `Simplify.ConnectedIffChain` | modules/core/src/main/java/org/locationtech/jts/simplify/TaggedLineString.java:141-146 | a non-empty segment list is connected if and only if it equals the chain through its own extracted vertices |
| `Simplify.AppendConnected` | modules/core/src/main/java/org/locationtech/jts/simplify/TaggedLineString.java:116-126 | appending, in line order, a segment that starts where the result ends keeps the result connected and adds exactly its end as one new vertex |
| `Simplify.TaggedLineString.UnsimplifiedIsParent` | modules/core/src/main/java/org/locationtech/jts/simplify/TaggedLineString.java:103-112 | if every original segment were kept unchanged, the extracted coordinates would be exactly the parent coordinates |
| `Simplify.RingEndpointRemoved` | modules/core/src/main/java/org/locationtech/jts/simplify/TaggedLineString.java:150-158 | one segment fewer; with two or more segments, the first segment starts at the old last segment's start and keeps its end; segments `1..n-2` are unchanged |
| `Simplify.TaggedLineString.RemoveRingEndpoint` | modules/core/src/main/java/org/locationtech/jts/simplify/TaggedLineString.java:150-158 | requires a non-empty result; the result becomes `RingEndpointRemoved` of the old one; returns the first segment with its start rewritten to the last segment's start, which is the new first entry whenever any entry remains |
| `Simplify.RingEndpointRemovedCloses` | modules/core/src/main/java/org/locationtech/jts/simplify/TaggedLineString.java:155-156 | on a connected result of at least two segments, the merge keeps the result connected; the new vertices are the old ones with the first replaced by the last segment's start and the last dropped, so they form a closed ring |
| `Simplify.RingRepairExample` | modules/core/src/main/java/org/locationtech/jts/simplify/TaggedLineString.java:150-158 | merging the endpoint of `(a,b),(c,d),(e,a)` leaves `(e,b),(c,d)` |

`Simplify.SquareRingExample` is a client of the class. It builds the five-coordinate square ring and appends three simplified segments for the ring with one corner dropped. It then shows that the result coordinates form the expected closed four-point ring.

## Left out

- `asLineString` and `asLinearRing` are not modelled. They pass the extracted coordinates to the geometry factory, which is not part of this model. The coordinates they would consume are `GetResultCoordinates`.
- `isRing`, `getMinimumSize`, `getParent` and `getParentCoordinates` have no separate members. They are plain field reads, and the model exposes the `const` fields `isRing`, `minimumSize` and `parent` directly. The copying done by `getParentCoordinates` belongs to `LineString`.
- `getCoordinate` and `size` delegate to `LineString.getCoordinateN` and `getNumPoints`. These are modelled as indexing into, and the length of, the parent coordinate sequence. An out-of-range index is a precondition.
- Four index failures of the source are preconditions; the exceptions themselves are not modelled:
  - `GetSegment` requires `0 <= i < segs.Length`. It replaces the ArrayIndexOutOfBoundsException of `segs[i]` (`TaggedLineString.java:87`).
  - `GetResultSegment` requires `-n <= i < n`. It replaces the IndexOutOfBoundsException that `resultSegs.get` throws for `i >= n` or `i < -n` (`TaggedLineString.java:100`).
  - `RemoveRingEndpoint` requires a non-empty result. It replaces the IndexOutOfBoundsException of `resultSegs.get(0)` on an empty list (`TaggedLineString.java:152`).
  - `GetComponentPoint` requires a non-empty result or at least two parent coordinates. It replaces the ArrayIndexOutOfBoundsException of `[1]` (`TaggedLineString.java:78`).
- Coordinates are compared by value equality. The double-precision ordinates, the z ordinate and `Coordinate.equals` are not modelled, because this class never computes with them.
- Segments are values, so Java object aliasing is not modelled. In the source, a segment passed to `addToResult` can be the very object stored in `segs`. The start-point write in `removeRingEndpoint` could then also change that original segment. In the model, `RemoveRingEndpoint` rewrites only the result list, and the original segment array is never touched.
- The append operation accepts any segment, as the source does. The assumption that segments arrive in line order and connect to the previous tail is not checked. It is stated separately as `Connected` and `AppendConnected`.
- The parent reference each `TaggedLineSegment` holds is not modelled. Neither are the other members of `TaggedLineSegment`, `LineSegment` and `LineString`: beyond the two endpoints and the index, those classes are not part of this model.
- The simplification driver and its topology checks are not part of this model.
- Running out of memory and concurrent use are not modelled.
