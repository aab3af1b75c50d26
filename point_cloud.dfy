/**
 * The point-cloud accumulator of the depth-map program. The rply library
 * calls the vertex callback once per scalar value of the `x`, `y` and `z`
 * properties; a three-slot buffer and a cycling counter group those values
 * into (x, y, z) triples, and every completed triple that passes a fixed
 * crop is appended to the global vertex vector. `read_ply` empties that
 * vector and then lets the library feed one file through the callback.
 *
 * The rply library itself is not modelled: a file is represented by what
 * the library does with it (see PlySource). Coordinates are `real`; the
 * source's `double`-to-`float` cast is not modelled.
 */
module PointCloud {

  /** A kept point lies strictly below this height ... */
  const MaxY: real := -5.0
  /** ... and strictly inside this squared radius around the vertical axis. */
  const MaxRadiusSquared: real := 45000.0

  datatype Point = Point(x: real, y: real, z: real)

  /** The crop of `vertex_cb`. */
  predicate Keep(p: Point) {
    p.y < MaxY && p.x * p.x + p.z * p.z < MaxRadiusSquared
  }

  /** The complete triples of a value stream, in order. */
  function Triples(s: seq<real>): seq<Point>
    decreases |s|
  {
    if |s| < 3 then [] else [Point(s[0], s[1], s[2])] + Triples(s[3..])
  }

  /** The points of `ps` that the crop keeps, in order. */
  function Filter(ps: seq<Point>): seq<Point> {
    if ps == [] then [] else (if Keep(ps[0]) then [ps[0]] else []) + Filter(ps[1..])
  }

  /**
   * What the callback leaves in the vertex vector when it is fed `s`
   * starting from an empty buffer: the coordinates of the kept complete
   * triples, flattened, in input order.
   */
  function Kept(s: seq<real>): seq<real>
    decreases |s|
  {
    if |s| < 3 then []
    else (if Keep(Point(s[0], s[1], s[2])) then s[..3] else []) + Kept(s[3..])
  }

  /** The values after the last complete triple of `s`: what the buffer then holds. */
  function Leftover(s: seq<real>): seq<real> {
    s[|s| - |s| % 3..]
  }

  /** What the rply library does with one file. */
  datatype PlySource =
    | Unopenable                                // `ply_open` fails
    | BadHeader                                 // `ply_read_header` fails
    | Body(values: seq<real>, complete: bool)   // `ply_read` delivers `values` to the callback,
                                                // then reports success iff `complete`

  /** The values a source delivers to the vertex callback. */
  function Delivered(source: PlySource): seq<real> {
    if source.Body? then source.values else []
  }

  /** Whether `read_ply` reports success (returns 0) for this source. */
  predicate ReadSucceeds(source: PlySource) {
    source.Body? && source.complete
  }

  /**
   * The program's global point-cloud state: `ply_buf`, `ply_buf_c` and
   * `g_vertex_buffer_data`.
   */
  class Loader {
    var buf: array<real>
    var count: int
    var vertices: seq<real>

    ghost predicate Valid()
      reads this
    {
      buf.Length == 3 && 0 <= count < 3
    }

    /** The values of the triple in progress. */
    ghost function Pending(): seq<real>
      reads this, buf
      requires Valid()
    {
      buf[..count]
    }

    constructor ()
      ensures Valid() && fresh(buf)
      ensures Pending() == [] && vertices == []
    {
      buf := new real[3](_ => 0.0);
      count := 0;
      vertices := [];
    }

    /** `vertex_cb`: store one value; on every third, crop and maybe append the triple. */
    method VertexCallback(value: real) returns (ret: int)
      requires Valid()
      modifies this, buf
      ensures Valid() && buf == old(buf) && ret == 1
      ensures count == (old(count) + 1) % 3
      ensures old(count) < 2 ==> vertices == old(vertices) && Pending() == old(Pending()) + [value]
      ensures old(count) == 2 ==> Pending() == []
      ensures vertices == old(vertices) + Kept(old(Pending()) + [value])
      ensures Pending() == Leftover(old(Pending()) + [value])
    {
      buf[count] := value;
      count := count + 1;
      if count == 3 {
        count := 0;
        if buf[1] < MaxY && buf[0] * buf[0] + buf[2] * buf[2] < MaxRadiusSquared {
          vertices := vertices + [buf[0], buf[1], buf[2]];
        }
        assert old(Pending()) + [value] == buf[..3];
        assert Kept(buf[..3][3..]) == [];
      }
      ret := 1;
    }

    /**
     * `read_ply`: empty the vertex vector, then feed the file's values to
     * the callback. The counter is not reset, so values left over from an
     * earlier, truncated file begin the first triple of this one.
     */
    method ReadPly(source: PlySource) returns (status: int)
      requires Valid()
      modifies this, buf
      ensures Valid() && buf == old(buf)
      ensures status == if ReadSucceeds(source) then 0 else -1
      ensures vertices == Kept(old(Pending()) + Delivered(source))
      ensures Pending() == Leftover(old(Pending()) + Delivered(source))
    {
      ghost var p0 := Pending();
      vertices := [];
      if !source.Body? {
        assert p0 + Delivered(source) == p0;
        return -1;
      }
      var values := source.values;
      assert p0 + values[..0] == p0;
      var i := 0;
      while i < |values|
        invariant 0 <= i <= |values|
        invariant Valid() && buf == old(buf)
        invariant vertices == Kept(p0 + values[..i])
        invariant Pending() == Leftover(p0 + values[..i])
      {
        var _ := VertexCallback(values[i]);
        FeedOne(p0, values, i);
        i := i + 1;
      }
      assert values[..i] == values;
      status := if source.complete then 0 else -1;
    }
  }

  // ----- Properties of the accumulator

  /** One loop step of `ReadPly`, stated on the prefix fed so far. */
  lemma FeedOne(p0: seq<real>, values: seq<real>, i: nat)
    requires i < |values|
    ensures Kept(p0 + values[..i + 1]) == Kept(p0 + values[..i]) + Kept(Leftover(p0 + values[..i]) + [values[i]])
    ensures Leftover(p0 + values[..i + 1]) == Leftover(Leftover(p0 + values[..i]) + [values[i]])
  {
    assert values[..i + 1] == values[..i] + [values[i]];
    assert p0 + values[..i + 1] == (p0 + values[..i]) + [values[i]];
    KeptSnoc(p0 + values[..i], values[i]);
    LeftoverSnoc(p0 + values[..i], values[i]);
  }

  lemma LeftoverDrop(s: seq<real>)
    requires |s| >= 3
    ensures Leftover(s) == Leftover(s[3..])
  {
  }

  /**
   * Feeding one more value appends to the vertex vector only what the
   * buffered values and the new one complete: kept triples are only ever
   * added at the end.
   */
  lemma {:induction false} KeptSnoc(s: seq<real>, v: real)
    ensures Kept(s + [v]) == Kept(s) + Kept(Leftover(s) + [v])
    decreases |s|
  {
    if |s| < 3 {
      assert Leftover(s) == s;
    } else {
      var t := s + [v];
      assert t[..3] == s[..3] && t[3..] == s[3..] + [v];
      KeptSnoc(s[3..], v);
      LeftoverDrop(s);
    }
  }

  /** The buffer after one more value: the old leftover plus the value, emptied once it makes a triple. */
  lemma {:induction false} LeftoverSnoc(s: seq<real>, v: real)
    ensures Leftover(s + [v]) == Leftover(Leftover(s) + [v])
    decreases |s|
  {
    if |s| < 3 {
      assert Leftover(s) == s;
    } else {
      var t := s + [v];
      assert t[3..] == s[3..] + [v];
      LeftoverSnoc(s[3..], v);
      LeftoverDrop(s);
      LeftoverDrop(t);
    }
  }

  /** The vertex vector always holds whole triples, never more values than were fed. */
  lemma {:induction false} KeptLength(s: seq<real>)
    ensures |Kept(s)| % 3 == 0 && |Kept(s)| <= |s| - |s| % 3
    decreases |s|
  {
    if |s| >= 3 {
      KeptLength(s[3..]);
    }
  }

  /** The triples of the vertex vector are the kept triples of the input, in input order. */
  lemma {:induction false} KeptIsFilter(s: seq<real>)
    ensures Triples(Kept(s)) == Filter(Triples(s))
    decreases |s|
  {
    if |s| >= 3 {
      var p := Point(s[0], s[1], s[2]);
      var rest := Kept(s[3..]);
      KeptIsFilter(s[3..]);
      assert Triples(s)[0] == p && Triples(s)[1..] == Triples(s[3..]);
      if Keep(p) {
        var k := s[..3] + rest;
        assert k[0] == s[0] && k[1] == s[1] && k[2] == s[2] && k[3..] == rest;
      } else {
        assert Kept(s) == rest;
      }
    }
  }

  lemma {:induction false} FilterMembers(ps: seq<Point>, p: Point)
    ensures p in Filter(ps) <==> p in ps && Keep(p)
    decreases |ps|
  {
    if ps != [] {
      FilterMembers(ps[1..], p);
      assert ps == [ps[0]] + ps[1..];
    }
  }

  /**
   * A triple of the input ends up in the vertex vector exactly when it is
   * complete and passes the crop.
   */
  lemma KeptMembers(s: seq<real>, p: Point)
    ensures p in Triples(Kept(s)) <==> p in Triples(s) && p.y < MaxY && p.x * p.x + p.z * p.z < MaxRadiusSquared
  {
    KeptIsFilter(s);
    FilterMembers(Triples(s), p);
  }

  /** A point at height -10 and radius 50 is kept; one at height 0, or at radius 300, is not. */
  lemma CropExample()
    ensures Kept([30.0, -10.0, 40.0, 30.0, 0.0, 40.0, 300.0, -10.0, 0.0]) == [30.0, -10.0, 40.0]
  {
    var s := [30.0, -10.0, 40.0, 30.0, 0.0, 40.0, 300.0, -10.0, 0.0];
    assert s[3..][3..][3..] == [];
  }
}
