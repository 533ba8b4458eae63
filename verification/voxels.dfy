/** Voxels as both components build them: a position and a hex colour.
    Coordinates are exact decimals (`real`), since the avatar places some
    cubes at 0.5, 2.5, 2.7 and -2.2.

    Most voxel lists here come from three nested counting loops over a box of
    grid cells, x outermost and z innermost, sometimes skipping the box's
    vertical corner columns; `Box` and `Cells` describe such a list once. */
module Voxels {
  import opened Seqs

  datatype Voxel = Voxel(x: real, y: real, z: real, color: string)

  predicate IsInt(r: real) {
    r.Floor as real == r
  }

  function Abs(n: int): nat {
    if n < 0 then -n else n
  }

  /** The voxel at a grid cell. */
  function At(x: int, y: int, z: int, color: string): Voxel {
    Voxel(x as real, y as real, z as real, color)
  }

  lemma IntIsInt(n: int)
    ensures IsInt(n as real) && (n as real).Floor == n
  {
  }

  /** An integral value in [n - 1, n) is n - 1. */
  lemma IntBelow(r: real, n: int)
    requires IsInt(r) && r < n as real
    ensures r < (n - 1) as real || r == (n - 1) as real
  {
    var k := r.Floor;
    assert r == k as real;
    assert k < n;
    if k < n - 1 {
      assert (k as real) < (n - 1) as real;
    } else {
      assert k == n - 1;
    }
  }

  lemma NegIsInt(r: real)
    requires IsInt(r)
    ensures IsInt(-r) && (-r).Floor == -r.Floor
  {
    IntIsInt(-r.Floor);
  }

  // ---------------------------------------------------------------------
  // Mirror image under x -> -x

  function Mirror(v: Voxel): Voxel {
    v.(x := -v.x)
  }

  function MirrorAll(s: seq<Voxel>): (r: seq<Voxel>)
    ensures |r| == |s|
    ensures forall i :: 0 <= i < |s| ==> r[i] == Mirror(s[i])
  {
    if |s| == 0 then [] else [Mirror(s[0])] + MirrorAll(s[1..])
  }

  /** No voxel is listed twice. */
  predicate Distinct(s: seq<Voxel>) {
    forall i, j :: 0 <= i < j < |s| ==> s[i] != s[j]
  }

  lemma DistinctAppend(a: seq<Voxel>, b: seq<Voxel>)
    requires Distinct(a) && Distinct(b)
    requires forall i :: 0 <= i < |a| ==> a[i] !in b
    ensures Distinct(a + b)
  {
    var s := a + b;
    forall i, j | 0 <= i < j < |s|
      ensures s[i] != s[j]
    {
      if i < |a| && |a| <= j {
        assert s[i] == a[i] && s[j] == b[j - |a|];
      }
    }
  }

  /** In a list without repeats every voxel occurs once or not at all. */
  lemma {:induction false} DistinctCount(s: seq<Voxel>, v: Voxel)
    requires Distinct(s)
    ensures multiset(s)[v] == if v in s then 1 else 0
    decreases |s|
  {
    if |s| > 0 {
      assert s == [s[0]] + s[1..];
      assert Distinct(s[1..]);
      DistinctCount(s[1..], v);
      if v == s[0] {
        assert v !in s[1..];
      }
    }
  }

  lemma {:induction false} MirrorCount(s: seq<Voxel>, v: Voxel)
    ensures multiset(MirrorAll(s))[v] == multiset(s)[Mirror(v)]
    decreases |s|
  {
    if |s| > 0 {
      var head, rest := s[0], s[1..];
      assert s == [head] + rest;
      assert MirrorAll(s) == [Mirror(head)] + MirrorAll(rest);
      MirrorCount(rest, v);
      HeadCount(Mirror(head), MirrorAll(rest), v);
      HeadCount(head, rest, Mirror(v));
      assert Mirror(head) == v <==> head == Mirror(v);
    }
  }

  /** A list without repeats that is closed under mirroring is, as a
      multiset, its own mirror image. */
  lemma MirrorSymmetric(s: seq<Voxel>)
    requires Distinct(s)
    requires forall v :: v in s ==> Mirror(v) in s
    ensures multiset(MirrorAll(s)) == multiset(s)
  {
    forall v
      ensures multiset(MirrorAll(s))[v] == multiset(s)[v]
    {
      MirrorSymmetricAt(s, v);
    }
  }

  lemma MirrorSymmetricAt(s: seq<Voxel>, v: Voxel)
    requires Distinct(s)
    requires forall v :: v in s ==> Mirror(v) in s
    ensures multiset(MirrorAll(s))[v] == multiset(s)[v]
  {
    MirrorCount(s, v);
    DistinctCount(s, v);
    DistinctCount(s, Mirror(v));
    if Mirror(v) in s {
      assert Mirror(Mirror(v)) == v;
    }
  }

  // ---------------------------------------------------------------------
  // Boxes of grid cells

  /** Which cells of a box's horizontal slice are kept. `OutsideCorners(r)`
      keeps a cell when |x| < r or |z| < r, dropping the corner columns of a
      box centred on the y axis. */
  datatype Filter = Everything | OutsideCorners(reach: int)

  predicate Keeps(f: Filter, x: int, z: int) {
    match f
    case Everything => true
    case OutsideCorners(r) => Abs(x) < r || Abs(z) < r
  }

  /** The cells x0..x1 by y0..y1 by z0..z1 (bounds included), in one colour. */
  datatype Box = Box(x0: int, x1: int, y0: int, y1: int, z0: int, z1: int,
                     color: string, filter: Filter)

  function Cell(b: Box, x: int, y: int, z: int): seq<Voxel> {
    if Keeps(b.filter, x, z) then [At(x, y, z, b.color)] else []
  }

  /** The cells of column (x, y) with z0 <= z < hi, in the order the
      innermost loop pushes them. */
  function ZRun(b: Box, x: int, y: int, hi: int): seq<Voxel>
    decreases hi - b.z0
  {
    if hi <= b.z0 then [] else ZRun(b, x, y, hi - 1) + Cell(b, x, y, hi - 1)
  }

  /** The cells of slice x with y0 <= y < hi. */
  function YRun(b: Box, x: int, hi: int): seq<Voxel>
    decreases hi - b.y0
  {
    if hi <= b.y0 then [] else YRun(b, x, hi - 1) + ZRun(b, x, hi - 1, b.z1 + 1)
  }

  /** The cells with x0 <= x < hi. */
  function XRun(b: Box, hi: int): seq<Voxel>
    decreases hi - b.x0
  {
    if hi <= b.x0 then [] else XRun(b, hi - 1) + YRun(b, hi - 1, b.y1 + 1)
  }

  /** Every kept cell of the box, x outermost and z innermost. */
  function Cells(b: Box): seq<Voxel> {
    XRun(b, b.x1 + 1)
  }

  /** The geometric description of a box: a kept grid cell inside the bounds,
      in the box's colour. */
  predicate InBox(b: Box, v: Voxel) {
    && v.color == b.color
    && IsInt(v.x) && IsInt(v.y) && IsInt(v.z)
    && b.x0 as real <= v.x <= b.x1 as real
    && b.y0 as real <= v.y <= b.y1 as real
    && b.z0 as real <= v.z <= b.z1 as real
    && Keeps(b.filter, v.x.Floor, v.z.Floor)
  }

  lemma {:induction false} ZRunMembers(b: Box, x: int, y: int, hi: int, v: Voxel)
    requires b.x0 <= x <= b.x1 && b.y0 <= y <= b.y1 && hi <= b.z1 + 1
    ensures v in ZRun(b, x, y, hi) <==>
              InBox(b, v) && v.x == x as real && v.y == y as real && v.z < hi as real
    decreases hi - b.z0
  {
    if hi > b.z0 {
      ZRunMembers(b, x, y, hi - 1, v);
      var c := Cell(b, x, y, hi - 1);
      assert ZRun(b, x, y, hi) == ZRun(b, x, y, hi - 1) + c;
      IntIsInt(x);
      IntIsInt(y);
      IntIsInt(hi - 1);
      if v in c {
        assert v == At(x, y, hi - 1, b.color);
      }
      if InBox(b, v) && v.x == x as real && v.y == y as real && v.z < hi as real {
        IntBelow(v.z, hi);
        if v.z == (hi - 1) as real {
          assert v == At(x, y, hi - 1, b.color);
        }
      }
    }
  }

  lemma {:induction false} YRunMembers(b: Box, x: int, hi: int, v: Voxel)
    requires b.x0 <= x <= b.x1 && hi <= b.y1 + 1
    ensures v in YRun(b, x, hi) <==> InBox(b, v) && v.x == x as real && v.y < hi as real
    decreases hi - b.y0
  {
    if hi > b.y0 {
      YRunMembers(b, x, hi - 1, v);
      ZRunMembers(b, x, hi - 1, b.z1 + 1, v);
      assert YRun(b, x, hi) == YRun(b, x, hi - 1) + ZRun(b, x, hi - 1, b.z1 + 1);
      if InBox(b, v) && v.x == x as real && v.y < hi as real {
        IntBelow(v.y, hi);
      }
    }
  }

  lemma {:induction false} XRunMembers(b: Box, hi: int, v: Voxel)
    requires hi <= b.x1 + 1
    ensures v in XRun(b, hi) <==> InBox(b, v) && v.x < hi as real
    decreases hi - b.x0
  {
    if hi > b.x0 {
      XRunMembers(b, hi - 1, v);
      YRunMembers(b, hi - 1, b.y1 + 1, v);
      assert XRun(b, hi) == XRun(b, hi - 1) + YRun(b, hi - 1, b.y1 + 1);
      if InBox(b, v) && v.x < hi as real {
        IntBelow(v.x, hi);
      }
    }
  }

  /** The list a box builds holds exactly the voxels the box describes. */
  lemma CellsMembers(b: Box, v: Voxel)
    ensures v in Cells(b) <==> InBox(b, v)
  {
    XRunMembers(b, b.x1 + 1, v);
  }

  lemma {:induction false} ZRunDistinct(b: Box, x: int, y: int, hi: int)
    requires b.x0 <= x <= b.x1 && b.y0 <= y <= b.y1 && hi <= b.z1 + 1
    ensures Distinct(ZRun(b, x, y, hi))
    decreases hi - b.z0
  {
    if hi > b.z0 {
      ZRunDistinct(b, x, y, hi - 1);
      var prefix := ZRun(b, x, y, hi - 1);
      forall i | 0 <= i < |prefix|
        ensures prefix[i] !in Cell(b, x, y, hi - 1)
      {
        var v := prefix[i];
        ZRunMembers(b, x, y, hi - 1, v);
      }
      DistinctAppend(ZRun(b, x, y, hi - 1), Cell(b, x, y, hi - 1));
    }
  }

  lemma {:induction false} YRunDistinct(b: Box, x: int, hi: int)
    requires b.x0 <= x <= b.x1 && hi <= b.y1 + 1
    ensures Distinct(YRun(b, x, hi))
    decreases hi - b.y0
  {
    if hi > b.y0 {
      YRunDistinct(b, x, hi - 1);
      ZRunDistinct(b, x, hi - 1, b.z1 + 1);
      var prefix := YRun(b, x, hi - 1);
      forall i | 0 <= i < |prefix|
        ensures prefix[i] !in ZRun(b, x, hi - 1, b.z1 + 1)
      {
        var v := prefix[i];
        YRunMembers(b, x, hi - 1, v);
        ZRunMembers(b, x, hi - 1, b.z1 + 1, v);
      }
      DistinctAppend(YRun(b, x, hi - 1), ZRun(b, x, hi - 1, b.z1 + 1));
    }
  }

  lemma {:induction false} XRunDistinct(b: Box, hi: int)
    requires hi <= b.x1 + 1
    ensures Distinct(XRun(b, hi))
    decreases hi - b.x0
  {
    if hi > b.x0 {
      XRunDistinct(b, hi - 1);
      YRunDistinct(b, hi - 1, b.y1 + 1);
      var prefix := XRun(b, hi - 1);
      forall i | 0 <= i < |prefix|
        ensures prefix[i] !in YRun(b, hi - 1, b.y1 + 1)
      {
        var v := prefix[i];
        XRunMembers(b, hi - 1, v);
        YRunMembers(b, hi - 1, b.y1 + 1, v);
      }
      DistinctAppend(XRun(b, hi - 1), YRun(b, hi - 1, b.y1 + 1));
    }
  }

  /** A box lists no cell twice. */
  lemma CellsDistinct(b: Box)
    ensures Distinct(Cells(b))
  {
    XRunDistinct(b, b.x1 + 1);
  }

  /** Without a filter a box of non-negative extent lists every cell:
      width times height times depth voxels. */
  lemma CellsCount(b: Box)
    requires b.filter == Everything
    requires b.x0 <= b.x1 + 1 && b.y0 <= b.y1 + 1 && b.z0 <= b.z1 + 1
    ensures |Cells(b)| == (b.x1 - b.x0 + 1) * (b.y1 - b.y0 + 1) * (b.z1 - b.z0 + 1)
  {
    XRunCount(b, b.x1 + 1);
  }

  lemma {:induction false} ZRunCount(b: Box, x: int, y: int, hi: int)
    requires b.filter == Everything && b.z0 <= hi
    ensures |ZRun(b, x, y, hi)| == hi - b.z0
    decreases hi - b.z0
  {
    if hi > b.z0 {
      ZRunCount(b, x, y, hi - 1);
    }
  }

  lemma {:induction false} YRunCount(b: Box, x: int, hi: int)
    requires b.filter == Everything && b.y0 <= hi && b.z0 <= b.z1 + 1
    ensures |YRun(b, x, hi)| == (hi - b.y0) * (b.z1 - b.z0 + 1)
    decreases hi - b.y0
  {
    if hi > b.y0 {
      YRunCount(b, x, hi - 1);
      ZRunCount(b, x, hi - 1, b.z1 + 1);
      assert (hi - b.y0) * (b.z1 - b.z0 + 1)
          == (hi - 1 - b.y0) * (b.z1 - b.z0 + 1) + (b.z1 - b.z0 + 1);
    }
  }

  lemma {:induction false} XRunCount(b: Box, hi: int)
    requires b.filter == Everything && b.x0 <= hi && b.y0 <= b.y1 + 1 && b.z0 <= b.z1 + 1
    ensures |XRun(b, hi)| == (hi - b.x0) * ((b.y1 - b.y0 + 1) * (b.z1 - b.z0 + 1))
    decreases hi - b.x0
  {
    if hi > b.x0 {
      XRunCount(b, hi - 1);
      YRunCount(b, hi - 1, b.y1 + 1);
      var area := (b.y1 - b.y0 + 1) * (b.z1 - b.z0 + 1);
      assert (hi - b.x0) * area == (hi - 1 - b.x0) * area + area;
    }
  }

  /** The mirror image of a box: its x range reflected. */
  function MirrorBox(b: Box): Box {
    b.(x0 := -b.x1, x1 := -b.x0)
  }

  /** Reflecting a voxel moves it between a box and the box's mirror image. */
  lemma InBoxMirror(b: Box, v: Voxel)
    ensures InBox(MirrorBox(b), Mirror(v)) <==> InBox(b, v)
  {
    if IsInt(v.x) {
      NegIsInt(v.x);
    }
    if IsInt(-v.x) {
      NegIsInt(-v.x);
    }
  }

  /** The innermost loop: z counts up through the box, pushing each kept
      cell of column (x, y) onto `data0`. */
  method AppendColumn(data0: seq<Voxel>, b: Box, x: int, y: int) returns (data: seq<Voxel>)
    ensures data == data0 + ZRun(b, x, y, b.z1 + 1)
  {
    data := data0;
    var z := b.z0;
    while z <= b.z1
      invariant b.z0 <= z && (z <= b.z1 + 1 || z == b.z0)
      invariant data == data0 + ZRun(b, x, y, z)
      decreases b.z1 - z
    {
      if Keeps(b.filter, x, z) {
        data := data + [At(x, y, z, b.color)];
      }
      z := z + 1;
    }
  }

  /** The middle loop: y counts up through the box, one column each. */
  method AppendSlice(data0: seq<Voxel>, b: Box, x: int) returns (data: seq<Voxel>)
    ensures data == data0 + YRun(b, x, b.y1 + 1)
  {
    data := data0;
    var y := b.y0;
    while y <= b.y1
      invariant b.y0 <= y && (y <= b.y1 + 1 || y == b.y0)
      invariant data == data0 + YRun(b, x, y)
      decreases b.y1 - y
    {
      data := AppendColumn(data, b, x, y);
      AppendAssoc(data0, YRun(b, x, y), ZRun(b, x, y, b.z1 + 1));
      y := y + 1;
    }
  }

  /** The outer loop: x counts up through the box, one slice each, so the
      three loops together push exactly the box's cells. */
  method AppendBox(data0: seq<Voxel>, b: Box) returns (data: seq<Voxel>)
    ensures data == data0 + Cells(b)
  {
    data := data0;
    var x := b.x0;
    while x <= b.x1
      invariant b.x0 <= x && (x <= b.x1 + 1 || x == b.x0)
      invariant data == data0 + XRun(b, x)
      decreases b.x1 - x
    {
      data := AppendSlice(data, b, x);
      AppendAssoc(data0, XRun(b, x), YRun(b, x, b.y1 + 1));
      x := x + 1;
    }
  }
}
