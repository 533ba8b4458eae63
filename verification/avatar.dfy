/** The procedural mascot of the landing page (the `voxels` list of
    VoxelAvatar.tsx): a tail, a body with its corner columns cut away, two
    claws and two eyes, pushed in that order.

    The component fixes four colours; here they form a `Palette` argument
    (`Colors` holds the component's values), so every statement below holds
    for any palette and the builder's geometry is kept apart from its paint. */
module Avatar {
  import opened Seqs
  import opened Voxels

  datatype Palette = Palette(primary: string, dark: string, black: string, white: string)

  const Colors: Palette := Palette("#ff4d4d", "#b32424", "#1a1a1a", "#f0f0f0")

  predicate InPalette(p: Palette, color: string) {
    color == p.primary || color == p.dark || color == p.black || color == p.white
  }

  // ---------------------------------------------------------------------
  // Tail: for z in 1..4, a row at height 0.5 and depth z + 2, with x from
  // -floor((4 - z) / 2) to floor((4 - z) / 2).

  /** `Math.floor(w / 2)` with `w = 4 - z`: the largest `h` with `2h <= w`.
      Division by a positive number rounds down in Dafny as well. */
  function TailHalfWidth(z: int): (h: int)
    ensures 2 * h <= 4 - z < 2 * h + 2
  {
    (4 - z) / 2
  }

  function TailVoxel(p: Palette, x: int, z: int): Voxel {
    Voxel(x as real, 0.5, (z + 2) as real, p.primary)
  }

  /** Row z of the tail, with x below `hi`. */
  function TailRow(p: Palette, z: int, hi: int): seq<Voxel>
    decreases hi + TailHalfWidth(z)
  {
    if hi <= -TailHalfWidth(z) then [] else TailRow(p, z, hi - 1) + [TailVoxel(p, hi - 1, z)]
  }

  /** Tail rows 1 up to (not including) `hi`. */
  function TailRows(p: Palette, hi: int): seq<Voxel>
    decreases hi
  {
    if hi <= 1 then [] else TailRows(p, hi - 1) + TailRow(p, hi - 1, TailHalfWidth(hi - 1) + 1)
  }

  function Tail(p: Palette): seq<Voxel> {
    TailRows(p, 5)
  }

  /** The geometric description of tail row z. */
  predicate InTailRow(p: Palette, z: int, v: Voxel) {
    && v.color == p.primary && v.y == 0.5 && v.z == (z + 2) as real
    && IsInt(v.x) && -(TailHalfWidth(z) as real) <= v.x <= TailHalfWidth(z) as real
  }

  /** The geometric description of the whole tail: depth 3 to 6 (loop
      variable 1 to 4) and the row's width. */
  predicate InTail(p: Palette, v: Voxel) {
    IsInt(v.z) && 3.0 <= v.z <= 6.0 && InTailRow(p, v.z.Floor - 2, v)
  }

  // ---------------------------------------------------------------------
  // Body, claws, eyes

  /** x and z in -2..2, y in 0..2, keeping `Math.abs(x) < 2 || Math.abs(z) < 2`. */
  function BodyBox(p: Palette): Box {
    Box(-2, 2, 0, 2, -2, 2, p.primary, OutsideCorners(2))
  }

  function Body(p: Palette): seq<Voxel> {
    Cells(BodyBox(p))
  }

  /** The `[cx, cz]` pairs the claw loop walks. */
  const ClawCentres: seq<(int, int)> := [(-3, -4), (3, -4)]

  /** One claw: x from cx - 1 to cx + 1, z from cz - 2 to cz, at height 1. */
  function ClawBox(p: Palette, cx: int, cz: int): Box {
    Box(cx - 1, cx + 1, 1, 1, cz - 2, cz, p.dark, Everything)
  }

  /** The first n claws. */
  function ClawsUpTo(p: Palette, n: nat): seq<Voxel>
    requires n <= |ClawCentres|
  {
    if n == 0 then [] else ClawsUpTo(p, n - 1) + Cells(ClawBox(p, ClawCentres[n - 1].0, ClawCentres[n - 1].1))
  }

  function Claws(p: Palette): seq<Voxel> {
    ClawsUpTo(p, |ClawCentres|)
  }

  function Eyes(p: Palette): seq<Voxel> {
    [Voxel(-1.0, 2.5, -2.0, p.white), Voxel(1.0, 2.5, -2.0, p.white),
     Voxel(-1.0, 2.7, -2.2, p.black), Voxel(1.0, 2.7, -2.2, p.black)]
  }

  /** The whole mascot, segments in push order. */
  function Mascot(p: Palette): seq<Voxel> {
    Tail(p) + Body(p) + Claws(p) + Eyes(p)
  }

  /** The geometric description of the whole mascot. */
  predicate InMascot(p: Palette, v: Voxel) {
    || InTail(p, v)
    || InBox(BodyBox(p), v)
    || InBox(ClawBox(p, -3, -4), v)
    || InBox(ClawBox(p, 3, -4), v)
    || v in Eyes(p)
  }

  // ---------------------------------------------------------------------
  // Tail: membership, distinctness, count

  lemma {:induction false} TailRowMembers(p: Palette, z: int, hi: int, v: Voxel)
    requires hi <= TailHalfWidth(z) + 1
    ensures v in TailRow(p, z, hi) <==> InTailRow(p, z, v) && v.x < hi as real
    decreases hi + TailHalfWidth(z)
  {
    if hi > -TailHalfWidth(z) {
      TailRowMembers(p, z, hi - 1, v);
      IntIsInt(hi - 1);
      assert TailRow(p, z, hi) == TailRow(p, z, hi - 1) + [TailVoxel(p, hi - 1, z)];
      if InTailRow(p, z, v) && v.x < hi as real {
        IntBelow(v.x, hi);
      }
    }
  }

  lemma {:induction false} TailRowsMembers(p: Palette, hi: int, v: Voxel)
    requires 1 <= hi <= 5
    ensures v in TailRows(p, hi) <==> InTail(p, v) && v.z < (hi + 2) as real
    decreases hi
  {
    if hi > 1 {
      TailRowsMembers(p, hi - 1, v);
      TailRowMembers(p, hi - 1, TailHalfWidth(hi - 1) + 1, v);
      assert TailRows(p, hi) == TailRows(p, hi - 1) + TailRow(p, hi - 1, TailHalfWidth(hi - 1) + 1);
      IntIsInt(hi + 1);
      if InTail(p, v) && v.z < (hi + 2) as real {
        IntBelow(v.z, hi + 2);
      }
    }
  }

  /** The tail list holds exactly the voxels the tail's rows describe. */
  lemma TailMembers(p: Palette, v: Voxel)
    ensures v in Tail(p) <==> InTail(p, v)
  {
    TailRowsMembers(p, 5, v);
  }

  lemma {:induction false} TailRowDistinct(p: Palette, z: int, hi: int)
    requires hi <= TailHalfWidth(z) + 1
    ensures Distinct(TailRow(p, z, hi))
    decreases hi + TailHalfWidth(z)
  {
    if hi > -TailHalfWidth(z) {
      TailRowDistinct(p, z, hi - 1);
      var prefix := TailRow(p, z, hi - 1);
      forall i | 0 <= i < |prefix|
        ensures prefix[i] !in [TailVoxel(p, hi - 1, z)]
      {
        var v := prefix[i];
        TailRowMembers(p, z, hi - 1, v);
      }
      DistinctAppend(prefix, [TailVoxel(p, hi - 1, z)]);
    }
  }

  lemma {:induction false} TailRowsDistinct(p: Palette, hi: int)
    requires 1 <= hi <= 5
    ensures Distinct(TailRows(p, hi))
    decreases hi
  {
    if hi > 1 {
      TailRowsDistinct(p, hi - 1);
      var row := TailRow(p, hi - 1, TailHalfWidth(hi - 1) + 1);
      TailRowDistinct(p, hi - 1, TailHalfWidth(hi - 1) + 1);
      var prefix := TailRows(p, hi - 1);
      forall i | 0 <= i < |prefix|
        ensures prefix[i] !in row
      {
        var v := prefix[i];
        TailRowsMembers(p, hi - 1, v);
        TailRowMembers(p, hi - 1, TailHalfWidth(hi - 1) + 1, v);
      }
      DistinctAppend(prefix, row);
    }
  }

  // ---------------------------------------------------------------------
  // Body count

  /** A body column keeps all five depths in the middle three slices and
      only the middle three depths in the outer two. */
  lemma BodyColumnCount(p: Palette, x: int, y: int)
    ensures |ZRun(BodyBox(p), x, y, 3)| == if Abs(x) < 2 then 5 else 3
  {
    var b := BodyBox(p);
    assert ZRun(b, x, y, -2) == [];
    assert |ZRun(b, x, y, -1)| == |Cell(b, x, y, -2)|;
    assert |ZRun(b, x, y, 0)| == |ZRun(b, x, y, -1)| + |Cell(b, x, y, -1)|;
    assert |ZRun(b, x, y, 1)| == |ZRun(b, x, y, 0)| + |Cell(b, x, y, 0)|;
    assert |ZRun(b, x, y, 2)| == |ZRun(b, x, y, 1)| + |Cell(b, x, y, 1)|;
    assert |ZRun(b, x, y, 3)| == |ZRun(b, x, y, 2)| + |Cell(b, x, y, 2)|;
  }

  lemma BodySliceCount(p: Palette, x: int)
    ensures |YRun(BodyBox(p), x, 3)| == if Abs(x) < 2 then 15 else 9
  {
    var b := BodyBox(p);
    BodyColumnCount(p, x, 0);
    BodyColumnCount(p, x, 1);
    BodyColumnCount(p, x, 2);
    assert YRun(b, x, 0) == [];
    assert |YRun(b, x, 1)| == |ZRun(b, x, 0, 3)|;
    assert |YRun(b, x, 2)| == |YRun(b, x, 1)| + |ZRun(b, x, 1, 3)|;
    assert |YRun(b, x, 3)| == |YRun(b, x, 2)| + |ZRun(b, x, 2, 3)|;
  }

  /** 5 x 3 x 5 cells less the four corner columns of height 3. */
  lemma BodyCount(p: Palette)
    ensures |Body(p)| == 63
  {
    var b := BodyBox(p);
    BodySliceCount(p, -2);
    BodySliceCount(p, -1);
    BodySliceCount(p, 0);
    BodySliceCount(p, 1);
    BodySliceCount(p, 2);
    assert XRun(b, -2) == [];
    assert |XRun(b, -1)| == |YRun(b, -2, 3)|;
    assert |XRun(b, 0)| == |XRun(b, -1)| + |YRun(b, -1, 3)|;
    assert |XRun(b, 1)| == |XRun(b, 0)| + |YRun(b, 0, 3)|;
    assert |XRun(b, 2)| == |XRun(b, 1)| + |YRun(b, 1, 3)|;
    assert |XRun(b, 3)| == |XRun(b, 2)| + |YRun(b, 2, 3)|;
  }

  // ---------------------------------------------------------------------
  // The whole mascot

  lemma ClawsSplit(p: Palette)
    ensures Claws(p) == Cells(ClawBox(p, -3, -4)) + Cells(ClawBox(p, 3, -4))
  {
    assert ClawsUpTo(p, 1) == Cells(ClawBox(p, -3, -4));
  }

  lemma TailCount(p: Palette)
    ensures |Tail(p)| == 8
  {
    assert |TailRow(p, 1, 2)| == 3;
    assert |TailRow(p, 2, 2)| == 3;
    assert |TailRow(p, 3, 1)| == 1;
    assert |TailRow(p, 4, 1)| == 1;
  }

  lemma ClawsCount(p: Palette)
    ensures |Claws(p)| == 18
  {
    ClawsSplit(p);
    CellsCount(ClawBox(p, -3, -4));
    CellsCount(ClawBox(p, 3, -4));
  }

  /** 8 tail, 63 body, 2 x 9 claw and 4 eye voxels: 93 in all. */
  lemma SegmentCounts(p: Palette)
    ensures |Tail(p)| == 8 && |Body(p)| == 63 && |Claws(p)| == 18 && |Eyes(p)| == 4
    ensures |Mascot(p)| == 93
  {
    TailCount(p);
    BodyCount(p);
    ClawsCount(p);
  }

  lemma BodyMembers(p: Palette, v: Voxel)
    ensures v in Body(p) <==> InBox(BodyBox(p), v)
  {
    CellsMembers(BodyBox(p), v);
  }

  lemma ClawsMembers(p: Palette, v: Voxel)
    ensures v in Claws(p) <==> InBox(ClawBox(p, -3, -4), v) || InBox(ClawBox(p, 3, -4), v)
  {
    ClawsSplit(p);
    CellsMembers(ClawBox(p, -3, -4), v);
    CellsMembers(ClawBox(p, 3, -4), v);
  }

  /** The list holds exactly the voxels the mascot's description names. */
  lemma MascotMembers(p: Palette, v: Voxel)
    ensures v in Mascot(p) <==> InMascot(p, v)
  {
    TailMembers(p, v);
    BodyMembers(p, v);
    ClawsMembers(p, v);
  }

  /** Every voxel is painted from the palette: primary for tail and body,
      dark for the claws, white and black for the eyes. */
  lemma PaletteOnly(p: Palette, v: Voxel)
    requires v in Mascot(p)
    ensures InPalette(p, v.color)
    ensures v in Tail(p) || v in Body(p) ==> v.color == p.primary
    ensures v in Claws(p) ==> v.color == p.dark
    ensures v in Eyes(p) ==> v.color == p.white || v.color == p.black
  {
    MascotMembers(p, v);
    TailMembers(p, v);
    BodyMembers(p, v);
    ClawsMembers(p, v);
  }

  /** The tail and the eyes float between grid heights, so they share no
      cell with the integer-height body and claws. */
  lemma OffGrid()
    ensures !IsInt(0.5) && !IsInt(2.5) && !IsInt(2.7)
  {
    assert (0.5).Floor == 0 && (2.5).Floor == 2 && (2.7).Floor == 2;
  }

  /** The segments share no voxel, whatever the colours: the tail and the
      eyes sit at different off-grid heights, and the claws lie in front of
      the body (z at most -4 against at least -2). */
  lemma SegmentsApart(p: Palette, v: Voxel)
    ensures v in Tail(p) ==> v !in Body(p) && v !in Claws(p) && v !in Eyes(p)
    ensures v in Body(p) ==> v !in Claws(p) && v !in Eyes(p)
    ensures v in Claws(p) ==> v !in Eyes(p)
  {
    TailMembers(p, v);
    BodyMembers(p, v);
    ClawsMembers(p, v);
    OffGrid();
  }

  lemma ClawsDistinct(p: Palette)
    ensures Distinct(Claws(p))
  {
    var c1 := Cells(ClawBox(p, -3, -4));
    var c2 := Cells(ClawBox(p, 3, -4));
    ClawsSplit(p);
    CellsDistinct(ClawBox(p, -3, -4));
    CellsDistinct(ClawBox(p, 3, -4));
    forall i | 0 <= i < |c1|
      ensures c1[i] !in c2
    {
      var v := c1[i];
      CellsMembers(ClawBox(p, -3, -4), v);
      CellsMembers(ClawBox(p, 3, -4), v);
    }
    DistinctAppend(c1, c2);
  }

  /** Four repeat-free lists, each sharing nothing with the ones after it,
      make a repeat-free concatenation. */
  lemma DistinctAppend4(a: seq<Voxel>, b: seq<Voxel>, c: seq<Voxel>, d: seq<Voxel>)
    requires Distinct(a) && Distinct(b) && Distinct(c) && Distinct(d)
    requires forall v :: v in a ==> v !in b && v !in c && v !in d
    requires forall v :: v in b ==> v !in c && v !in d
    requires forall v :: v in c ==> v !in d
    ensures Distinct(a + b + c + d)
  {
    DistinctAppend(a, b);
    var ab := a + b;
    forall i | 0 <= i < |ab|
      ensures ab[i] !in c
    {
      var v := ab[i];
      assert v in a || v in b;
    }
    DistinctAppend(ab, c);
    var abc := ab + c;
    forall i | 0 <= i < |abc|
      ensures abc[i] !in d
    {
      var v := abc[i];
      assert v in a || v in b || v in c;
    }
    DistinctAppend(abc, d);
  }

  /** No voxel is pushed twice. */
  lemma MascotDistinct(p: Palette)
    ensures Distinct(Mascot(p))
  {
    TailRowsDistinct(p, 5);
    CellsDistinct(BodyBox(p));
    ClawsDistinct(p);
    forall v | v in Tail(p)
      ensures v !in Body(p) && v !in Claws(p) && v !in Eyes(p)
    {
      SegmentsApart(p, v);
    }
    forall v | v in Body(p)
      ensures v !in Claws(p) && v !in Eyes(p)
    {
      SegmentsApart(p, v);
    }
    forall v | v in Claws(p)
      ensures v !in Eyes(p)
    {
      SegmentsApart(p, v);
    }
    DistinctAppend4(Tail(p), Body(p), Claws(p), Eyes(p));
  }

  lemma TailMirror(p: Palette, v: Voxel)
    requires InTail(p, v)
    ensures InTail(p, Mirror(v))
  {
    NegIsInt(v.x);
  }

  /** Reflecting any voxel of the mascot in the plane x = 0 gives a voxel of
      the mascot: the tail rows and the body are centred, and the two claws
      are each other's image. */
  lemma MascotMirrorClosed(p: Palette, v: Voxel)
    requires v in Mascot(p)
    ensures Mirror(v) in Mascot(p)
  {
    MascotMembers(p, v);
    MascotMembers(p, Mirror(v));
    if InTail(p, v) {
      TailMirror(p, v);
    } else if InBox(BodyBox(p), v) {
      InBoxMirror(BodyBox(p), v);
      assert MirrorBox(BodyBox(p)) == BodyBox(p);
    } else if InBox(ClawBox(p, -3, -4), v) {
      InBoxMirror(ClawBox(p, -3, -4), v);
      assert MirrorBox(ClawBox(p, -3, -4)) == ClawBox(p, 3, -4);
    } else if InBox(ClawBox(p, 3, -4), v) {
      InBoxMirror(ClawBox(p, 3, -4), v);
      assert MirrorBox(ClawBox(p, 3, -4)) == ClawBox(p, -3, -4);
    }
  }

  /** The mascot is symmetric about the plane x = 0: as a multiset of
      voxels it equals its own mirror image. */
  lemma MascotSymmetric(p: Palette)
    ensures multiset(MirrorAll(Mascot(p))) == multiset(Mascot(p))
  {
    MascotDistinct(p);
    forall v | v in Mascot(p)
      ensures Mirror(v) in Mascot(p)
    {
      MascotMirrorClosed(p, v);
    }
    MirrorSymmetric(Mascot(p));
  }

  /** The segments come in push order: indices 0-7 are tail, 8-70 body,
      71-79 the left claw, 80-88 the right claw and 89-92 the eyes. */
  lemma SegmentOrder(p: Palette, i: int)
    requires 0 <= i < 93
    ensures |Mascot(p)| == 93
    ensures i < 8 ==> InTail(p, Mascot(p)[i])
    ensures 8 <= i < 71 ==> InBox(BodyBox(p), Mascot(p)[i])
    ensures 71 <= i < 80 ==> InBox(ClawBox(p, -3, -4), Mascot(p)[i])
    ensures 80 <= i < 89 ==> InBox(ClawBox(p, 3, -4), Mascot(p)[i])
    ensures 89 <= i ==> Mascot(p)[i] == Eyes(p)[i - 89]
  {
    SegmentCounts(p);
    ClawsSplit(p);
    CellsCount(ClawBox(p, -3, -4));
    var s := Mascot(p);
    if i < 8 {
      assert s[i] == Tail(p)[i];
      TailMembers(p, s[i]);
    } else if i < 71 {
      assert s[i] == Body(p)[i - 8];
      CellsMembers(BodyBox(p), s[i]);
    } else if i < 80 {
      assert s[i] == Cells(ClawBox(p, -3, -4))[i - 71];
      CellsMembers(ClawBox(p, -3, -4), s[i]);
    } else if i < 89 {
      assert s[i] == Cells(ClawBox(p, 3, -4))[i - 80];
      CellsMembers(ClawBox(p, 3, -4), s[i]);
    }
  }

  // ---------------------------------------------------------------------
  // The builder

  /** The tail loops: z from 1 to 4, and for each z the row loop. */
  method PushTail(p: Palette) returns (data: seq<Voxel>)
    ensures data == Tail(p)
  {
    data := [];
    var z := 1;
    while z <= 4
      invariant 1 <= z <= 5
      invariant data == TailRows(p, z)
    {
      data := PushTailRow(data, p, z);
      z := z + 1;
    }
  }

  /** The inner tail loop: x from -floor(w / 2) to floor(w / 2) with
      w = 4 - z. */
  method PushTailRow(data0: seq<Voxel>, p: Palette, z: int) returns (data: seq<Voxel>)
    requires 1 <= z <= 4
    ensures data == data0 + TailRow(p, z, TailHalfWidth(z) + 1)
  {
    var w := 4 - z;
    var half := w / 2;
    data := data0;
    var x := -half;
    while x <= half
      invariant -half <= x <= half + 1
      invariant data == data0 + TailRow(p, z, x)
    {
      data := data + [Voxel(x as real, 0.5, (z + 2) as real, p.primary)];
      x := x + 1;
    }
  }

  /** The inner claw loop: z from cz - 2 to cz at (x, 1). */
  method PushClawColumn(data0: seq<Voxel>, p: Palette, cx: int, cz: int, x: int)
    returns (data: seq<Voxel>)
    ensures data == data0 + ZRun(ClawBox(p, cx, cz), x, 1, cz + 1)
  {
    data := data0;
    var z := cz - 2;
    while z <= cz
      invariant cz - 2 <= z <= cz + 1
      invariant data == data0 + ZRun(ClawBox(p, cx, cz), x, 1, z)
    {
      data := data + [Voxel(x as real, 1.0, z as real, p.dark)];
      z := z + 1;
    }
  }

  /** A claw has a single layer: slice x is just its z column at y = 1. */
  lemma ClawSlice(p: Palette, cx: int, cz: int, x: int)
    requires cx - 1 <= x
    ensures XRun(ClawBox(p, cx, cz), x + 1)
         == XRun(ClawBox(p, cx, cz), x) + ZRun(ClawBox(p, cx, cz), x, 1, cz + 1)
  {
    var b := ClawBox(p, cx, cz);
    assert YRun(b, x, 1) == [];
    assert YRun(b, x, 2) == ZRun(b, x, 1, cz + 1);
  }

  /** One claw: x from cx - 1 to cx + 1 and, for each x, the z loop. The
      claw has a single layer, so no y loop is needed to match the box. */
  method PushClaw(data0: seq<Voxel>, p: Palette, cx: int, cz: int) returns (data: seq<Voxel>)
    ensures data == data0 + Cells(ClawBox(p, cx, cz))
  {
    ghost var b := ClawBox(p, cx, cz);
    data := data0;
    var x := cx - 1;
    assert XRun(b, x) == [];
    while x <= cx + 1
      invariant cx - 1 <= x <= cx + 2
      invariant data == data0 + XRun(b, x)
    {
      data := PushClawColumn(data, p, cx, cz, x);
      ClawSlice(p, cx, cz, x);
      AppendAssoc(data0, XRun(b, x), ZRun(b, x, 1, cz + 1));
      x := x + 1;
    }
    assert Cells(b) == XRun(b, x);
  }

  /** The claw loop: one claw per centre, in order. */
  method PushClaws(data0: seq<Voxel>, p: Palette) returns (data: seq<Voxel>)
    ensures data == data0 + Claws(p)
  {
    data := data0;
    var i := 0;
    while i < |ClawCentres|
      invariant 0 <= i <= |ClawCentres|
      invariant data == data0 + ClawsUpTo(p, i)
    {
      var (cx, cz) := ClawCentres[i];
      data := PushClaw(data, p, cx, cz);
      i := i + 1;
    }
  }

  /** The count, palette and symmetry of the finished list together. */
  lemma MascotFacts(p: Palette)
    ensures |Mascot(p)| == 93
    ensures forall i :: 0 <= i < |Mascot(p)| ==> InPalette(p, Mascot(p)[i].color)
    ensures multiset(MirrorAll(Mascot(p))) == multiset(Mascot(p))
  {
    SegmentCounts(p);
    var s := Mascot(p);
    forall i | 0 <= i < |s|
      ensures InPalette(p, s[i].color)
    {
      PaletteOnly(p, s[i]);
    }
    MascotSymmetric(p);
  }

  /** The `voxels` memo: tail, body, claws, then the four eye cubes. */
  method BuildMascot(p: Palette) returns (data: seq<Voxel>)
    ensures data == Mascot(p)
    ensures |data| == 93
    ensures forall i :: 0 <= i < |data| ==> InPalette(p, data[i].color)
    ensures multiset(MirrorAll(data)) == multiset(data)
  {
    data := PushTail(p);
    data := AppendBox(data, BodyBox(p));
    data := PushClaws(data, p);
    var front := data;
    data := data + [Voxel(-1.0, 2.5, -2.0, p.white)];
    data := data + [Voxel(1.0, 2.5, -2.0, p.white)];
    data := data + [Voxel(-1.0, 2.7, -2.2, p.black)];
    data := data + [Voxel(1.0, 2.7, -2.2, p.black)];
    assert data == front + Eyes(p);
    MascotFacts(p);
  }
}
