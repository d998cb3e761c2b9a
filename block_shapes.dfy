/**
 * components/game/block-shapes.ts: the table of 34 base shapes, the difficulty step by score, the
 * pool chosen for a random draw, the dealing loop and the bounding box of a shape.
 *
 * `Math.random()` is replaced by explicit draws: exact reals in [0, 1), one pair per dealt shape
 * (the pool draw, then the index draw). `Date.now()` is the string `ts`.
 */
module BlockShapes {
  import opened JsString

  datatype Complexity = Simple | Medium | Complex

  /** A cell offset `[row, col]`. */
  datatype Offset = Offset(row: int, col: int)

  /** A table entry: a shape without its id. */
  datatype BaseShape = BaseShape(name: string, cells: seq<Offset>, color: string, complexity: Complexity)

  datatype BlockShape = BlockShape(id: string, name: string, cells: seq<Offset>, color: string, complexity: Complexity)

  /** The entries of `baseShapes`, each under its own name. */
  const Single := BaseShape("single", [Offset(0, 0)], "from-red-500 to-red-600", Simple)
  const Horizontal2 := BaseShape("horizontal2", [Offset(0, 0), Offset(0, 1)], "from-orange-500 to-orange-600", Simple)
  const Vertical2 := BaseShape("vertical2", [Offset(0, 0), Offset(1, 0)], "from-amber-500 to-amber-600", Simple)
  const Horizontal3 := BaseShape("horizontal3", [Offset(0, 0), Offset(0, 1), Offset(0, 2)], "from-yellow-500 to-yellow-600", Simple)
  const Vertical3 := BaseShape("vertical3", [Offset(0, 0), Offset(1, 0), Offset(2, 0)], "from-lime-500 to-lime-600", Simple)
  const Square2 := BaseShape("square2", [Offset(0, 0), Offset(0, 1), Offset(1, 0), Offset(1, 1)], "from-sky-500 to-sky-600", Simple)
  const Corner1 := BaseShape("corner1", [Offset(0, 0), Offset(0, 1), Offset(1, 0)], "from-blue-400 to-blue-500", Simple)
  const Corner2 := BaseShape("corner2", [Offset(0, 0), Offset(0, 1), Offset(1, 1)], "from-indigo-400 to-indigo-500", Simple)
  const Corner3 := BaseShape("corner3", [Offset(0, 1), Offset(1, 0), Offset(1, 1)], "from-violet-400 to-violet-500", Simple)
  const Corner4 := BaseShape("corner4", [Offset(0, 0), Offset(1, 0), Offset(1, 1)], "from-purple-400 to-purple-500", Simple)
  const Horizontal4 := BaseShape("horizontal4", [Offset(0, 0), Offset(0, 1), Offset(0, 2), Offset(0, 3)], "from-green-500 to-green-600", Medium)
  const Vertical4 := BaseShape("vertical4", [Offset(0, 0), Offset(1, 0), Offset(2, 0), Offset(3, 0)], "from-emerald-500 to-emerald-600", Medium)
  const L1 := BaseShape("L1", [Offset(0, 0), Offset(1, 0), Offset(2, 0), Offset(2, 1)], "from-indigo-500 to-indigo-600", Medium)
  const L2 := BaseShape("L2", [Offset(0, 0), Offset(0, 1), Offset(0, 2), Offset(1, 0)], "from-violet-500 to-violet-600", Medium)
  const L3 := BaseShape("L3", [Offset(0, 0), Offset(0, 1), Offset(1, 1), Offset(2, 1)], "from-purple-500 to-purple-600", Medium)
  const L4 := BaseShape("L4", [Offset(0, 2), Offset(1, 0), Offset(1, 1), Offset(1, 2)], "from-fuchsia-500 to-fuchsia-600", Medium)
  const J1 := BaseShape("J1", [Offset(0, 1), Offset(1, 1), Offset(2, 0), Offset(2, 1)], "from-pink-500 to-pink-600", Medium)
  const J2 := BaseShape("J2", [Offset(0, 0), Offset(1, 0), Offset(1, 1), Offset(1, 2)], "from-rose-500 to-rose-600", Medium)
  const J3 := BaseShape("J3", [Offset(0, 0), Offset(0, 1), Offset(1, 0), Offset(2, 0)], "from-red-400 to-red-500", Medium)
  const J4 := BaseShape("J4", [Offset(0, 0), Offset(0, 1), Offset(0, 2), Offset(1, 2)], "from-orange-400 to-orange-500", Medium)
  const T1 := BaseShape("T1", [Offset(0, 0), Offset(0, 1), Offset(0, 2), Offset(1, 1)], "from-amber-400 to-amber-500", Medium)
  const T2 := BaseShape("T2", [Offset(0, 0), Offset(1, 0), Offset(1, 1), Offset(2, 0)], "from-yellow-400 to-yellow-500", Medium)
  const T3 := BaseShape("T3", [Offset(0, 1), Offset(1, 0), Offset(1, 1), Offset(1, 2)], "from-lime-400 to-lime-500", Medium)
  const T4 := BaseShape("T4", [Offset(0, 1), Offset(1, 0), Offset(1, 1), Offset(2, 1)], "from-green-400 to-green-500", Medium)
  const S1 := BaseShape("S1", [Offset(0, 1), Offset(0, 2), Offset(1, 0), Offset(1, 1)], "from-emerald-400 to-emerald-500", Medium)
  const S2 := BaseShape("S2", [Offset(0, 0), Offset(1, 0), Offset(1, 1), Offset(2, 1)], "from-teal-400 to-teal-500", Medium)
  const Z1 := BaseShape("Z1", [Offset(0, 0), Offset(0, 1), Offset(1, 1), Offset(1, 2)], "from-cyan-400 to-cyan-500", Medium)
  const Z2 := BaseShape("Z2", [Offset(0, 1), Offset(1, 0), Offset(1, 1), Offset(2, 0)], "from-sky-400 to-sky-500", Medium)
  const Horizontal5 := BaseShape("horizontal5", [Offset(0, 0), Offset(0, 1), Offset(0, 2), Offset(0, 3), Offset(0, 4)], "from-teal-500 to-teal-600", Complex)
  const Vertical5 := BaseShape("vertical5", [Offset(0, 0), Offset(1, 0), Offset(2, 0), Offset(3, 0), Offset(4, 0)], "from-cyan-500 to-cyan-600", Complex)
  const Square3 := BaseShape("square3", [Offset(0, 0), Offset(0, 1), Offset(0, 2), Offset(1, 0), Offset(1, 1), Offset(1, 2), Offset(2, 0), Offset(2, 1), Offset(2, 2)], "from-blue-500 to-blue-600", Complex)
  const BigL1 := BaseShape("bigL1", [Offset(0, 0), Offset(1, 0), Offset(2, 0), Offset(3, 0), Offset(3, 1)], "from-indigo-600 to-purple-600", Complex)
  const BigL2 := BaseShape("bigL2", [Offset(0, 0), Offset(0, 1), Offset(0, 2), Offset(0, 3), Offset(1, 0)], "from-purple-600 to-pink-600", Complex)
  const Plus := BaseShape("plus", [Offset(0, 1), Offset(1, 0), Offset(1, 1), Offset(1, 2), Offset(2, 1)], "from-rose-500 to-red-600", Complex)

  /** The first part of the table, rated simple. */
  const SIMPLE_SHAPES: seq<BaseShape> := [Single, Horizontal2, Vertical2, Horizontal3, Vertical3, Square2, Corner1, Corner2, Corner3, Corner4]

  /** The second part of the table, rated medium. */
  const MEDIUM_SHAPES: seq<BaseShape> := [Horizontal4, Vertical4, L1, L2, L3, L4, J1, J2, J3, J4, T1, T2, T3, T4, S1, S2, Z1, Z2]

  /** The last part of the table, rated complex. */
  const COMPLEX_SHAPES: seq<BaseShape> := [Horizontal5, Vertical5, Square3, BigL1, BigL2, Plus]

  /** `baseShapes`, in the order of the table. */
  const BASE_SHAPES: seq<BaseShape> := SIMPLE_SHAPES + MEDIUM_SHAPES + COMPLEX_SHAPES

  // ---------------------------------------------------------------- the table

  predicate InBox(o: Offset)
  {
    0 <= o.row <= 4 && 0 <= o.col <= 4
  }

  /** No offset is negative or beyond 4 and no cell appears twice. */
  predicate WellFormedCells(cells: seq<Offset>)
  {
    && (forall k :: 0 <= k < |cells| ==> InBox(cells[k]))
    && (forall i, j :: 0 <= i < j < |cells| ==> cells[i] != cells[j])
  }

  /** Whether `a` comes before `b` when the grid is read row by row, left to right. */
  predicate Before(a: Offset, b: Offset)
  {
    a.row < b.row || (a.row == b.row && a.col < b.col)
  }

  /** How the table lists cells: offsets in 0..4, row by row and left to right. */
  predicate Listed(cells: seq<Offset>)
  {
    |cells| > 0 && AllInBox(cells) && Increasing(cells)
  }

  predicate AllInBox(cells: seq<Offset>)
  {
    forall k :: 0 <= k < |cells| ==> InBox(cells[k])
  }

  /** Each cell comes before the next one. */
  predicate Increasing(cells: seq<Offset>)
  {
    forall i, j :: 0 <= i < |cells| && 0 <= j < |cells| && j == i + 1 ==> Before(cells[i], cells[j])
  }

  lemma {:induction false} ListedIncreasing(cells: seq<Offset>, i: int, j: int)
    requires Listed(cells) && 0 <= i < j < |cells|
    ensures Before(cells[i], cells[j])
    decreases j - i
  {
    if i + 1 < j {
      ListedIncreasing(cells, i + 1, j);
    }
  }

  /** Cells listed in order are distinct. */
  lemma ListedWellFormed(cells: seq<Offset>)
    requires Listed(cells)
    ensures WellFormedCells(cells)
  {
    forall i, j | 0 <= i < j < |cells| ensures cells[i] != cells[j] {
      ListedIncreasing(cells, i, j);
    }
  }

  predicate WellFormedTable(shapes: seq<BaseShape>)
  {
    forall k :: 0 <= k < |shapes| ==> |shapes[k].cells| > 0 && WellFormedCells(shapes[k].cells)
  }

  predicate ListedTable(shapes: seq<BaseShape>)
  {
    forall k :: 0 <= k < |shapes| ==> Listed(shapes[k].cells)
  }

  predicate AllOf(shapes: seq<BaseShape>, c: Complexity)
  {
    forall k :: 0 <= k < |shapes| ==> shapes[k].complexity == c
  }

  /** Each part of the table holds shapes of its own rating only. */
  lemma PartsRated()
    ensures AllOf(SIMPLE_SHAPES, Simple) && AllOf(MEDIUM_SHAPES, Medium) && AllOf(COMPLEX_SHAPES, Complex)
  {
  }

  lemma SimpleListed()
    ensures ListedTable(SIMPLE_SHAPES)
  {
    SmallListed();
    ThreesListed();
    CornersListed();
  }

  lemma MediumListed()
    ensures ListedTable(MEDIUM_SHAPES)
  {
    FoursListed();
    LListed();
    JListed();
    TListed();
    SZListed();
  }

  lemma ComplexListed()
    ensures ListedTable(COMPLEX_SHAPES)
  {
    FivesListed();
    SquareListed();
    BigListed();
  }

  // One lemma per family of shapes keeps each proof small. The lemmas below state `Listed` for
  // lists of each length that occurs in the table, from facts about the cells one by one.

  lemma ListedOf1(c: seq<Offset>)
    requires |c| == 1
    requires InBox(c[0])
    ensures Listed(c)
  {
  }

  lemma ListedOf2(c: seq<Offset>)
    requires |c| == 2
    requires InBox(c[0]) && InBox(c[1])
    requires Before(c[0], c[1])
    ensures Listed(c)
  {
  }

  lemma ListedOf3(c: seq<Offset>)
    requires |c| == 3
    requires InBox(c[0]) && InBox(c[1]) && InBox(c[2])
    requires Before(c[0], c[1]) && Before(c[1], c[2])
    ensures Listed(c)
  {
  }

  lemma ListedOf4(c: seq<Offset>)
    requires |c| == 4
    requires InBox(c[0]) && InBox(c[1]) && InBox(c[2]) && InBox(c[3])
    requires Before(c[0], c[1]) && Before(c[1], c[2]) && Before(c[2], c[3])
    ensures Listed(c)
  {
  }

  lemma ListedOf5(c: seq<Offset>)
    requires |c| == 5
    requires InBox(c[0]) && InBox(c[1]) && InBox(c[2]) && InBox(c[3]) && InBox(c[4])
    requires Before(c[0], c[1]) && Before(c[1], c[2]) && Before(c[2], c[3]) && Before(c[3], c[4])
    ensures Listed(c)
  {
  }

  lemma ListedOf9(c: seq<Offset>)
    requires |c| == 9
    requires InBox(c[0]) && InBox(c[1]) && InBox(c[2]) && InBox(c[3]) && InBox(c[4]) && InBox(c[5]) && InBox(c[6]) && InBox(c[7]) && InBox(c[8])
    requires Before(c[0], c[1]) && Before(c[1], c[2]) && Before(c[2], c[3]) && Before(c[3], c[4]) && Before(c[4], c[5]) && Before(c[5], c[6]) && Before(c[6], c[7]) && Before(c[7], c[8])
    ensures Listed(c)
  {
  }

  lemma SmallListed()
    ensures Listed(Single.cells) && Listed(Horizontal2.cells) && Listed(Vertical2.cells)
  {
    ListedOf1(Single.cells);
    ListedOf2(Horizontal2.cells);
    ListedOf2(Vertical2.cells);
  }

  lemma ThreesListed()
    ensures Listed(Horizontal3.cells) && Listed(Vertical3.cells) && Listed(Square2.cells)
  {
    ListedOf3(Horizontal3.cells);
    ListedOf3(Vertical3.cells);
    ListedOf4(Square2.cells);
  }

  lemma CornersListed()
    ensures Listed(Corner1.cells) && Listed(Corner2.cells) && Listed(Corner3.cells) && Listed(Corner4.cells)
  {
    ListedOf3(Corner1.cells);
    ListedOf3(Corner2.cells);
    ListedOf3(Corner3.cells);
    ListedOf3(Corner4.cells);
  }

  lemma FoursListed()
    ensures Listed(Horizontal4.cells) && Listed(Vertical4.cells)
  {
    ListedOf4(Horizontal4.cells);
    ListedOf4(Vertical4.cells);
  }

  lemma LListed()
    ensures Listed(L1.cells) && Listed(L2.cells) && Listed(L3.cells) && Listed(L4.cells)
  {
    ListedOf4(L1.cells);
    ListedOf4(L2.cells);
    ListedOf4(L3.cells);
    ListedOf4(L4.cells);
  }

  lemma JListed()
    ensures Listed(J1.cells) && Listed(J2.cells) && Listed(J3.cells) && Listed(J4.cells)
  {
    ListedOf4(J1.cells);
    ListedOf4(J2.cells);
    ListedOf4(J3.cells);
    ListedOf4(J4.cells);
  }

  lemma TListed()
    ensures Listed(T1.cells) && Listed(T2.cells) && Listed(T3.cells) && Listed(T4.cells)
  {
    ListedOf4(T1.cells);
    ListedOf4(T2.cells);
    ListedOf4(T3.cells);
    ListedOf4(T4.cells);
  }

  lemma SZListed()
    ensures Listed(S1.cells) && Listed(S2.cells) && Listed(Z1.cells) && Listed(Z2.cells)
  {
    ListedOf4(S1.cells);
    ListedOf4(S2.cells);
    ListedOf4(Z1.cells);
    ListedOf4(Z2.cells);
  }

  lemma FivesListed()
    ensures Listed(Horizontal5.cells) && Listed(Vertical5.cells)
  {
    ListedOf5(Horizontal5.cells);
    ListedOf5(Vertical5.cells);
  }

  lemma SquareListed()
    ensures Listed(Square3.cells)
  {
    ListedOf9(Square3.cells);
  }

  lemma BigListed()
    ensures Listed(BigL1.cells) && Listed(BigL2.cells) && Listed(Plus.cells)
  {
    ListedOf5(BigL1.cells);
    ListedOf5(BigL2.cells);
    ListedOf5(Plus.cells);
  }

  /** Every base shape has at least one cell, all offsets lie in 0..4 and no cell repeats. */
  lemma BaseShapesWellFormed()
    ensures |BASE_SHAPES| == 34
    ensures WellFormedTable(BASE_SHAPES)
  {
    SimpleListed();
    MediumListed();
    ComplexListed();
    forall k | 0 <= k < |BASE_SHAPES| ensures |BASE_SHAPES[k].cells| > 0 && WellFormedCells(BASE_SHAPES[k].cells) {
      if k < 10 {
        assert BASE_SHAPES[k] == SIMPLE_SHAPES[k];
      } else if k < 28 {
        assert BASE_SHAPES[k] == MEDIUM_SHAPES[k - 10];
      } else {
        assert BASE_SHAPES[k] == COMPLEX_SHAPES[k - 28];
      }
      ListedWellFormed(BASE_SHAPES[k].cells);
    }
  }

  // ---------------------------------------------------------------- the pools

  /** `shapes.filter((s) => s.complexity === c)` */
  function Filter(shapes: seq<BaseShape>, c: Complexity): seq<BaseShape>
  {
    if shapes == [] then []
    else (if shapes[0].complexity == c then [shapes[0]] else []) + Filter(shapes[1..], c)
  }

  lemma {:induction false} FilterAppend(a: seq<BaseShape>, b: seq<BaseShape>, c: Complexity)
    ensures Filter(a + b, c) == Filter(a, c) + Filter(b, c)
  {
    if a != [] {
      assert (a + b)[1..] == a[1..] + b;
      FilterAppend(a[1..], b, c);
    } else {
      assert a + b == b;
    }
  }

  lemma {:induction false} FilterAllOf(shapes: seq<BaseShape>, c: Complexity, d: Complexity)
    requires AllOf(shapes, c)
    ensures Filter(shapes, d) == if c == d then shapes else []
  {
    if shapes != [] {
      FilterAllOf(shapes[1..], c, d);
      assert shapes == [shapes[0]] + shapes[1..];
    }
  }

  /** `baseShapes.filter((s) => s.complexity === c)` */
  function Pool(c: Complexity): seq<BaseShape>
  {
    Filter(BASE_SHAPES, c)
  }

  lemma PoolSplit(c: Complexity)
    ensures Pool(c) == Filter(SIMPLE_SHAPES, c) + Filter(MEDIUM_SHAPES, c) + Filter(COMPLEX_SHAPES, c)
  {
    FilterAppend(SIMPLE_SHAPES + MEDIUM_SHAPES, COMPLEX_SHAPES, c);
    FilterAppend(SIMPLE_SHAPES, MEDIUM_SHAPES, c);
  }

  /** Each pool is its own part of the table: 10 simple, 18 medium and 6 complex shapes. */
  lemma PoolContents()
    ensures Pool(Simple) == SIMPLE_SHAPES && Pool(Medium) == MEDIUM_SHAPES && Pool(Complex) == COMPLEX_SHAPES
    ensures |Pool(Simple)| == 10 && |Pool(Medium)| == 18 && |Pool(Complex)| == 6
  {
    PartsRated();
    SimplePool();
    MediumPool();
    ComplexPool();
  }

  lemma SimplePool()
    requires AllOf(SIMPLE_SHAPES, Simple) && AllOf(MEDIUM_SHAPES, Medium) && AllOf(COMPLEX_SHAPES, Complex)
    ensures Pool(Simple) == SIMPLE_SHAPES
  {
    PoolSplit(Simple);
    FilterAllOf(SIMPLE_SHAPES, Simple, Simple);
    FilterAllOf(MEDIUM_SHAPES, Medium, Simple);
    FilterAllOf(COMPLEX_SHAPES, Complex, Simple);
  }

  lemma MediumPool()
    requires AllOf(SIMPLE_SHAPES, Simple) && AllOf(MEDIUM_SHAPES, Medium) && AllOf(COMPLEX_SHAPES, Complex)
    ensures Pool(Medium) == MEDIUM_SHAPES
  {
    PoolSplit(Medium);
    FilterAllOf(SIMPLE_SHAPES, Simple, Medium);
    FilterAllOf(MEDIUM_SHAPES, Medium, Medium);
    FilterAllOf(COMPLEX_SHAPES, Complex, Medium);
  }

  lemma ComplexPool()
    requires AllOf(SIMPLE_SHAPES, Simple) && AllOf(MEDIUM_SHAPES, Medium) && AllOf(COMPLEX_SHAPES, Complex)
    ensures Pool(Complex) == COMPLEX_SHAPES
  {
    PoolSplit(Complex);
    FilterAllOf(SIMPLE_SHAPES, Simple, Complex);
    FilterAllOf(MEDIUM_SHAPES, Medium, Complex);
    FilterAllOf(COMPLEX_SHAPES, Complex, Complex);
  }

  // ---------------------------------------------------------------- difficulty

  /** The share of non-simple draws for a score: a step up at 2000, 5000, 8000, 11000 and 15000. */
  function ComplexPercent(score: int): real
  {
    if score <= 2000 then 0.25
    else if score <= 5000 then 0.35
    else if score <= 8000 then 0.5
    else if score <= 11000 then 0.65
    else if score <= 15000 then 0.85
    else 0.9
  }

  /** A higher score never makes the deal easier, the share stays between 25 and 90 per cent, and
      the default score 0 is in the easiest tier. */
  lemma ComplexPercentMonotone(a: int, b: int)
    requires a <= b
    ensures ComplexPercent(a) <= ComplexPercent(b)
    ensures 0.25 <= ComplexPercent(a) <= 0.9
    ensures ComplexPercent(0) == 0.25
  {
  }

  /** The pool a draw `rand` selects: below `0.4 * cp` complex, below `cp` medium, else simple. */
  function PoolFor(rand: real, cp: real): (c: Complexity)
    ensures c == Complex <==> rand < cp * 0.4
    ensures c == Medium <==> cp * 0.4 <= rand < cp
    ensures c == Simple <==> !(rand < cp * 0.4) && !(rand < cp)
  {
    if rand < cp * 0.4 then Complex
    else if rand < cp then Medium
    else Simple
  }

  /** `Math.floor(r * n)` for a draw `r` in [0, 1): always an index of a list of length `n > 0`. */
  function PickIndex(r: real, n: nat): (k: int)
    requires 0.0 <= r < 1.0
    ensures n > 0 ==> 0 <= k < n
  {
    PickInRange(r, n);
    (r * n as real).Floor
  }

  lemma PickInRange(r: real, n: nat)
    requires 0.0 <= r < 1.0
    ensures n > 0 ==> 0 <= (r * n as real).Floor < n
  {
    if n > 0 {
      assert 0.0 <= r * n as real;
      assert r * n as real < n as real;
    }
  }

  /** The `i`-th shape dealt for the draw pair `draw` at complexity share `cp`. */
  function Dealt(draw: (real, real), cp: real, ts: string, i: nat): (s: BlockShape)
    requires 0.0 <= draw.0 < 1.0 && 0.0 <= draw.1 < 1.0
    ensures FromTable(s)
    ensures s.complexity == PoolFor(draw.0, cp)
    ensures s.id == s.name + "-" + ts + "-" + NatToString(i)
  {
    var c := PoolFor(draw.0, cp);
    PoolContents();
    var k := PickIndex(draw.1, |Pool(c)|);
    var b := Pool(c)[k];
    PoolMember(c, k);
    BlockShape(b.name + "-" + ts + "-" + NatToString(i), b.name, b.cells, b.color, b.complexity)
  }

  /** `{ ...base, id }`: the same name, cells, colour and rating. */
  predicate Copies(s: BlockShape, base: BaseShape)
  {
    s.name == base.name && s.cells == base.cells && s.color == base.color && s.complexity == base.complexity
  }

  /** A copy of one of the base shapes. */
  predicate FromTable(s: BlockShape)
  {
    exists k :: 0 <= k < |BASE_SHAPES| && Copies(s, BASE_SHAPES[k])
  }

  /** A pool's members are base shapes of the pool's rating. */
  lemma PoolMember(c: Complexity, k: int)
    requires 0 <= k < |Pool(c)|
    ensures Pool(c)[k].complexity == c
    ensures exists j :: 0 <= j < |BASE_SHAPES| && BASE_SHAPES[j] == Pool(c)[k]
  {
    PoolContents();
    PartsRated();
    match c
    case Simple =>
      assert BASE_SHAPES[k] == SIMPLE_SHAPES[k];
    case Medium =>
      assert BASE_SHAPES[10 + k] == MEDIUM_SHAPES[k];
    case Complex =>
      assert BASE_SHAPES[28 + k] == COMPLEX_SHAPES[k];
  }

  // ---------------------------------------------------------------- dealing

  /** `getRandomShapes(count, score)`, with `draws[i]` the two `Math.random()` values of the `i`-th
      shape and `ts` the printed `Date.now()`. */
  method GetRandomShapes(count: nat, score: int, draws: seq<(real, real)>, ts: string) returns (shapes: seq<BlockShape>)
    requires |draws| >= count
    requires forall i :: 0 <= i < |draws| ==> 0.0 <= draws[i].0 < 1.0 && 0.0 <= draws[i].1 < 1.0
    ensures |shapes| == count
    ensures forall i :: 0 <= i < count ==> shapes[i] == Dealt(draws[i], ComplexPercent(score), ts, i)
    ensures forall i :: 0 <= i < count ==> FromTable(shapes[i])
    ensures forall i :: 0 <= i < count ==> shapes[i].complexity == PoolFor(draws[i].0, ComplexPercent(score))
    ensures forall i :: 0 <= i < count ==> shapes[i].id == shapes[i].name + "-" + ts + "-" + NatToString(i)
  {
    var cp := ComplexPercent(score);
    shapes := [];
    var i := 0;
    while i < count
      invariant 0 <= i <= count
      invariant |shapes| == i
      invariant forall j :: 0 <= j < i ==> shapes[j] == Dealt(draws[j], cp, ts, j)
    {
      shapes := shapes + [Dealt(draws[i], cp, ts, i)];
      i := i + 1;
    }
  }

  // ---------------------------------------------------------------- bounding box

  /** `getShapeSize(shape)`: one more than the largest column and row, each taken from 0. */
  method GetShapeSize(shape: BlockShape) returns (width: int, height: int)
    ensures width >= 1 && height >= 1
    ensures forall k :: 0 <= k < |shape.cells| ==> shape.cells[k].col < width && shape.cells[k].row < height
    ensures width == 1 || exists k :: 0 <= k < |shape.cells| && shape.cells[k].col == width - 1
    ensures height == 1 || exists k :: 0 <= k < |shape.cells| && shape.cells[k].row == height - 1
  {
    var maxRow := 0;
    var maxCol := 0;
    for i := 0 to |shape.cells|
      invariant maxRow >= 0 && maxCol >= 0
      invariant forall k :: 0 <= k < i ==> shape.cells[k].col <= maxCol && shape.cells[k].row <= maxRow
      invariant maxCol == 0 || exists k :: 0 <= k < i && shape.cells[k].col == maxCol
      invariant maxRow == 0 || exists k :: 0 <= k < i && shape.cells[k].row == maxRow
    {
      maxRow := if shape.cells[i].row > maxRow then shape.cells[i].row else maxRow;
      maxCol := if shape.cells[i].col > maxCol then shape.cells[i].col else maxCol;
    }
    width := maxCol + 1;
    height := maxRow + 1;
  }
}
