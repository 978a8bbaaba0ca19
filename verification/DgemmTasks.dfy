/** The handlers of the blocked product as the program runs them: on arrays, in place. */
module DgemmTasks {

  import opened Common
  import opened Tiles
  import opened BlockedProduct

  // ----- flat indices -------------------------------------------------------------------

  /** Where row `i`, column `j` of a grid with `n` columns is stored. */
  function Flat(i: nat, j: nat, n: nat): nat { i * n + j }

  lemma FlatInside(i: nat, j: nat, m: nat, n: nat)
    requires i < m && j < n
    ensures Flat(i, j, n) < Times(m, n)
  {
    ProductGap(n, i, m);
    assert i * n == n * i && m * n == n * m;
  }

  lemma FlatIsUnique(i: nat, j: nat, i': nat, j': nat, n: nat)
    requires j < n && j' < n && Flat(i, j, n) == Flat(i', j', n)
    ensures i == i' && j == j'
  {
    assert i * n == n * i && i' * n == n * i';
    ProductGap(n, i, i');
    ProductGap(n, i', i);
  }

  // ----- the product state ----------------------------------------------------------------

  /** A slot for each place of an m by n grid; the tiles present are those of `held`. */
  ghost predicate Slots(slots: array<Option<Tile>>, held: map<Place, Tile>, m: nat, n: nat)
    reads slots
  {
    && slots.Length == Times(m, n)
    && (forall t :: t in held ==> t.row < m && t.col < n && held[t].row == t.row && held[t].col == t.col)
    && (forall i: nat, j: nat :: i < m && j < n ==> Flat(i, j, n) < slots.Length)
    && (forall i: nat, j: nat :: i < m && j < n ==>
          slots[Flat(i, j, n)] == if Place(i, j) in held then Some(held[Place(i, j)]) else None)
  }

  /** The A and B tile of a job, as sent to the product task. */
  datatype Pair = Pair(a: Tile, b: Tile)

  function JobsOf(pairs: seq<Pair>): seq<Job> {
    if pairs == [] then [] else
      var last := pairs[|pairs| - 1];
      JobsOf(pairs[..|pairs| - 1]) + [Job(last.a.row, last.a.col, last.b.col)]
  }

  lemma JobsOfSnoc(pairs: seq<Pair>, x: Pair)
    ensures JobsOf(pairs + [x]) == JobsOf(pairs) + [Job(x.a.row, x.a.col, x.b.col)]
  {
    assert (pairs + [x])[..|pairs|] == pairs;
  }

  class ProductState {
    const TM: nat
    const TN: nat
    const TK: nat
    const aTiles: array<Option<Tile>>
    const bTiles: array<Option<Tile>>
    ghost var a: map<Place, Tile>
    ghost var b: map<Place, Tile>

    ghost predicate Valid()
      reads this, aTiles, bTiles
    {
      aTiles != bTiles && Slots(aTiles, a, TM, TK) && Slots(bTiles, b, TK, TN)
    }

    constructor (TM: nat, TN: nat, TK: nat)
      ensures Valid() && this.TM == TM && this.TN == TN && this.TK == TK && a == map[] && b == map[]
      ensures fresh(aTiles) && fresh(bTiles)
    {
      this.TM, this.TN, this.TK := TM, TN, TK;
      aTiles := new Option<Tile>[Times(TM, TK)](_ => None);
      bTiles := new Option<Tile>[Times(TK, TN)](_ => None);
      a, b := map[], map[];
      new;
      forall i: nat, j: nat | i < TM && j < TK ensures Flat(i, j, TK) < aTiles.Length { FlatInside(i, j, TM, TK); }
      forall i: nat, j: nat | i < TK && j < TN ensures Flat(i, j, TN) < bTiles.Length { FlatInside(i, j, TK, TN); }
    }

    /** The loop of `product_state_exec_tile_a`: `tile` with every B tile in the row of its column. */
    method PairWithB(tile: Tile) returns (out: seq<Pair>)
      requires Valid() && tile.row < TM && tile.col < TK
      ensures JobsOf(out) == AJobs(b.Keys, Place(tile.row, tile.col), TN)
      ensures forall x :: x in out ==> x.a == tile && Place(x.b.row, x.b.col) in b && b[Place(x.b.row, x.b.col)] == x.b
    {
      hide Times, Flat;
      out := [];
      for col := 0 to TN
        invariant JobsOf(out) == AJobs(b.Keys, Place(tile.row, tile.col), col)
        invariant forall x :: x in out ==>
          x.a == tile && Place(x.b.row, x.b.col) in b && b[Place(x.b.row, x.b.col)] == x.b
      {
        var slot := bTiles[Flat(tile.col, col, TN)];
        if slot.Some? {
          JobsOfSnoc(out, Pair(tile, slot.value));
          out := out + [Pair(tile, slot.value)];
        }
      }
    }

    /** The loop of `product_state_exec_tile_b`: `tile` with every A tile in the column of its row. */
    method PairWithA(tile: Tile) returns (out: seq<Pair>)
      requires Valid() && tile.row < TK && tile.col < TN
      ensures JobsOf(out) == BJobs(a.Keys, Place(tile.row, tile.col), TM)
      ensures forall x :: x in out ==> x.b == tile && Place(x.a.row, x.a.col) in a && a[Place(x.a.row, x.a.col)] == x.a
    {
      hide Times, Flat;
      out := [];
      for row := 0 to TM
        invariant JobsOf(out) == BJobs(a.Keys, Place(tile.row, tile.col), row)
        invariant forall x :: x in out ==>
          x.b == tile && Place(x.a.row, x.a.col) in a && a[Place(x.a.row, x.a.col)] == x.a
      {
        var slot := aTiles[Flat(row, tile.row, TK)];
        if slot.Some? {
          JobsOfSnoc(out, Pair(slot.value, tile));
          out := out + [Pair(slot.value, tile)];
        }
      }
    }

    /** `product_state_exec_tile_a`; its slot must be free. */
    method ExecTileA(tile: Tile) returns (out: seq<Pair>)
      requires Valid() && tile.row < TM && tile.col < TK && Place(tile.row, tile.col) !in a
      modifies this`a, aTiles
      ensures Valid() && a == old(a)[Place(tile.row, tile.col) := tile]
      ensures JobsOf(out) == AJobs(b.Keys, Place(tile.row, tile.col), TN)
      ensures forall x :: x in out ==> x.a == tile && Place(x.b.row, x.b.col) in b && b[Place(x.b.row, x.b.col)] == x.b
    {
      hide AJobs, JobsOf, Flat, Times;
      StoreTile(aTiles, a, TM, TK, tile);
      a := a[Place(tile.row, tile.col) := tile];
      out := PairWithB(tile);
    }

    /** `product_state_exec_tile_b`; its slot must be free. */
    method ExecTileB(tile: Tile) returns (out: seq<Pair>)
      requires Valid() && tile.row < TK && tile.col < TN && Place(tile.row, tile.col) !in b
      modifies this`b, bTiles
      ensures Valid() && b == old(b)[Place(tile.row, tile.col) := tile]
      ensures JobsOf(out) == BJobs(a.Keys, Place(tile.row, tile.col), TM)
      ensures forall x :: x in out ==> x.b == tile && Place(x.a.row, x.a.col) in a && a[Place(x.a.row, x.a.col)] == x.a
    {
      hide BJobs, JobsOf, Flat, Times;
      StoreTile(bTiles, b, TK, TN, tile);
      b := b[Place(tile.row, tile.col) := tile];
      out := PairWithA(tile);
    }
  }

  method StoreTile(slots: array<Option<Tile>>, ghost held: map<Place, Tile>, ghost m: nat, n: nat, tile: Tile)
    requires Slots(slots, held, m, n) && tile.row < m && tile.col < n && Place(tile.row, tile.col) !in held
    modifies slots
    ensures Slots(slots, held[Place(tile.row, tile.col) := tile], m, n)
  {
    assert slots[Flat(tile.row, tile.col, n)] == None;
    slots[Flat(tile.row, tile.col, n)] := Some(tile);
    forall i: nat, j: nat | i < m && j < n && Flat(i, j, n) == Flat(tile.row, tile.col, n)
      ensures i == tile.row && j == tile.col
    {
      FlatIsUnique(i, j, tile.row, tile.col, n);
    }
    hide Times, Flat;
  }

  // ----- the sum state ------------------------------------------------------------------------

  class SumState {
    const TM: nat
    const TN: nat
    const sumQueues: array<seq<Job>>
    const cTiles: array<Option<Place>>
    var count: int
    ghost var queues: map<Place, seq<Job>>
    ghost var slots: set<Place>

    ghost predicate Valid()
      reads this, sumQueues, cTiles
    {
      && sumQueues.Length == cTiles.Length == Times(TM, TN)
      && (forall t :: t in queues <==> t.row < TM && t.col < TN)
      && (forall t :: t in slots ==> t.row < TM && t.col < TN)
      && (forall i: nat, j: nat :: i < TM && j < TN ==> Flat(i, j, TN) < sumQueues.Length)
      && (forall i: nat, j: nat :: i < TM && j < TN ==> sumQueues[Flat(i, j, TN)] == queues[Place(i, j)])
      && (forall i: nat, j: nat :: i < TM && j < TN ==>
            cTiles[Flat(i, j, TN)] == if Place(i, j) in slots then Some(Place(i, j)) else None)
    }

    ghost function Data(): SumData
      reads this
    {
      SumData(queues, slots, count)
    }

    constructor (TM: nat, TN: nat, TK: nat)
      ensures Valid() && this.TM == TM && this.TN == TN && fresh(sumQueues) && fresh(cTiles)
      ensures Data() == SumData(map t | t in Places(TM, TN) :: [], {}, TM * TN * TK)
    {
      this.TM, this.TN := TM, TN;
      sumQueues := new seq<Job>[Times(TM, TN)](_ => []);
      cTiles := new Option<Place>[Times(TM, TN)](_ => None);
      count := TM * TN * TK;
      queues, slots := map t | t in Places(TM, TN) :: [], {};
      new;
      forall i: nat, j: nat | i < TM && j < TN ensures Flat(i, j, TN) < sumQueues.Length { FlatInside(i, j, TM, TN); }
    }

    lemma OnlyAt(i: nat, j: nat)
      requires j < TN
      ensures forall i': nat, j': nat :: j' < TN && Flat(i', j', TN) == Flat(i, j, TN) ==> i' == i && j' == j
    {
      forall i': nat, j': nat | j' < TN && Flat(i', j', TN) == Flat(i, j, TN) ensures i' == i && j' == j {
        FlatIsUnique(i', j', i, j, TN);
      }
    }

    /** `sum_state_exec_tile_c`: the C tile meets the latest queued partial product, or waits. */
    method ExecTileC(tile: Place) returns (sent: Sent)
      requires Valid() && tile.row < TM && tile.col < TN
      modifies this`queues, this`slots, sumQueues, cTiles
      ensures Valid() && (Data(), sent) == ExecC(old(Data()), tile)
    {
      OnlyAt(tile.row, tile.col);
      hide Flat, Times;
      var cIdx := Flat(tile.row, tile.col, TN);
      if |sumQueues[cIdx]| > 0 {
        var p := sumQueues[cIdx][|sumQueues[cIdx]| - 1];
        sumQueues[cIdx] := sumQueues[cIdx][..|sumQueues[cIdx]| - 1];
        queues := queues[tile := sumQueues[cIdx]];
        sent := ToSum(p);
      } else {
        cTiles[cIdx] := Some(tile);
        slots := slots + {tile};
        sent := Nothing;
      }
    }

    /** `sum_state_exec_tile_p`: the partial product meets its C tile, or is queued. */
    method ExecTileP(tile: Job) returns (sent: Sent)
      requires Valid() && tile.i < TM && tile.j < TN
      modifies this`queues, this`slots, sumQueues, cTiles
      ensures Valid() && (Data(), sent) == ExecP(old(Data()), tile)
    {
      OnlyAt(tile.i, tile.j);
      hide Flat, Times;
      var cIdx := Flat(tile.i, tile.j, TN);
      if cTiles[cIdx] != None {
        cTiles[cIdx] := None;
        slots := slots - {tile.Home()};
        sent := ToSum(tile);
      } else {
        sumQueues[cIdx] := sumQueues[cIdx] + [tile];
        queues := queues[tile.Home() := sumQueues[cIdx]];
        sent := Nothing;
      }
    }

    /** `sum_state_exec_tile_pc_tiles`: one sum is done; the last one sends the result. */
    method ExecPCTiles(c: Place) returns (sent: Sent)
      requires Valid() && c.row < TM && c.col < TN && count > 0
      modifies this, sumQueues, cTiles
      ensures Valid() && (Data(), sent) == ExecPC(old(Data()), c)
    {
      count := count - 1;
      if count == 0 {
        sent := Result(c);
        return;
      }
      sent := ExecTileC(c);
    }
  }

  // ----- the sum task --------------------------------------------------------------------------

  /** Entry (r, c) of a matrix stored row by row with `n` columns. */
  ghost predicate Holds(data: seq<int>, m: nat, n: nat, e: Entries) {
    && |data| == Times(m, n)
    && (forall r: nat, c: nat :: r < m && c < n ==> Flat(r, c, n) < |data|)
    && (forall r: nat, c: nat :: r < m && c < n ==> data[Flat(r, c, n)] == e(r, c))
  }

  /** `e` with the entries `p` of a tile added, over its first `rows` rows and `cols` columns of the next. */
  ghost function Added(e: Entries, t: Tile, p: Entries, rows: nat, cols: nat): Entries {
    (r: nat, c: nat) =>
      if t.matrixRow <= r && t.matrixCol <= c < t.matrixCol + t.cols &&
         (r < t.matrixRow + rows || (r == t.matrixRow + rows && c < t.matrixCol + cols))
      then e(r, c) + p(r - t.matrixRow, c - t.matrixCol) else e(r, c)
  }

  /** `sum_task_exec`: the partial product is added to its C tile, in place. */
  method SumTask(data: array<int>, ghost m: nat, n: nat, ghost e: Entries, c: Tile, p: array<int>, ghost pe: Entries)
    requires data != p && Holds(data[..], m, n, e) && Holds(p[..], c.rows, c.cols, pe)
    requires c.matrixRow + c.rows <= m && c.matrixCol + c.cols <= n
    modifies data
    ensures Holds(data[..], m, n, Added(e, c, pe, c.rows, 0))
  {
    for row := 0 to c.rows
      invariant Holds(data[..], m, n, Added(e, c, pe, row, 0))
      invariant Holds(p[..], c.rows, c.cols, pe)
    {
      for col := 0 to c.cols
        invariant Holds(data[..], m, n, Added(e, c, pe, row, col))
        invariant Holds(p[..], c.rows, c.cols, pe)
      {
        AddEntry(data, m, n, e, c, p, pe, row, col);
      }
      assert Holds(data[..], m, n, Added(e, c, pe, row + 1, 0));
    }
  }

  /** An entry of a tile, counted from where the tile starts in its matrix. */
  lemma Offset(i: nat, j: nat, row: nat, col: nat, n: nat)
    ensures Flat(i + row, j + col, n) == Flat(i, j, n) + (row * n + col)
  {
    assert (i + row) * n == i * n + row * n;
  }

  method AddEntry(data: array<int>, ghost m: nat, n: nat, ghost e: Entries, c: Tile, p: array<int>, ghost pe: Entries,
                  row: nat, col: nat)
    requires data != p && row < c.rows && col < c.cols
    requires Holds(data[..], m, n, Added(e, c, pe, row, col)) && Holds(p[..], c.rows, c.cols, pe)
    requires c.matrixRow + c.rows <= m && c.matrixCol + c.cols <= n
    modifies data
    ensures Holds(data[..], m, n, Added(e, c, pe, row, col + 1))
  {
    Offset(c.matrixRow, c.matrixCol, row, col, n);
    var i := Flat(c.matrixRow, c.matrixCol, n) + (row * n + col);
    assert i == Flat(c.matrixRow + row, c.matrixCol + col, n) < data.Length;
    data[i] := data[i] + p[Flat(row, col, c.cols)];
    forall r: nat, k: nat | r < m && k < n && Flat(r, k, n) == i
      ensures r == c.matrixRow + row && k == c.matrixCol + col
    {
      FlatIsUnique(r, k, c.matrixRow + row, c.matrixCol + col, n);
    }
    hide Flat, Times;
  }

  // ----- the product task -------------------------------------------------------------------------

  /** The product of A tile `s` and B tile `t` at (r, c), over its first `n` terms. */
  function TileDot(a: Entries, b: Entries, s: Tile, t: Tile, r: nat, c: nat, n: nat): int {
    if n == 0 then 0 else
      TileDot(a, b, s, t, r, c, n - 1)
      + a(s.matrixRow + r, s.matrixCol + (n - 1)) * b(t.matrixRow + (n - 1), t.matrixCol + c)
  }

  lemma {:induction false} TileDotIsDot(a: Entries, b: Entries, s: Tile, t: Tile, r: nat, c: nat, n: nat)
    requires s.matrixCol == t.matrixRow
    ensures TileDot(a, b, s, t, r, c, n) ==
            Dot(a, b, s.matrixRow + r, t.matrixCol + c, s.matrixCol, s.matrixCol + n)
  {
    if n == 0 {
    } else {
      TileDotIsDot(a, b, s, t, r, c, n - 1);
    }
  }

  predicate HasJob(m: Matrices, x: Job) {
    x.i < TileCount(m.rows, m.ts) && x.k < TileCount(m.inner, m.ts) && x.j < TileCount(m.cols, m.ts)
  }

  function ATile(m: Matrices, x: Job): Tile requires HasJob(m, x) { TileAt(m.rows, m.inner, m.ts, x.i, x.k) }
  function BTile(m: Matrices, x: Job): Tile requires HasJob(m, x) { TileAt(m.inner, m.cols, m.ts, x.k, x.j) }
  function CTile(m: Matrices, x: Job): Tile requires HasJob(m, x) { TileAt(m.rows, m.cols, m.ts, x.i, x.j) }

  /** The shapes that the product and sum tasks assert: they fit for every job, edge tiles included. */
  lemma TilesFit(m: Matrices, x: Job)
    requires HasJob(m, x)
    ensures ATile(m, x).rows == CTile(m, x).rows && BTile(m, x).cols == CTile(m, x).cols
    ensures ATile(m, x).cols == BTile(m, x).rows && ATile(m, x).matrixCol == BTile(m, x).matrixRow
    ensures ATile(m, x).matrixRow == CTile(m, x).matrixRow && BTile(m, x).matrixCol == CTile(m, x).matrixCol
    ensures CTile(m, x).matrixRow + CTile(m, x).rows <= m.rows
    ensures CTile(m, x).matrixCol + CTile(m, x).cols <= m.cols
  {
    StartsInside(m.rows, m.ts, x.i);
    StartsInside(m.cols, m.ts, x.j);
    StartsInside(m.inner, m.ts, x.k);
    hide TileCount;
  }

  /** `e` holds the product of the A and B tile of job `x`. */
  ghost predicate IsProduct(m: Matrices, x: Job, e: Entries)
    requires HasJob(m, x)
  {
    forall r: nat, c: nat :: r < CTile(m, x).rows && c < CTile(m, x).cols ==>
      e(r, c) == TileDot(m.a, m.b, ATile(m, x), BTile(m, x), r, c, ATile(m, x).cols)
  }

  /** What the product task is asked for is the block that the job stands for. */
  lemma ProductIsBlock(m: Matrices, x: Job, e: Entries, r: nat, c: nat)
    requires HasJob(m, x) && IsProduct(m, x, e) && Covers(CTile(m, x), r, c)
    ensures e(r - CTile(m, x).matrixRow, c - CTile(m, x).matrixCol) == Block(m.a, m.b, m.inner, m.ts, r, c, x.k)
  {
    TilesFit(m, x);
    var t := CTile(m, x);
    TileDotIsDot(m.a, m.b, ATile(m, x), BTile(m, x), r - t.matrixRow, c - t.matrixCol, ATile(m, x).cols);
    hide TileCount, TileDot, Dot;
  }

  lemma BlockOfJob(m: Matrices, x: Job, r: nat, c: nat)
    requires HasJob(m, x)
    ensures BlockAt(m, x.k, r, c) == Block(m.a, m.b, m.inner, m.ts, r, c, x.k)
  {
    hide Block, TileCount;
  }

  lemma AddedInside(m: Matrices, x: Job, c: Entries, e: Entries, row: nat, col: nat)
    requires HasJob(m, x)
    ensures
      var t := CTile(m, x);
      Added(c, t, e, t.rows, 0)(row, col) ==
        if Covers(t, row, col) then c(row, col) + e(row - t.matrixRow, col - t.matrixCol) else c(row, col)
  {
    hide TileCount, TileAt;
  }

  /** The loops of the sum task, given that product, do what the machine's sum step does. */
  lemma SumTaskAddsBlock(m: Matrices, x: Job, c: Entries, e: Entries, row: nat, col: nat)
    requires HasJob(m, x) && IsProduct(m, x, e)
    ensures Added(c, CTile(m, x), e, CTile(m, x).rows, 0)(row, col) == AddBlock(m, c, x)(row, col)
  {
    hide TileCount, TileAt, IsProduct, Block, BlockAt;
    AddedInside(m, x, c, e, row, col);
    if Covers(CTile(m, x), row, col) {
      ProductIsBlock(m, x, e, row, col);
      BlockOfJob(m, x, row, col);
    }
  }
}
