/**
  Cutting a matrix into tiles (the split task of the blocked product) and the sums that
  the tiles of a product add up to.  Entries are integers: rounding is not modelled.
 */
module Tiles {
  import opened Common

  /** A tile: its place among the tiles, its extent, and where it starts in the matrix. */
  datatype Tile = Tile(row: nat, col: nat, rows: nat, cols: nat, matrixRow: nat, matrixCol: nat)

  function Min(a: nat, b: nat): nat { if a < b then a else b }

  /** The number of tiles along a side, as the driver computes it. */
  function TileCount(side: nat, ts: nat): nat
    requires ts > 0
  {
    side / ts + (if side % ts == 0 then 0 else 1)
  }

  /** The extent of the `i`-th tile along a side; only the last may be short. */
  function Extent(side: nat, ts: nat, i: nat): nat
    requires ts > 0 && ts * i <= side
  {
    Min(side - ts * i, ts)
  }

  // ----- arithmetic of tile boundaries ---------------------------------------------

  /** Tile `i` exists exactly when it starts inside the side. */
  lemma StartsInside(side: nat, ts: nat, i: nat)
    requires ts > 0
    ensures ts * i < side <==> i < TileCount(side, ts)
    ensures i <= TileCount(side, ts) ==> i == TileCount(side, ts) || ts * i < side
  {
    DivideBy(side, ts);
    var q := side / ts;
    ProductGap(ts, i, q);
    ProductGap(ts, q, i);
    ProductGap(ts, q + 1, i);
    Distribute(ts, q, 1);
  }

  /** Every index along a side is in the tile given by division, and in no other. */
  lemma IndexInOneTile(side: nat, ts: nat, r: nat, i: nat)
    requires ts > 0 && r < side
    ensures r / ts < TileCount(side, ts)
    ensures i < TileCount(side, ts) ==>
      ts * i <= side && (ts * i <= r < ts * i + Extent(side, ts, i) <==> i == r / ts)
  {
    DivideBy(r, ts);
    StartsInside(side, ts, r / ts);
    if i < TileCount(side, ts) {
      StartsInside(side, ts, i);
      if ts * i <= r < ts * i + Extent(side, ts, i) { DivisionIsUnique(r, ts, i, r - ts * i); }
    }
  }

  // ----- the split task ---------------------------------------------------------------

  function TileAt(rows: nat, cols: nat, ts: nat, i: nat, j: nat): Tile
    requires ts > 0 && i < TileCount(rows, ts) && j < TileCount(cols, ts)
  {
    StartsInside(rows, ts, i);
    StartsInside(cols, ts, j);
    Tile(i, j, Extent(rows, ts, i), Extent(cols, ts, j), ts * i, ts * j)
  }

  /** The first `n` tiles of row `i`. */
  function RowTiles(rows: nat, cols: nat, ts: nat, i: nat, n: nat): seq<Tile>
    requires ts > 0 && i < TileCount(rows, ts) && n <= TileCount(cols, ts)
  {
    if n == 0 then [] else RowTiles(rows, cols, ts, i, n - 1) + [TileAt(rows, cols, ts, i, n - 1)]
  }

  /** The tiles of the first `m` rows, row by row. */
  function TilesOf(rows: nat, cols: nat, ts: nat, m: nat): seq<Tile>
    requires ts > 0 && m <= TileCount(rows, ts)
  {
    if m == 0 then [] else TilesOf(rows, cols, ts, m - 1) + RowTiles(rows, cols, ts, m - 1, TileCount(cols, ts))
  }

  lemma OneMoreTile(rows: nat, cols: nat, ts: nat, i: nat, j: nat, m: nat, n: nat)
    requires ts > 0 && m < TileCount(rows, ts) && n < TileCount(cols, ts)
    requires i == ts * m && j == ts * n && i < rows && j < cols
    ensures var tile := Tile(i / ts, j / ts, Min(rows - i, ts), Min(cols - j, ts), i, j);
      RowTiles(rows, cols, ts, m, n + 1) == RowTiles(rows, cols, ts, m, n) + [tile]
    ensures ts * n + ts == ts * (n + 1)
    ensures ts * (n + 1) < cols <==> n + 1 < TileCount(cols, ts)
  {
    DivisionIsUnique(ts * m, ts, m, 0);
    DivisionIsUnique(ts * n, ts, n, 0);
    Distribute(ts, n, 1);
    StartsInside(cols, ts, n + 1);
  }

  lemma OneMoreRow(rows: nat, cols: nat, ts: nat, m: nat)
    requires ts > 0 && m < TileCount(rows, ts)
    ensures TilesOf(rows, cols, ts, m + 1) ==
            TilesOf(rows, cols, ts, m) + RowTiles(rows, cols, ts, m, TileCount(cols, ts))
    ensures ts * m + ts == ts * (m + 1)
    ensures ts * (m + 1) < rows <==> m + 1 < TileCount(rows, ts)
  {
    Distribute(ts, m, 1);
    StartsInside(rows, ts, m + 1);
  }

  /** `split_task_exec`: the tiles sent on, in order. */
  method SplitTask(rows: nat, cols: nat, ts: nat) returns (tiles: seq<Tile>)
    requires ts > 0
    ensures tiles == TilesOf(rows, cols, ts, TileCount(rows, ts))
  {
    tiles := [];
    assert TilesOf(rows, cols, ts, 0) == [];
    var i: nat := 0;
    ghost var m: nat := 0;
    StartsInside(rows, ts, 0);
    hide TileCount, TilesOf, RowTiles, TileAt;
    while i < rows
      invariant i == ts * m && m <= TileCount(rows, ts)
      invariant tiles == TilesOf(rows, cols, ts, m)
      invariant i < rows <==> m < TileCount(rows, ts)
      decreases rows - i
    {
      var j: nat := 0;
      ghost var n: nat := 0;
      StartsInside(cols, ts, 0);
      while j < cols
        invariant j == ts * n && n <= TileCount(cols, ts)
        invariant tiles == TilesOf(rows, cols, ts, m) + RowTiles(rows, cols, ts, m, n)
        invariant j < cols <==> n < TileCount(cols, ts)
        decreases cols - j
      {
        var tile := Tile(i / ts, j / ts, Min(rows - i, ts), Min(cols - j, ts), i, j);
        OneMoreTile(rows, cols, ts, i, j, m, n);
        tiles := tiles + [tile];
        j, n := j + ts, n + 1;
      }
      OneMoreRow(rows, cols, ts, m);
      i, m := i + ts, m + 1;
    }
  }

  /** `t` is the tile that belongs at its own place. */
  predicate IsTile(rows: nat, cols: nat, ts: nat, t: Tile)
    requires ts > 0
  {
    && t.row < TileCount(rows, ts) && t.col < TileCount(cols, ts)
    && t == TileAt(rows, cols, ts, t.row, t.col)
  }

  lemma {:induction false} RowTilesHas(rows: nat, cols: nat, ts: nat, i: nat, n: nat, t: Tile)
    requires ts > 0 && i < TileCount(rows, ts) && n <= TileCount(cols, ts)
    ensures multiset(RowTiles(rows, cols, ts, i, n))[t] ==
            if t.row == i && t.col < n && IsTile(rows, cols, ts, t) then 1 else 0
  {
    if n == 0 {
    } else {
      RowTilesHas(rows, cols, ts, i, n - 1, t);
    }
  }

  lemma CountAppends<T>(a: seq<T>, b: seq<T>, x: T)
    ensures multiset(a + b)[x] == multiset(a)[x] + multiset(b)[x]
  {
  }

  lemma NoRows(rows: nat, cols: nat, ts: nat)
    requires ts > 0
    ensures TilesOf(rows, cols, ts, 0) == []
  {
  }

  lemma IsTileInRow(rows: nat, cols: nat, ts: nat, t: Tile)
    requires ts > 0 && IsTile(rows, cols, ts, t)
    ensures t.col < TileCount(cols, ts)
  {
  }

  /** The split task sends each tile of the matrix exactly once, and nothing else. */
  lemma {:induction false} EachTileOnce(rows: nat, cols: nat, ts: nat, m: nat, t: Tile)
    requires ts > 0 && m <= TileCount(rows, ts)
    ensures multiset(TilesOf(rows, cols, ts, m))[t] ==
            if t.row < m && IsTile(rows, cols, ts, t) then 1 else 0
  {
    hide *;
    if m == 0 {
      NoRows(rows, cols, ts);
    } else {
      var n := TileCount(cols, ts);
      OneMoreRow(rows, cols, ts, m - 1);
      EachTileOnce(rows, cols, ts, m - 1, t);
      RowTilesHas(rows, cols, ts, m - 1, n, t);
      CountAppends(TilesOf(rows, cols, ts, m - 1), RowTiles(rows, cols, ts, m - 1, n), t);
      if IsTile(rows, cols, ts, t) {
        IsTileInRow(rows, cols, ts, t);
      }
    }
  }

  predicate Covers(t: Tile, r: nat, c: nat) {
    t.matrixRow <= r < t.matrixRow + t.rows && t.matrixCol <= c < t.matrixCol + t.cols
  }

  /** The tiles partition the matrix: an entry is in the tile given by division, and in no other. */
  lemma TilesPartition(rows: nat, cols: nat, ts: nat, r: nat, c: nat, i: nat, j: nat)
    requires ts > 0 && r < rows && c < cols && i < TileCount(rows, ts) && j < TileCount(cols, ts)
    ensures r / ts < TileCount(rows, ts) && c / ts < TileCount(cols, ts)
    ensures Covers(TileAt(rows, cols, ts, i, j), r, c) <==> i == r / ts && j == c / ts
  {
    IndexInOneTile(rows, ts, r, i);
    IndexInOneTile(cols, ts, c, j);
  }

  // ----- products -------------------------------------------------------------------------

  type Entries = (nat, nat) -> int

  /** Part of the scalar product of row `r` of `a` and column `c` of `b`. */
  function Dot(a: Entries, b: Entries, r: nat, c: nat, lo: nat, hi: nat): int
    requires lo <= hi
    decreases hi - lo
  {
    if lo == hi then 0 else Dot(a, b, r, c, lo, hi - 1) + a(r, hi - 1) * b(hi - 1, c)
  }

  lemma {:induction false} DotSplits(a: Entries, b: Entries, r: nat, c: nat, lo: nat, mid: nat, hi: nat)
    requires lo <= mid <= hi
    ensures Dot(a, b, r, c, lo, hi) == Dot(a, b, r, c, lo, mid) + Dot(a, b, r, c, mid, hi)
    decreases hi - mid
  {
    if mid == hi {
    } else {
      DotSplits(a, b, r, c, lo, mid, hi - 1);
    }
  }

  /** What tile `k` of the inner dimension contributes to entry (r, c). */
  function Block(a: Entries, b: Entries, inner: nat, ts: nat, r: nat, c: nat, k: nat): int
    requires ts > 0 && k < TileCount(inner, ts)
  {
    StartsInside(inner, ts, k);
    Dot(a, b, r, c, ts * k, ts * k + Extent(inner, ts, k))
  }

  function Blocks(a: Entries, b: Entries, inner: nat, ts: nat, r: nat, c: nat, n: nat): int
    requires ts > 0 && n <= TileCount(inner, ts)
  {
    if n == 0 then 0 else Blocks(a, b, inner, ts, r, c, n - 1) + Block(a, b, inner, ts, r, c, n - 1)
  }

  /** The first `n` blocks add up to the scalar product over the indices they cover. */
  lemma {:induction false} BlocksAddUp(a: Entries, b: Entries, inner: nat, ts: nat, r: nat, c: nat, n: nat)
    requires ts > 0 && n <= TileCount(inner, ts)
    ensures Blocks(a, b, inner, ts, r, c, n) == Dot(a, b, r, c, 0, Min(ts * n, inner))
  {
    if n == 0 {
    } else {
      BlocksAddUp(a, b, inner, ts, r, c, n - 1);
      StartsInside(inner, ts, n - 1);
      Distribute(ts, n - 1, 1);
      DotSplits(a, b, r, c, 0, ts * (n - 1), Min(ts * n, inner));
    }
  }

  /** All blocks together, short edge tile included, are the full scalar product. */
  lemma AllBlocks(a: Entries, b: Entries, inner: nat, ts: nat, r: nat, c: nat)
    requires ts > 0
    ensures Blocks(a, b, inner, ts, r, c, TileCount(inner, ts)) == Dot(a, b, r, c, 0, inner)
  {
    BlocksAddUp(a, b, inner, ts, r, c, TileCount(inner, ts));
    StartsInside(inner, ts, TileCount(inner, ts));
  }
}
