/** The order in which the tile-map loader visits a layer's cells: column by
    column (outer index i over the width), and within a column row by row
    (inner index j over the height); cell (i, j) is entry j * width + i of the
    row-major data array. Only cells with a non-zero bare id yield a tile. */
module TileGrid {
  import opened TileGid

  /** A visited cell that holds a tile: its column, its row and its decoded GID. */
  datatype CellTile = CellTile(i: nat, j: nat, gid: Gid)

  /** The word of cell (i, j); cells past the end of the data read as empty. */
  function CellWord(data: seq<Word>, width: nat, i: nat, j: nat): Word
  {
    if j * width + i < |data| then data[j * width + i] else 0
  }

  predicate Occupied(w: Word)
  {
    BareId(w) != 0
  }

  /** The tile cell (i, j) contributes: none when its bare id is 0. */
  function TileAt(data: seq<Word>, width: nat, i: nat, j: nat): seq<CellTile>
  {
    var w := CellWord(data, width, i, j);
    if Occupied(w) then [CellTile(i, j, Decode(w))] else []
  }

  /** The tile records the content of the cell it names. */
  predicate Holds(data: seq<Word>, width: nat, t: CellTile)
  {
    Occupied(CellWord(data, width, t.i, t.j)) && t.gid == Decode(CellWord(data, width, t.i, t.j))
  }

  /** Tiles of column i, rows 0 .. h-1. */
  function ColumnTiles(data: seq<Word>, width: nat, i: nat, h: nat): seq<CellTile>
  {
    if h == 0 then [] else ColumnTiles(data, width, i, h - 1) + TileAt(data, width, i, h - 1)
  }

  /** Tiles of columns 0 .. c-1, each column complete (height rows). */
  function ColumnsTiles(data: seq<Word>, width: nat, height: nat, c: nat): seq<CellTile>
  {
    if c == 0 then [] else ColumnsTiles(data, width, height, c - 1) + ColumnTiles(data, width, c - 1, height)
  }

  /** All tiles of a layer, in the loader's column-major visiting order. */
  function LayerTiles(data: seq<Word>, width: nat, height: nat): seq<CellTile>
  {
    ColumnsTiles(data, width, height, width)
  }

  /** Number of entries of a row-major array whose bare id is non-zero. */
  function CountOccupied(s: seq<Word>): nat
  {
    if s == [] then 0 else CountOccupied(s[..|s| - 1]) + (if Occupied(s[|s| - 1]) then 1 else 0)
  }

  // ----- Sums used to swap the two visiting orders -----

  function Occ(data: seq<Word>, width: nat, i: nat, j: nat): nat
  {
    if Occupied(CellWord(data, width, i, j)) then 1 else 0
  }

  /** Occupied cells of column i among rows 0 .. h-1. */
  function ColSum(data: seq<Word>, width: nat, i: nat, h: nat): nat
  {
    if h == 0 then 0 else ColSum(data, width, i, h - 1) + Occ(data, width, i, h - 1)
  }

  /** Occupied cells of row j among columns 0 .. c-1. */
  function RowSum(data: seq<Word>, width: nat, j: nat, c: nat): nat
  {
    if c == 0 then 0 else RowSum(data, width, j, c - 1) + Occ(data, width, c - 1, j)
  }

  /** Column-major total over columns 0 .. c-1 and rows 0 .. h-1. */
  function ColsTotal(data: seq<Word>, width: nat, c: nat, h: nat): nat
  {
    if c == 0 then 0 else ColsTotal(data, width, c - 1, h) + ColSum(data, width, c - 1, h)
  }

  /** Row-major total over rows 0 .. r-1 and columns 0 .. c-1. */
  function RowsTotal(data: seq<Word>, width: nat, c: nat, r: nat): nat
  {
    if r == 0 then 0 else RowsTotal(data, width, c, r - 1) + RowSum(data, width, r - 1, c)
  }

  lemma {:induction false} ColumnTilesCount(data: seq<Word>, width: nat, i: nat, h: nat)
    ensures |ColumnTiles(data, width, i, h)| == ColSum(data, width, i, h)
  {
    if h > 0 {
      ColumnTilesCount(data, width, i, h - 1);
    }
  }

  lemma {:induction false} ColumnsTilesCount(data: seq<Word>, width: nat, height: nat, c: nat)
    ensures |ColumnsTiles(data, width, height, c)| == ColsTotal(data, width, c, height)
  {
    if c > 0 {
      ColumnsTilesCount(data, width, height, c - 1);
      ColumnTilesCount(data, width, c - 1, height);
    }
  }

  /** Adding column c to every row adds column c's count to the row-major total. */
  lemma {:induction false} RowsTotalAddColumn(data: seq<Word>, width: nat, c: nat, r: nat)
    ensures RowsTotal(data, width, c + 1, r) == RowsTotal(data, width, c, r) + ColSum(data, width, c, r)
  {
    if r > 0 {
      RowsTotalAddColumn(data, width, c, r - 1);
    }
  }

  lemma {:induction false} RowsTotalNoColumns(data: seq<Word>, width: nat, r: nat)
    ensures RowsTotal(data, width, 0, r) == 0
  {
    if r > 0 {
      RowsTotalNoColumns(data, width, r - 1);
    }
  }

  /** The two visiting orders count the same cells. */
  lemma {:induction false} SwapOrder(data: seq<Word>, width: nat, c: nat, h: nat)
    ensures ColsTotal(data, width, c, h) == RowsTotal(data, width, c, h)
  {
    if c == 0 {
      RowsTotalNoColumns(data, width, h);
    } else {
      SwapOrder(data, width, c - 1, h);
      RowsTotalAddColumn(data, width, c - 1, h);
    }
  }

  lemma {:induction false} CountOccupiedAppend(a: seq<Word>, b: seq<Word>)
    ensures CountOccupied(a + b) == CountOccupied(a) + CountOccupied(b)
  {
    if b != [] {
      var b' := b[..|b| - 1];
      assert (a + b)[..|a + b| - 1] == a + b';
      CountOccupiedAppend(a, b');
    } else {
      assert a + b == a;
    }
  }

  /** Row j of the data, columns 0 .. c-1, counts as RowSum. */
  lemma {:induction false} RowSlice(data: seq<Word>, width: nat, j: nat, c: nat)
    requires c <= width && j * width + c <= |data|
    ensures CountOccupied(data[j * width .. j * width + c]) == RowSum(data, width, j, c)
  {
    var s := data[j * width .. j * width + c];
    if c > 0 {
      RowSlice(data, width, j, c - 1);
      assert s[..|s| - 1] == data[j * width .. j * width + (c - 1)];
      assert s[|s| - 1] == CellWord(data, width, c - 1, j);
    } else {
      assert s == [];
    }
  }

  lemma RowStart(width: nat, prev: nat)
    ensures width * (prev + 1) == width * prev + width && prev * width == width * prev
  {
  }

  lemma PrefixSplit(data: seq<Word>, base: nat, width: nat)
    requires base + width <= |data|
    ensures data[..base + width] == data[..base] + data[base .. base + width]
  {
  }

  /** The first r rows of the data count as RowsTotal over the full width. */
  lemma {:induction false} RowsPrefix(data: seq<Word>, width: nat, r: nat)
    requires width * r <= |data|
    ensures CountOccupied(data[..width * r]) == RowsTotal(data, width, width, r)
  {
    if r == 0 {
      assert data[..width * r] == [];
    } else {
      var prev: nat := r - 1;
      RowStart(width, prev);
      var base := width * prev;
      assert width * r == base + width;
      RowsPrefix(data, width, prev);
      RowSlice(data, width, prev, width);
      PrefixSplit(data, base, width);
      CountOccupiedAppend(data[..base], data[base .. base + width]);
    }
  }

  /** The loader creates one tile per non-zero bare id among the layer's
      width * height cells, whatever the visiting order. */
  lemma LayerTilesCount(data: seq<Word>, width: nat, height: nat)
    requires width * height <= |data|
    ensures |LayerTiles(data, width, height)| == CountOccupied(data[..width * height])
  {
    ColumnsTilesCount(data, width, height, width);
    SwapOrder(data, width, width, height);
    RowsPrefix(data, width, height);
  }

  /** Each listed tile is an occupied cell inside the grid, carrying that
      cell's decoded GID. */
  lemma {:induction false} ColumnTilesPlace(data: seq<Word>, width: nat, i: nat, h: nat, n: nat)
    requires n < |ColumnTiles(data, width, i, h)|
    ensures ColumnTiles(data, width, i, h)[n].i == i && ColumnTiles(data, width, i, h)[n].j < h
  {
    var prev := ColumnTiles(data, width, i, h - 1);
    if n < |prev| {
      ColumnTilesPlace(data, width, i, h - 1, n);
    }
  }

  lemma {:induction false} ColumnsTilesPlace(data: seq<Word>, width: nat, height: nat, c: nat, n: nat)
    requires n < |ColumnsTiles(data, width, height, c)|
    ensures ColumnsTiles(data, width, height, c)[n].i < c && ColumnsTiles(data, width, height, c)[n].j < height
  {
    var prev := ColumnsTiles(data, width, height, c - 1);
    if n < |prev| {
      ColumnsTilesPlace(data, width, height, c - 1, n);
    } else {
      ColumnTilesPlace(data, width, c - 1, height, n - |prev|);
    }
  }

  lemma {:induction false} ColumnTilesContent(data: seq<Word>, width: nat, i: nat, h: nat, n: nat)
    requires n < |ColumnTiles(data, width, i, h)|
    ensures Holds(data, width, ColumnTiles(data, width, i, h)[n])
  {
    var prev := ColumnTiles(data, width, i, h - 1);
    if n < |prev| {
      ColumnTilesContent(data, width, i, h - 1, n);
    }
  }

  lemma {:induction false} ColumnsTilesContent(data: seq<Word>, width: nat, height: nat, c: nat, n: nat)
    requires n < |ColumnsTiles(data, width, height, c)|
    ensures Holds(data, width, ColumnsTiles(data, width, height, c)[n])
  {
    var prev := ColumnsTiles(data, width, height, c - 1);
    if n < |prev| {
      ColumnsTilesContent(data, width, height, c - 1, n);
    } else {
      ColumnTilesContent(data, width, c - 1, height, n - |prev|);
    }
  }

  /** Every tile of a layer lies inside the grid, holds a non-zero bare id and
      carries its cell's flags and id. */
  lemma LayerTilesSound(data: seq<Word>, width: nat, height: nat, n: nat)
    requires n < |LayerTiles(data, width, height)|
    ensures var t := LayerTiles(data, width, height)[n];
      && t.i < width && t.j < height
      && t.gid.id != 0
      && t.gid == Decode(CellWord(data, width, t.i, t.j))
  {
    ColumnsTilesPlace(data, width, height, width, n);
    ColumnsTilesContent(data, width, height, width, n);
    var t := LayerTiles(data, width, height)[n];
    assert Holds(data, width, t);
  }

  /** Column-major order: tiles of an earlier column come first, and within a
      column earlier rows come first. */
  lemma {:induction false} ColumnTilesOrdered(data: seq<Word>, width: nat, i: nat, h: nat, m: nat, n: nat)
    requires m < n < |ColumnTiles(data, width, i, h)|
    ensures ColumnTiles(data, width, i, h)[m].j < ColumnTiles(data, width, i, h)[n].j
  {
    var prev := ColumnTiles(data, width, i, h - 1);
    if n < |prev| {
      ColumnTilesOrdered(data, width, i, h - 1, m, n);
    } else {
      ColumnTilesPlace(data, width, i, h - 1, m);
    }
  }

  /** Column-major precedence between two cells. */
  predicate Before(a: CellTile, b: CellTile)
  {
    a.i < b.i || (a.i == b.i && a.j < b.j)
  }

  /** A tile of an earlier column precedes every tile of the next column. */
  lemma ColumnsTilesOrderedAcross(data: seq<Word>, width: nat, height: nat, c: nat, m: nat, n: nat)
    requires c > 0
    requires m < |ColumnsTiles(data, width, height, c - 1)|
    requires n < |ColumnTiles(data, width, c - 1, height)|
    ensures Before(ColumnsTiles(data, width, height, c - 1)[m], ColumnTiles(data, width, c - 1, height)[n])
  {
    ColumnsTilesPlace(data, width, height, c - 1, m);
    ColumnTilesPlace(data, width, c - 1, height, n);
  }

  lemma ColumnTilesOrderedWithin(data: seq<Word>, width: nat, i: nat, h: nat, m: nat, n: nat)
    requires m < n < |ColumnTiles(data, width, i, h)|
    ensures Before(ColumnTiles(data, width, i, h)[m], ColumnTiles(data, width, i, h)[n])
  {
    ColumnTilesOrdered(data, width, i, h, m, n);
    ColumnTilesPlace(data, width, i, h, m);
    ColumnTilesPlace(data, width, i, h, n);
  }

  lemma {:induction false} ColumnsTilesOrdered(data: seq<Word>, width: nat, height: nat, c: nat, m: nat, n: nat)
    requires m < n < |ColumnsTiles(data, width, height, c)|
    ensures Before(ColumnsTiles(data, width, height, c)[m], ColumnsTiles(data, width, height, c)[n])
  {
    var s := ColumnsTiles(data, width, height, c);
    var prev := ColumnsTiles(data, width, height, c - 1);
    var last := ColumnTiles(data, width, c - 1, height);
    assert s == prev + last;
    if n < |prev| {
      ColumnsTilesOrdered(data, width, height, c - 1, m, n);
      assert s[m] == prev[m] && s[n] == prev[n];
    } else if m < |prev| {
      ColumnsTilesOrderedAcross(data, width, height, c, m, n - |prev|);
      assert s[m] == prev[m] && s[n] == last[n - |prev|];
    } else {
      ColumnTilesOrderedWithin(data, width, c - 1, height, m - |prev|, n - |prev|);
      assert s[m] == last[m - |prev|] && s[n] == last[n - |prev|];
    }
  }

  lemma LayerTilesOrdered(data: seq<Word>, width: nat, height: nat, m: nat, n: nat)
    requires m < n < |LayerTiles(data, width, height)|
    ensures Before(LayerTiles(data, width, height)[m], LayerTiles(data, width, height)[n])
  {
    ColumnsTilesOrdered(data, width, height, width, m, n);
  }
}
