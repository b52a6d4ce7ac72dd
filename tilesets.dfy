/** The tileset table of a tile map and the rule that finds which tileset
    owns a bare tile id. A tileset claims the ids from its FirstGID up to the
    next tileset's FirstGID; the last one claims FirstGID .. FirstGID+Length-1. */
module Tilesets {
  import opened Vectors
  import opened Resources

  /** What the caller supplies for one tileset: its texture and atlas grid. */
  datatype TilemapInput = TilemapInput(Texture: Texture?, Dimensions: IVec2)

  /** One entry of the map file's `tilesets` array. */
  datatype TilesetEntry = TilesetEntry(firstgid: int)

  /** One row of the table the loader builds. */
  datatype Tileset = Tileset(FirstGID: int, TilemapData: TilemapInput, Length: int)

  /** The table built from the file's entries and the caller's inputs, k-th
      with k-th, in file order; a tileset holds Dimensions.x * Dimensions.y tiles. */
  function TilesetTable(entries: seq<TilesetEntry>, inputs: seq<TilemapInput>): (ts: seq<Tileset>)
    requires |entries| == |inputs|
    ensures |ts| == |entries|
    ensures forall k :: 0 <= k < |ts| ==>
      && ts[k].FirstGID == entries[k].firstgid
      && ts[k].TilemapData == inputs[k]
      && ts[k].Length == inputs[k].Dimensions.x * inputs[k].Dimensions.y
  {
    if entries == [] then []
    else
      var n := |entries| - 1;
      TilesetTable(entries[..n], inputs[..n])
        + [Tileset(entries[n].firstgid, inputs[n], inputs[n].Dimensions.x * inputs[n].Dimensions.y)]
  }

  /** Tileset k is an interior one and its half-open range holds the id. */
  predicate InInterior(ts: seq<Tileset>, k: nat, id: int)
  {
    k + 1 < |ts| && ts[k].FirstGID <= id < ts[k + 1].FirstGID
  }

  /** The scan of the loader from index k on, as written: the first interior
      tileset whose range holds the id; failing that, the last tileset and
      its last tile. */
  function ScanFrom(ts: seq<Tileset>, id: int, k: nat): (r: (nat, int))
    requires k < |ts|
    decreases |ts| - k
    ensures k <= r.0 < |ts|
    ensures r.0 < |ts| - 1 ==> InInterior(ts, r.0, id) && r.1 == id - ts[r.0].FirstGID
    ensures r.0 == |ts| - 1 ==> r.1 == ts[|ts| - 1].Length - 1
    ensures forall m :: k <= m < r.0 ==> !InInterior(ts, m, id)
  {
    if k == |ts| - 1 then (k, ts[k].Length - 1)
    else if ts[k].FirstGID <= id && ts[k + 1].FirstGID > id then (k, id - ts[k].FirstGID)
    else ScanFrom(ts, id, k + 1)
  }

  /** Tileset resolution AS WRITTEN in the loader: every id that no interior
      range holds goes to the last tileset's LAST tile, even when it lies in
      the last tileset's own range. */
  function ResolveAsWritten(ts: seq<Tileset>, id: int): (r: (nat, int))
    requires |ts| > 0
    ensures r.0 < |ts|
    ensures r.0 < |ts| - 1 ==> InInterior(ts, r.0, id) && r.1 == id - ts[r.0].FirstGID
    ensures r.0 == |ts| - 1 ==> r.1 == ts[|ts| - 1].Length - 1
    ensures forall m :: 0 <= m < r.0 ==> !InInterior(ts, m, id)
  {
    ScanFrom(ts, id, 0)
  }

  /** Local index in the last tileset: the offset from its FirstGID when the id
      is in its range, otherwise clamped to its last tile. */
  function LastTilesetLocal(last: Tileset, id: int): (local: int)
    ensures last.FirstGID <= id < last.FirstGID + last.Length ==> 0 <= local < last.Length && local + last.FirstGID == id
    ensures !(last.FirstGID <= id < last.FirstGID + last.Length) ==> local == last.Length - 1
  {
    if last.FirstGID <= id < last.FirstGID + last.Length then id - last.FirstGID else last.Length - 1
  }

  /** Tileset resolution as the loader evidently intends it and as this model
      uses it: interior ranges as written, and an id inside the last
      tileset's range resolves to its offset there; only ids outside every
      range are clamped to the last tileset's last tile. */
  function Resolve(ts: seq<Tileset>, id: int): (r: (nat, int))
    requires |ts| > 0
    ensures r.0 < |ts|
    ensures r.0 < |ts| - 1 ==> InInterior(ts, r.0, id) && r.1 == id - ts[r.0].FirstGID
    ensures r.0 == |ts| - 1 ==> r.1 == LastTilesetLocal(ts[|ts| - 1], id)
    ensures forall m :: 0 <= m < r.0 ==> !InInterior(ts, m, id)
    ensures r.0 < |ts| - 1 ==> r == ResolveAsWritten(ts, id)
  {
    var found := ResolveAsWritten(ts, id);
    if found.0 < |ts| - 1 then found else (found.0, LastTilesetLocal(ts[|ts| - 1], id))
  }

  /** FirstGIDs strictly ascend, as Tiled writes them. */
  predicate Ascending(ts: seq<Tileset>)
  {
    forall a, b :: 0 <= a < b < |ts| ==> ts[a].FirstGID < ts[b].FirstGID
  }

  /** In an ascending table no two interior ranges overlap. */
  lemma InteriorUnique(ts: seq<Tileset>, a: nat, b: nat, id: int)
    requires Ascending(ts)
    requires InInterior(ts, a, id) && InInterior(ts, b, id)
    ensures a == b
  {
  }

  /** The intended resolution on an ascending table: an id in interior range
      k resolves to (k, id - FirstGID_k); an id at or above the last FirstGID
      resolves to the last tileset, at its offset while inside its Length and
      clamped to Length-1 beyond it. */
  lemma ResolveAscending(ts: seq<Tileset>, id: int)
    requires |ts| > 0 && Ascending(ts)
    ensures forall k :: 0 <= k && InInterior(ts, k, id) ==> Resolve(ts, id) == (k, id - ts[k].FirstGID)
    ensures id >= ts[|ts| - 1].FirstGID ==> Resolve(ts, id) == (|ts| - 1, LastTilesetLocal(ts[|ts| - 1], id))
  {
    var r := Resolve(ts, id);
    forall k | 0 <= k && InInterior(ts, k, id)
      ensures r == (k, id - ts[k].FirstGID)
    {
      if r.0 < |ts| - 1 {
        InteriorUnique(ts, r.0, k, id);
      }
    }
  }

  /** The as-written rule and the intended one agree except on ids that fall
      in the last tileset's range, where the as-written rule ignores the id. */
  lemma ResolveDiffersOnlyInLastRange(ts: seq<Tileset>, id: int)
    requires |ts| > 0
    ensures Resolve(ts, id) != ResolveAsWritten(ts, id) ==>
      && Resolve(ts, id).0 == |ts| - 1
      && ts[|ts| - 1].FirstGID <= id < ts[|ts| - 1].FirstGID + ts[|ts| - 1].Length - 1
  {
  }

  /** A single tileset of ten tiles from FirstGID 1: the loader as written puts
      GID 5 on local tile 9, the intended rule on local tile 4. */
  lemma AsWrittenIgnoresLastRange()
    ensures var ts := [Tileset(1, TilemapInput(null, IVec2(10, 1)), 10)];
      ResolveAsWritten(ts, 5) == (0, 9) && Resolve(ts, 5) == (0, 4)
  {
  }
}
