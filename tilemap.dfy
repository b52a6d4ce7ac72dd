/** The tile-map loader: it checks the map header, builds the tileset table,
    decodes every layer cell and creates one scene entity per non-empty cell.
    The JSON document arrives already parsed, as a MapDocument. */
module TileMapLoader {
  import opened Vectors
  import opened Wrappers
  import opened Components
  import opened SceneStore
  import opened TileGid
  import opened TileGrid
  import opened Tilesets

  /** One entry of the document's `layers` array; `data` holds the cells in
      row-major order. */
  datatype LayerEntry = LayerEntry(name: string, width: nat, height: nat, data: seq<Word>)

  /** The fields of the map document that the loader reads. */
  datatype MapDocument = MapDocument(
    tilewidth: int,
    tileheight: int,
    tilesets: seq<TilesetEntry>,
    layers: seq<LayerEntry>)

  /** The two fatal header errors; the source reports them and exits. */
  datatype LoadError = NonSquareTiles | TilesetCountMismatch

  /** What the loader records per layer. */
  datatype TileLayer = TileLayer(Name: string, Width: nat, Height: nat, TileEntities: seq<Entity>)

  /** World size of one tile: tile pixels / pixels-per-unit * 100. */
  function Footprint(tileSize: int, pixelsPerUnit: int): (f: real)
    requires pixelsPerUnit != 0
    ensures f * pixelsPerUnit as real == tileSize as real * 100.0
  {
    tileSize as real / pixelsPerUnit as real * 100.0
  }

  function DigitChar(d: nat): (c: char)
    requires d < 10
    ensures '0' <= c <= '9'
  {
    (d + '0' as int) as char
  }

  function DigitValue(c: char): (d: nat)
    requires '0' <= c <= '9'
    ensures d < 10
  {
    c as int - '0' as int
  }

  predicate IsDigits(s: string)
  {
    forall k :: 0 <= k < |s| ==> '0' <= s[k] <= '9'
  }

  /** Reads decimal text back as the number it spells, last digit least
      significant. */
  function DecimalValue(s: string): nat
    requires IsDigits(s)
  {
    if |s| == 0 then 0 else 10 * DecimalValue(s[..|s| - 1]) + DigitValue(s[|s| - 1])
  }

  /** Decimal text of a natural number, as std::format writes it: digits
      only, and no leading zero unless the number is 0. */
  function DecimalString(n: nat): (s: string)
    ensures |s| > 0 && IsDigits(s)
    ensures |s| > 1 ==> s[0] != '0'
    ensures n < 10 <==> |s| == 1
  {
    if n < 10 then [DigitChar(n)] else DecimalString(n / 10) + [DigitChar(n % 10)]
  }

  /** The text spells the number: reading it back gives `n`. */
  lemma {:induction false} DecimalRoundTrip(n: nat)
    ensures DecimalValue(DecimalString(n)) == n
  {
    var s := DecimalString(n);
    if n < 10 {
      assert s[..0] == [];
    } else {
      DecimalRoundTrip(n / 10);
      assert s[..|s| - 1] == DecimalString(n / 10);
    }
  }

  /** Different numbers get different text. */
  lemma DecimalStringInjective(m: nat, n: nat)
    requires DecimalString(m) == DecimalString(n)
    ensures m == n
  {
    DecimalRoundTrip(m);
    DecimalRoundTrip(n);
  }

  /** `std::format("Layer{}Tile{}", layerID, j * Width + i)` */
  function TileName(layerId: nat, cell: nat): string
  {
    "Layer" + DecimalString(layerId) + "Tile" + DecimalString(cell)
  }

  /** The transform of a tile: placed at footprint * (i, j), footprint wide
      and high, default rotation and pivot. */
  function TileTransform(t: CellTile, footprint: real): (tr: TransformComponent)
    ensures tr.Position.x == footprint * t.i as real && tr.Position.y == footprint * t.j as real
    ensures tr.Size == Vec2(footprint, footprint)
    ensures tr.Rotation == DefaultTransform.Rotation && tr.Pivot == DefaultTransform.Pivot
  {
    DefaultTransform.(Position := Vec2(footprint * t.i as real, footprint * t.j as real), Size := Splat(footprint))
  }

  /** The sprite renderer of a tile: the owning tileset's texture, white
      tint, and the cell's three flip flags. */
  function TileSpriteRenderer(t: CellTile, input: TilemapInput): (s: SpriteRendererComponent)
    ensures s.Texture == input.Texture && s.ColorTint == DefaultSpriteRenderer.ColorTint
    ensures s.FlipHorizontal == t.gid.flipH && s.FlipVertical == t.gid.flipV && s.FlipDiagonal == t.gid.flipD
  {
    SetTexture(DefaultSpriteRenderer, input.Texture).(
      FlipHorizontal := t.gid.flipH, FlipVertical := t.gid.flipV, FlipDiagonal := t.gid.flipD)
  }

  /** The components of the entity created for tile t of layer layerId when
      the tile belongs to the tileset built from `input` at local index
      `local`: the name, the tile's transform, its sprite renderer and a tile
      component with the tileset's grid and the local index. */
  function TileComponents(t: CellTile, layerId: nat, width: nat, footprint: real,
                          input: TilemapInput, local: int): (cs: map<Kind, Component>)
    ensures cs.Keys == {NameKind, TransformKind, SpriteRendererKind, TileKind}
    ensures WellKinded(cs)
    ensures cs[NameKind] == CName(NameComponent(TileName(layerId, t.j * width + t.i)))
    ensures cs[TileKind] == CTile(TileComponent(input.Dimensions, local))
  {
    CreatedComponents(TileName(layerId, t.j * width + t.i))
      [TransformKind := CTransform(TileTransform(t, footprint))]
      [SpriteRendererKind := CSpriteRenderer(TileSpriteRenderer(t, input))]
      [TileKind := CTile(TileOf(input.Dimensions).(TileIndex := local))]
  }

  /** The components of the entity created for tile t: those of the tileset
      and local index the tileset scan resolves its bare id to. */
  function TileEntityComponents(t: CellTile, layerId: nat, width: nat, footprint: real,
                                ts: seq<Tileset>, inputs: seq<TilemapInput>): map<Kind, Component>
    requires |ts| > 0 && |inputs| == |ts|
  {
    var found := Resolve(ts, t.gid.id as int);
    TileComponents(t, layerId, width, footprint, inputs[found.0], found.1)
  }

  /** Every cell of the layer's grid is empty. */
  ghost predicate LayerEmpty(layer: LayerEntry)
  {
    forall i: nat, j: nat :: i < layer.width && j < layer.height ==> !Occupied(CellWord(layer.data, layer.width, i, j))
  }

  /** The data array covers the width * height grid the loader reads. */
  predicate LayerCovered(layer: LayerEntry)
  {
    layer.width * layer.height <= |layer.data|
  }

  /** Entity e is a live entity of scene whose components are cs in store m. */
  ghost predicate EntityHolds(m: map<nat, map<Kind, Component>>, scene: Scene, e: Entity, cs: map<Kind, Component>)
  {
    e.scene == scene && e.handle.Live? && e.handle.id in m && m[e.handle.id] == cs
  }

  /** Store m2 keeps every entity of m1 with the same components. */
  ghost predicate Keeps(m1: map<nat, map<Kind, Component>>, m2: map<nat, map<Kind, Component>>)
  {
    forall id :: id in m1 ==> id in m2 && m2[id] == m1[id]
  }

  /** Entity ents[n] holds the components of tiles[n], for every n. */
  ghost predicate TilesHeld(m: map<nat, map<Kind, Component>>, scene: Scene, ents: seq<Entity>, tiles: seq<CellTile>,
                            layerId: nat, width: nat, footprint: real, ts: seq<Tileset>, inputs: seq<TilemapInput>)
  {
    && |ents| == |tiles|
    && (|tiles| > 0 ==> |ts| > 0 && |inputs| == |ts|)
    && (forall n :: 0 <= n < |tiles| ==>
          EntityHolds(m, scene, ents[n], TileEntityComponents(tiles[n], layerId, width, footprint, ts, inputs)))
  }

  lemma TilesHeldKept(m1: map<nat, map<Kind, Component>>, m2: map<nat, map<Kind, Component>>, scene: Scene,
                      ents: seq<Entity>, tiles: seq<CellTile>, layerId: nat, width: nat,
                      footprint: real, ts: seq<Tileset>, inputs: seq<TilemapInput>)
    requires Keeps(m1, m2)
    requires TilesHeld(m1, scene, ents, tiles, layerId, width, footprint, ts, inputs)
    ensures TilesHeld(m2, scene, ents, tiles, layerId, width, footprint, ts, inputs)
  {
    forall n | 0 <= n < |tiles|
      ensures EntityHolds(m2, scene, ents[n], TileEntityComponents(tiles[n], layerId, width, footprint, ts, inputs))
    {
      var cs := TileEntityComponents(tiles[n], layerId, width, footprint, ts, inputs);
      assert EntityHolds(m1, scene, ents[n], cs);
      assert m2[ents[n].handle.id] == m1[ents[n].handle.id];
    }
  }

  /** Layer record tl is what loading `layer` as layer number layerId yields:
      same name and size, and one entity per tile in visiting order, each with
      the components TileEntityComponents prescribes. */
  ghost predicate LayerLoaded(m: map<nat, map<Kind, Component>>, scene: Scene, tl: TileLayer, layer: LayerEntry,
                              layerId: nat, footprint: real, ts: seq<Tileset>, inputs: seq<TilemapInput>)
  {
    && tl.Name == layer.name && tl.Width == layer.width && tl.Height == layer.height
    && TilesHeld(m, scene, tl.TileEntities, LayerTiles(layer.data, layer.width, layer.height),
                 layerId, layer.width, footprint, ts, inputs)
  }

  /** The entities are the ones created in sequence from id base on, and
      they hold the components of `tiles`. */
  ghost predicate EntitiesHold(m: map<nat, map<Kind, Component>>, scene: Scene, ents: seq<Entity>,
                               tiles: seq<CellTile>, base: nat, layerId: nat, width: nat, footprint: real,
                               ts: seq<Tileset>, inputs: seq<TilemapInput>)
  {
    && (forall n :: 0 <= n < |ents| ==> ents[n].handle == Live(base + n))
    && TilesHeld(m, scene, ents, tiles, layerId, width, footprint, ts, inputs)
  }

  /** Appending the entity just created for tile t keeps the correspondence. */
  lemma EntitiesHoldExtend(m0: map<nat, map<Kind, Component>>, scene: Scene,
                           ents: seq<Entity>, tiles: seq<CellTile>, base: nat, layerId: nat, width: nat,
                           footprint: real, ts: seq<Tileset>, inputs: seq<TilemapInput>, t: CellTile)
    requires |ts| > 0 && |inputs| == |ts|
    requires base + |ents| !in m0
    requires EntitiesHold(m0, scene, ents, tiles, base, layerId, width, footprint, ts, inputs)
    ensures EntitiesHold(m0[base + |ents| := TileEntityComponents(t, layerId, width, footprint, ts, inputs)],
                         scene, ents + [Entity(Live(base + |ents|), scene)], tiles + [t],
                         base, layerId, width, footprint, ts, inputs)
  {
    var m1 := m0[base + |ents| := TileEntityComponents(t, layerId, width, footprint, ts, inputs)];
    TilesHeldKept(m0, m1, scene, ents, tiles, layerId, width, footprint, ts, inputs);
  }

  /** A finished layer whose entities hold the layer's tiles is loaded. */
  lemma EntitiesHoldLoaded(m: map<nat, map<Kind, Component>>, scene: Scene, ents: seq<Entity>, base: nat,
                           layer: LayerEntry, layerId: nat, footprint: real, ts: seq<Tileset>, inputs: seq<TilemapInput>)
    requires EntitiesHold(m, scene, ents, LayerTiles(layer.data, layer.width, layer.height), base,
                          layerId, layer.width, footprint, ts, inputs)
    ensures LayerLoaded(m, scene, TileLayer(layer.name, layer.width, layer.height, ents), layer, layerId, footprint, ts, inputs)
  {
  }

  lemma LayerLoadedKept(m1: map<nat, map<Kind, Component>>, m2: map<nat, map<Kind, Component>>, scene: Scene,
                        tl: TileLayer, layer: LayerEntry, layerId: nat, footprint: real,
                        ts: seq<Tileset>, inputs: seq<TilemapInput>)
    requires Keeps(m1, m2)
    requires LayerLoaded(m1, scene, tl, layer, layerId, footprint, ts, inputs)
    ensures LayerLoaded(m2, scene, tl, layer, layerId, footprint, ts, inputs)
  {
    TilesHeldKept(m1, m2, scene, tl.TileEntities, LayerTiles(layer.data, layer.width, layer.height),
                  layerId, layer.width, footprint, ts, inputs);
  }

  /** The loader's byte-level read of cell (i, j), at byte offset
      (j * width + i) * 4 of the host view of the data, yields that cell's word. */
  lemma CellReadBack(data: seq<Word>, width: nat, height: nat, i: nat, j: nat)
    requires width * height <= |data| && i < width && j < height
    ensures (j * width + i) * 4 + 4 <= |HostBytes(data)|
    ensures ReadLittleEndian(HostBytes(data), (j * width + i) * 4) == CellWord(data, width, i, j)
  {
    assert j * width + i < j * width + width == (j + 1) * width;
    assert (j + 1) * width <= height * width;
    HostBytesReadBack(data, j * width + i);
  }

  /** Progress of a layer load that started on store m0 with next id base:
      store m keeps every entity of m0, holds new entities only from base up
      to nextId, and ents are the entities created so far, one per tile of
      `tiles`. */
  ghost predicate Loaded(m0: map<nat, map<Kind, Component>>, base: nat, m: map<nat, map<Kind, Component>>, nextId: nat,
                         scene: Scene, ents: seq<Entity>, tiles: seq<CellTile>, layerId: nat, width: nat,
                         footprint: real, ts: seq<Tileset>, inputs: seq<TilemapInput>)
  {
    && Keeps(m0, m)
    && (forall id :: id in m ==> id in m0 || base <= id < nextId)
    && nextId == base + |ents|
    && EntitiesHold(m, scene, ents, tiles, base, layerId, width, footprint, ts, inputs)
  }

  /** Creating the entity of tile t under the next id extends the progress by
      that tile. */
  lemma LoadedExtend(m0: map<nat, map<Kind, Component>>, base: nat, m: map<nat, map<Kind, Component>>, nextId: nat,
                     scene: Scene, ents: seq<Entity>, tiles: seq<CellTile>, layerId: nat, width: nat,
                     footprint: real, ts: seq<Tileset>, inputs: seq<TilemapInput>, t: CellTile)
    requires |ts| > 0 && |inputs| == |ts| && nextId !in m
    requires Loaded(m0, base, m, nextId, scene, ents, tiles, layerId, width, footprint, ts, inputs)
    ensures Loaded(m0, base, m[nextId := TileEntityComponents(t, layerId, width, footprint, ts, inputs)], nextId + 1,
                   scene, ents + [Entity(Live(nextId), scene)], tiles + [t], layerId, width, footprint, ts, inputs)
  {
    EntitiesHoldExtend(m, scene, ents, tiles, base, layerId, width, footprint, ts, inputs, t);
  }

  lemma Overwrite(m: map<nat, map<Kind, Component>>, id: nat, a: map<Kind, Component>, b: map<Kind, Component>)
    ensures m[id := a][id := b] == m[id := b]
  {
  }

  class Tilemap {
    const scene: Scene
    const pixelsPerUnit: int
    var tileSize: int
    var tileFootprint: real
    var tileSets: seq<Tileset>
    var tileLayers: seq<TileLayer>

    /** The fields the constructor sets before reading the tilesets. */
    constructor Init(scene: Scene, pixelsPerUnit: int, tileSize: int)
      requires pixelsPerUnit != 0
      ensures this.scene == scene && this.pixelsPerUnit == pixelsPerUnit && this.tileSize == tileSize
      ensures tileFootprint == Footprint(tileSize, pixelsPerUnit)
      ensures tileSets == [] && tileLayers == []
    {
      this.scene := scene;
      this.pixelsPerUnit := pixelsPerUnit;
      this.tileSize := tileSize;
      tileFootprint := Footprint(tileSize, pixelsPerUnit);
      tileSets, tileLayers := [], [];
    }

    /** Builds the tileset table, one `emplace_back` per file entry. */
    method BuildTilesets(entries: seq<TilesetEntry>, inputs: seq<TilemapInput>)
      requires |entries| == |inputs|
      modifies this`tileSets
      ensures tileSets == TilesetTable(entries, inputs)
    {
      tileSets := [];
      var k := 0;
      while k < |entries|
        invariant 0 <= k <= |entries|
        invariant tileSets == TilesetTable(entries[..k], inputs[..k])
      {
        assert entries[..k + 1][..k] == entries[..k] && inputs[..k + 1][..k] == inputs[..k];
        tileSets := tileSets + [Tileset(entries[k].firstgid, inputs[k], inputs[k].Dimensions.x * inputs[k].Dimensions.y)];
        k := k + 1;
      }
      assert entries[..k] == entries && inputs[..k] == inputs;
    }

    /** The tileset scan: the first interior tileset whose half-open range
        holds the id wins; otherwise the last tileset, at the id's offset when
        its range holds the id and at its last tile when not. */
    method FindTileset(id: int) returns (foundTilemap: nat, foundTile: int)
      requires |tileSets| > 0
      ensures (foundTilemap, foundTile) == Resolve(tileSets, id)
    {
      foundTilemap := |tileSets| - 1;
      foundTile := LastTilesetLocal(tileSets[foundTilemap], id);
      var k := 0;
      while k < |tileSets| - 1
        invariant 0 <= k <= |tileSets| - 1
        invariant ScanFrom(tileSets, id, k) == ResolveAsWritten(tileSets, id)
        invariant foundTilemap == |tileSets| - 1 && foundTile == LastTilesetLocal(tileSets[foundTilemap], id)
      {
        if tileSets[k].FirstGID <= id && tileSets[k + 1].FirstGID > id {
          foundTile := id - tileSets[k].FirstGID;
          foundTilemap := k;
          return;
        }
        k := k + 1;
      }
    }

    /** Creates the entity of one tile that belongs to the tileset built
        from `input`, at local index `local`: CreateEntity with the tile's
        name, the transform placed and sized through GetComponent, then a
        sprite renderer and a tile component. */
    method CreateTileEntity(t: CellTile, layerId: nat, width: nat, input: TilemapInput, local: int) returns (e: Entity)
      requires scene.Valid()
      modifies scene
      ensures scene.Valid()
      ensures e == Entity(Live(old(scene.nextId)), scene)
      ensures old(scene.nextId) !in old(scene.entities)
      ensures scene.entities == old(scene.entities)[old(scene.nextId) :=
        TileComponents(t, layerId, width, tileFootprint, input, local)]
      ensures scene.nextId == old(scene.nextId) + 1
    {
      e := scene.CreateEntity(TileName(layerId, t.j * width + t.i));
      ghost var id, m0 := e.handle.id, old(scene.entities);
      ghost var cs := CreatedComponents(TileName(layerId, t.j * width + t.i));
      PlaceTile(e, t);
      Overwrite(m0, id, cs, cs[TransformKind := CTransform(TileTransform(t, tileFootprint))]);
      cs := cs[TransformKind := CTransform(TileTransform(t, tileFootprint))];
      AddTileRendering(e, t, input, local);
      Overwrite(m0, id, cs, TileComponents(t, layerId, width, tileFootprint, input, local));
    }

    /** Places and sizes a fresh tile entity through the reference
        GetComponent returns for its transform. */
    method PlaceTile(e: Entity, t: CellTile)
      requires e.Bound() && e.scene == scene && scene.Valid()
      requires TransformKind in scene.entities[e.handle.id]
      requires scene.entities[e.handle.id][TransformKind] == CTransform(DefaultTransform)
      modifies scene
      ensures scene.Valid() && scene.nextId == old(scene.nextId)
      ensures scene.entities == old(scene.entities)[e.handle.id := old(scene.entities[e.handle.id])
        [TransformKind := CTransform(TileTransform(t, tileFootprint))]]
    {
      var stored := e.GetComponent(TransformKind);
      var transform := stored.transform.(
        Position := Vec2(tileFootprint * t.i as real, tileFootprint * t.j as real),
        Size := Splat(tileFootprint));
      assert transform == TileTransform(t, tileFootprint);
      e.WriteComponent(CTransform(transform));
    }

    /** The second half of tile-entity creation: the sprite renderer with the
        tileset's texture and the cell's flips, then the tile component. */
    method AddTileRendering(e: Entity, t: CellTile, input: TilemapInput, local: int)
      requires e.Bound() && e.scene == scene && scene.Valid()
      requires SpriteRendererKind !in scene.entities[e.handle.id] && TileKind !in scene.entities[e.handle.id]
      modifies scene
      ensures scene.Valid() && scene.nextId == old(scene.nextId)
      ensures scene.entities == old(scene.entities)[e.handle.id := old(scene.entities[e.handle.id])
        [SpriteRendererKind := CSpriteRenderer(TileSpriteRenderer(t, input))]
        [TileKind := CTile(TileOf(input.Dimensions).(TileIndex := local))]]
    {
      ghost var id, m0, cs := e.handle.id, scene.entities, scene.entities[e.handle.id];
      var spriteRenderer := SetTexture(DefaultSpriteRenderer, input.Texture);
      spriteRenderer := spriteRenderer.(
        FlipHorizontal := t.gid.flipH,
        FlipVertical := t.gid.flipV,
        FlipDiagonal := t.gid.flipD);
      e.AddComponent(CSpriteRenderer(spriteRenderer));
      Overwrite(m0, id, cs, cs[SpriteRendererKind := CSpriteRenderer(spriteRenderer)]);
      var tileComponent := TileOf(input.Dimensions);
      tileComponent := tileComponent.(TileIndex := local);
      e.AddComponent(CTile(tileComponent));
      Overwrite(m0, id, cs[SpriteRendererKind := CSpriteRenderer(spriteRenderer)],
        cs[SpriteRendererKind := CSpriteRenderer(spriteRenderer)][TileKind := CTile(tileComponent)]);
    }

    /** Progress of a layer load on this map's scene: the registry is valid
        and Loaded holds of it. */
    ghost predicate Loading(m0: map<nat, map<Kind, Component>>, base: nat, ents: seq<Entity>, tiles: seq<CellTile>,
                            layerId: nat, width: nat, inputs: seq<TilemapInput>)
      reads this, scene
    {
      && scene.Valid()
      && Loaded(m0, base, scene.entities, scene.nextId, scene, ents, tiles, layerId, width, tileFootprint, tileSets, inputs)
    }

    /** One pass of the loader's inner loop, on cell (i, j): rebuild the GID
        from the four bytes at (j * width + i) * 4, skip it when its bare id
        is 0, and otherwise find its tileset and create its entity. */
    method LoadCell(layer: LayerEntry, layerId: nat, inputs: seq<TilemapInput>, tileData: seq<Byte>, i: nat, j: nat,
                    ghost m0: map<nat, map<Kind, Component>>, ghost base: nat, ents: seq<Entity>, ghost done: seq<CellTile>)
      returns (ents': seq<Entity>)
      requires tileData == HostBytes(layer.data) && LayerCovered(layer)
      requires i < layer.width && j < layer.height
      requires |inputs| == |tileSets| && (|tileSets| > 0 || LayerEmpty(layer))
      requires Loading(m0, base, ents, done, layerId, layer.width, inputs)
      modifies scene
      ensures Loading(m0, base, ents', done + TileAt(layer.data, layer.width, i, j), layerId, layer.width, inputs)
    {
      var width := layer.width;
      CellReadBack(layer.data, width, layer.height, i, j);
      var tileIndex := (j * width + i) * 4;
      var tileID := ReadLittleEndian(tileData, tileIndex);
      var gid := Decode(tileID);
      if BareId(tileID) == 0 {
        assert done + TileAt(layer.data, width, i, j) == done;
        return ents;
      }
      var tile := CellTile(i, j, gid);
      assert TileAt(layer.data, width, i, j) == [tile];
      ghost var m1, n1 := scene.entities, scene.nextId;
      var foundTilemap, foundTile := FindTileset(gid.id as int);
      var e := CreateTileEntity(tile, layerId, width, inputs[foundTilemap], foundTile);
      LoadedExtend(m0, base, m1, n1, scene, ents, done, layerId, width, tileFootprint, tileSets, inputs, tile);
      ents' := ents + [e];
    }

    /** The loader's inner loop over the rows of column i. */
    method LoadColumn(layer: LayerEntry, layerId: nat, inputs: seq<TilemapInput>, tileData: seq<Byte>, i: nat,
                      ghost m0: map<nat, map<Kind, Component>>, ghost base: nat, ents: seq<Entity>)
      returns (ents': seq<Entity>)
      requires tileData == HostBytes(layer.data) && LayerCovered(layer) && i < layer.width
      requires |inputs| == |tileSets| && (|tileSets| > 0 || LayerEmpty(layer))
      requires Loading(m0, base, ents, ColumnsTiles(layer.data, layer.width, layer.height, i), layerId, layer.width, inputs)
      modifies scene
      ensures Loading(m0, base, ents', ColumnsTiles(layer.data, layer.width, layer.height, i + 1), layerId, layer.width, inputs)
    {
      ghost var before := ColumnsTiles(layer.data, layer.width, layer.height, i);
      ents' := ents;
      var j := 0;
      while j < layer.height
        invariant 0 <= j <= layer.height
        invariant Loading(m0, base, ents', before + ColumnTiles(layer.data, layer.width, i, j), layerId, layer.width, inputs)
      {
        ghost var done := before + ColumnTiles(layer.data, layer.width, i, j);
        ents' := LoadCell(layer, layerId, inputs, tileData, i, j, m0, base, ents', done);
        assert before + ColumnTiles(layer.data, layer.width, i, j + 1) == done + TileAt(layer.data, layer.width, i, j);
        j := j + 1;
      }
      assert ColumnsTiles(layer.data, layer.width, layer.height, i + 1) == before + ColumnTiles(layer.data, layer.width, i, layer.height);
    }

    /** Loads one layer: visits the cells column by column (outer index over
        the width, inner over the height) and loads each cell; the layer
        record lists the created entities in visiting order. */
    method LoadLayer(layer: LayerEntry, layerId: nat, inputs: seq<TilemapInput>) returns (tl: TileLayer)
      requires scene.Valid() && |inputs| == |tileSets|
      requires LayerCovered(layer)
      requires |tileSets| > 0 || LayerEmpty(layer)
      modifies scene
      ensures scene.Valid()
      ensures Keeps(old(scene.entities), scene.entities)
      ensures forall id :: id in scene.entities ==> id in old(scene.entities) || old(scene.nextId) <= id < scene.nextId
      ensures scene.nextId == old(scene.nextId) + |LayerTiles(layer.data, layer.width, layer.height)|
      ensures LayerLoaded(scene.entities, scene, tl, layer, layerId, tileFootprint, tileSets, inputs)
      ensures forall n :: 0 <= n < |tl.TileEntities| ==> tl.TileEntities[n].handle == Live(old(scene.nextId) + n)
    {
      var tileData := HostBytes(layer.data);
      var tileEntities: seq<Entity> := [];
      ghost var m0, base := scene.entities, scene.nextId;
      var i := 0;
      while i < layer.width
        invariant 0 <= i <= layer.width
        invariant Loading(m0, base, tileEntities, ColumnsTiles(layer.data, layer.width, layer.height, i), layerId, layer.width, inputs)
      {
        tileEntities := LoadColumn(layer, layerId, inputs, tileData, i, m0, base, tileEntities);
        i := i + 1;
      }
      tl := TileLayer(layer.name, layer.width, layer.height, tileEntities);
      EntitiesHoldLoaded(scene.entities, scene, tileEntities, base, layer, layerId, tileFootprint, tileSets, inputs);
    }

    /** Loads every layer in document order, numbering them from 0. */
    method LoadLayers(layers: seq<LayerEntry>, inputs: seq<TilemapInput>)
      requires scene.Valid() && |inputs| == |tileSets|
      requires forall l :: l in layers ==> LayerCovered(l)
      requires |tileSets| > 0 || forall l :: l in layers ==> LayerEmpty(l)
      modifies this`tileLayers, scene
      ensures scene.Valid()
      ensures Keeps(old(scene.entities), scene.entities)
      ensures forall id :: id in scene.entities ==> id in old(scene.entities) || old(scene.nextId) <= id < scene.nextId
      ensures |tileLayers| == |layers|
      ensures forall L :: 0 <= L < |layers| ==>
        LayerLoaded(scene.entities, scene, tileLayers[L], layers[L], L, tileFootprint, tileSets, inputs)
    {
      tileLayers := [];
      var layerID := 0;
      while layerID < |layers|
        invariant 0 <= layerID <= |layers|
        invariant scene.Valid()
        invariant Keeps(old(scene.entities), scene.entities)
        invariant forall id :: id in scene.entities ==> id in old(scene.entities) || old(scene.nextId) <= id < scene.nextId
        invariant old(scene.nextId) <= scene.nextId
        invariant |tileLayers| == layerID
        invariant forall L :: 0 <= L < layerID ==>
          LayerLoaded(scene.entities, scene, tileLayers[L], layers[L], L, tileFootprint, tileSets, inputs)
      {
        assert layers[layerID] in layers;
        ghost var m0 := scene.entities;
        var layer := LoadLayer(layers[layerID], layerID, inputs);
        forall L | 0 <= L < layerID
          ensures LayerLoaded(scene.entities, scene, tileLayers[L], layers[L], L, tileFootprint, tileSets, inputs)
        {
          LayerLoadedKept(m0, scene.entities, scene, tileLayers[L], layers[L], L, tileFootprint, tileSets, inputs);
        }
        tileLayers := tileLayers + [layer];
        layerID := layerID + 1;
      }
    }
  }

  /** The loader's constructor. Non-square tiles and a tileset count that
      differs from the caller's are fatal before anything is built; otherwise
      the tileset table and every layer are loaded, and each layer's entity
      count equals its number of non-zero bare ids. */
  method Load(scene: Scene, document: MapDocument, tilemaps: seq<TilemapInput>, pixelsPerUnit: int)
    returns (r: Result<Tilemap, LoadError>)
    requires scene.Valid()
    requires document.tilewidth == document.tileheight && |document.tilesets| == |tilemaps| ==>
      && pixelsPerUnit != 0
      && (forall l :: l in document.layers ==> LayerCovered(l))
      && (|tilemaps| > 0 || forall l :: l in document.layers ==> LayerEmpty(l))
    modifies scene
    ensures document.tilewidth != document.tileheight ==> r == Err(NonSquareTiles)
    ensures document.tilewidth == document.tileheight && |document.tilesets| != |tilemaps| ==> r == Err(TilesetCountMismatch)
    ensures r.Err? ==> scene.entities == old(scene.entities) && scene.nextId == old(scene.nextId)
    ensures r.Ok? ==>
      var tm := r.value;
      && document.tilewidth == document.tileheight && |document.tilesets| == |tilemaps|
      && fresh(tm) && tm.scene == scene && scene.Valid()
      && tm.tileSize == document.tileheight
      && tm.tileFootprint == Footprint(document.tileheight, pixelsPerUnit)
      && tm.tileSets == TilesetTable(document.tilesets, tilemaps)
      && Keeps(old(scene.entities), scene.entities)
      && (forall id :: id in scene.entities ==> id in old(scene.entities) || old(scene.nextId) <= id < scene.nextId)
      && |tm.tileLayers| == |document.layers|
      && (forall L :: 0 <= L < |document.layers| ==>
            var layer := document.layers[L];
            && LayerLoaded(scene.entities, scene, tm.tileLayers[L], layer, L, tm.tileFootprint, tm.tileSets, tilemaps)
            && LayerCovered(layer)
            && |tm.tileLayers[L].TileEntities| == CountOccupied(layer.data[..layer.width * layer.height]))
  {
    if document.tilewidth != document.tileheight {
      return Err(NonSquareTiles);
    }
    if |document.tilesets| != |tilemaps| {
      return Err(TilesetCountMismatch);
    }
    var tm := new Tilemap.Init(scene, pixelsPerUnit, document.tileheight);
    tm.BuildTilesets(document.tilesets, tilemaps);
    tm.LoadLayers(document.layers, tilemaps);
    forall L | 0 <= L < |document.layers|
      ensures LayerCovered(document.layers[L])
      ensures |tm.tileLayers[L].TileEntities| == CountOccupied(document.layers[L].data[..document.layers[L].width * document.layers[L].height])
    {
      var layer := document.layers[L];
      assert layer in document.layers;
      assert LayerCovered(layer);
      LayerTilesCount(layer.data, layer.width, layer.height);
    }
    r := Ok(tm);
  }

  /** A two-cell layer [0x8000_0005, 0]: the enumeration yields one tile,
      cell (0, 0), flipped horizontally with bare id 5; the empty cell
      yields nothing. */
  lemma TwoCellLayerExample()
    ensures var data: seq<Word> := [0x8000_0005, 0];
            LayerTiles(data, 2, 1) == [CellTile(0, 0, Gid(true, false, false, 5))]
  {
    var data: seq<Word> := [0x8000_0005, 0];
    assert Decode(0x8000_0005) == Gid(true, false, false, 5);
    assert !Occupied(CellWord(data, 2, 1, 0));
    assert TileAt(data, 2, 0, 0) == [CellTile(0, 0, Gid(true, false, false, 5))];
  }

  /** That tile, over one ten-tile tileset starting at GID 1, becomes the
      entity "Layer0Tile0" showing local tile 4. */
  lemma TwoCellEntityExample()
    ensures var ts := [Tileset(1, TilemapInput(null, IVec2(10, 1)), 10)];
            var cs := TileEntityComponents(CellTile(0, 0, Gid(true, false, false, 5)), 0, 2, 100.0, ts, [ts[0].TilemapData]);
            && cs[TileKind] == CTile(TileComponent(IVec2(10, 1), 4))
            && cs[NameKind] == CName(NameComponent("Layer0Tile0"))
  {
    var ts := [Tileset(1, TilemapInput(null, IVec2(10, 1)), 10)];
    assert Resolve(ts, 5) == (0, 4);
    assert DigitChar(0) == '0';
    assert DecimalString(0) == "0";
    assert TileName(0, 0) == "Layer0Tile0";
  }
}
