# OpenGLPacman core, modelled in Dafny

This project models the logic core of OpenGLPacman, a small 2D engine and
Pacman game built on OpenGL and the entt entity-component registry. It covers:

- **Tile-map loader.** It checks the map header, builds the tileset table and
  reassembles each layer cell's 32-bit global tile id (GID) from
  little-endian bytes. It then splits off the three flip flags, finds the
  owning tileset and creates one scene entity per non-empty cell, column by
  column.
- **Scene store.** Entities with at most one component of each kind, the
  component records with their defaults and constructors, and
  `CreateEntity`, `AddComponent`, `HasComponent` and `GetComponent`.
- **Sprite render pass.** For each entity that has a Transform and a
  SpriteRenderer, the pass sets the sprite shader's atlas uniforms from the
  entity's Flipbook or Tile component and draws a quad. When the entity's
  box collider asks for it, the pass also draws the collider's five-point
  outline. An entity carrying both a Flipbook and a Tile is fatal.
- **Resource cache.** Shaders and textures keyed by name.
- **Debug line drawing.**
- **Stand-alone sprites.** `Sprite` (transform setters, flips, fixed
  collider, collider outline) and `TileSprite` (index clamp, uniform
  set and reset).
- **Movement graph node.** Four neighbour slots.
- **Keyboard characters.** `Pacman` and `PlayableCharacter`: a key press
  picks a unit direction, and `Pacman` also picks a facing; an update moves
  the sprite at 150 units per second.

Modelling conventions:

- Floats are exact `real`s, and only linear facts are stated about them.
- A shader is observed through its map of integer uniforms.
- The registry is a map from entity id to the components of that entity.
- A fatal log message (`Log::Critical`, which exits) becomes an error
  result or a halted flag.
- The source's `ResourceManager` keeps its shader and texture maps in
  static, process-wide members. The model makes them fields of one
  `ResourceManager` instance, which every operation that uses the cache
  takes as a parameter.
- Things the program gets from outside become parameters: the parsed JSON
  document, the GL texture name, the flipbook clock reading, whether
  `_DEBUG` is defined, and the order in which the registry view yields
  entities.

Modules, one file each:

| file | module |
|---|---|
| `wrappers.dfy` | Wrappers |
| `vectors.dfy` | Vectors |
| `resources.dfy` | Resources |
| `components.dfy` | Components |
| `scene.dfy` | SceneStore |
| `gid.dfy` | TileGid |
| `tile_grid.dfy` | TileGrid |
| `tilesets.dfy` | Tilesets |
| `tilemap.dfy` | TileMapLoader |
| `debug_shapes.dfy` | DebugShapes |
| `colliders.dfy` | Colliders |
| `renderer.dfy` | RenderSystem |
| `sprite.dfy` | Sprites |
| `node.dfy` | GridNodes |
| `characters.dfy` | Characters |

Where the header and its `.cpp` disagree, the model follows the `.cpp`:

- `Tilemap.h` and `Tilemap.cpp`.
- `Pacman.h` and `Pacman.cpp`. The header describes an entity-based Pacman;
  the `.cpp` describes a sprite with an input vector.

The copy of `Components.h` lacks four members that `Renderer.cpp` and
`Tilemap.cpp` use. They are modelled from those uses:

- `FlipbookComponent`;
- `TileComponent`;
- `SpriteRendererComponent::SetTexture`/`HasTexture`;
- `BoxColliderComponent::DrawDebugCollision`.

The flipbook's `GetCurrentTime()` is modelled as a stored reading,
`CurrentTime`.

## Model

| member | source | states |
|---|---|---|
| Components.TransformOf | src/Core/Scene/Components.h:33-51 | the three-argument constructor takes position, rotation and size and keeps the default pivot (0.5, 0.5) |
| Components.TagOf | src/Core/Scene/Components.h:24-31 | the explicit constructor stores the tag; `Default` gives the default tag |
| Components.SpriteRendererWithTexture | src/Core/Scene/Components.h:53-68 | the texture constructor copies the texture's GL name and the tint; the flips stay false |
| Components.SpriteRendererWithColor | src/Core/Scene/Components.h:70-74 | the colour constructor differs from the member initialisers only in the tint: TextureID 0, no flips |
| Components.SetTexture | src/IO/Tilemap/Tilemap.cpp:157-159 | storing a texture reference changes that field and nothing else |
| Components.BoxColliderOf | src/Core/Scene/Components.h:77-90 | the collider keeps exactly the given position and size |
| Components.TileOf | src/IO/Tilemap/Tilemap.cpp:164-166 | a tile component takes the atlas shape and starts at cell 0 |
| SceneStore.CreatedComponents | src/Core/Scene/Scene.cpp:26-27 | creation attaches exactly a Name and a Transform, each under its own kind |
| SceneStore.Scene.constructor | src/Core/Scene/Scene.cpp:6-9 | an empty, valid registry |
| SceneStore.Scene.CreateEntity | src/Core/Scene/Scene.cpp:16-30 | a new id is allocated; it holds the given name and a default transform; no existing entity changes |
| SceneStore.Entity.AddComponent | src/Core/Scene/Entity.h:20-29 | the component is stored under its kind on this entity only; every other entity and kind is unchanged |
| SceneStore.Entity.HasComponent | src/Core/Scene/Entity.h:45-49 | true exactly when the entity holds that kind; the store is not changed |
| SceneStore.Entity.GetComponent | src/Core/Scene/Entity.h:31-43 | returns the stored component of that kind when it is present |
| SceneStore.Entity.WriteComponent | src/IO/Tilemap/Tilemap.cpp:149-155 | assigning through the returned reference replaces that one component |
| SceneStore.DefaultEntity | src/Core/Scene/Entity.h:54 | a default entity holds the null handle and is bound to no entity |
| Resources.Shader.Load | src/IO/ResourceManager.cpp:16-17 | a new shader remembers its two paths and has no uniforms set |
| Resources.Shader.SetInt | src/Rendering/Shader.cpp:81-87 | the named uniform takes the value; every other uniform keeps its value |
| Resources.Texture.Load | src/Rendering/Texture.cpp:20-64 | a new texture remembers its path and GL name |
| Resources.ResourceManager.constructor | src/IO/ResourceManager.cpp:3-4 | both caches start empty |
| Resources.ResourceManager.LoadShader | src/IO/ResourceManager.cpp:6-22 | a cached name returns the cached shader and ignores the paths; a new name inserts one fresh shader; either way the name then maps to the returned shader |
| Resources.ResourceManager.GetShader | src/IO/ResourceManager.cpp:24-27 | a known name returns its shader; an unknown name gains a null entry and null is returned |
| Resources.ResourceManager.LoadTexture | src/IO/ResourceManager.cpp:29-37 | always a fresh texture, stored under the name and replacing any earlier one; other names unchanged |
| Resources.ResourceManager.GetTexture | src/IO/ResourceManager.cpp:39-42 | a known name returns its texture; an unknown name gains a null entry and null is returned |
| Resources.ResourceManager.DestroyAll | src/IO/ResourceManager.cpp:44-54 | every stored shader and texture is released; both maps keep all their entries and no shader's uniforms change |
| DebugShapes.Flatten | src/Rendering/Debug/DebugShapes.cpp:26-30 | n points give 2n floats |
| DebugShapes.FlattenEntries | src/Rendering/Debug/DebugShapes.cpp:26-30 | entry 2k is x of point k and entry 2k+1 is its y |
| DebugShapes.FlattenAppend | src/Rendering/Debug/DebugShapes.cpp:26-30 | flattening distributes over concatenation, so input order is preserved |
| DebugShapes.FlattenVertices | src/Rendering/Debug/DebugShapes.cpp:23-30 | the append loop builds exactly the flattened buffer |
| DebugShapes.DrawLine | src/Rendering/Debug/DebugShapes.cpp:6-67 | "Debug" is loaded only when not cached; the strip holds the flattened points and one vertex per point, in green |
| TileGid.WordBytes | src/IO/Tilemap/Tilemap.cpp:89-90 | the little-endian byte layout of a word reads back as that word |
| TileGid.HostBytes | src/IO/Tilemap/Tilemap.cpp:89-90 | the byte view of n words has 4n bytes |
| TileGid.HostBytesReadBack | src/IO/Tilemap/Tilemap.cpp:99-105 | reassembling the four bytes of cell c gives back entry c |
| TileGid.Decode | src/IO/Tilemap/Tilemap.cpp:107-116 | the bare id after flag clearing is below 2^28 |
| TileGid.BareId | src/IO/Tilemap/Tilemap.cpp:112-118 | the compared id is the decoded id, below 2^28 |
| TileGid.FlagBitsOutsideId | src/IO/Tilemap/Tilemap.cpp:11-14 | the flip flags lie outside the id bits |
| TileGid.IdSurvivesMask | src/IO/Tilemap/Tilemap.cpp:112-116 | an id below 2^28 survives flag clearing |
| TileGid.FlagTests | src/IO/Tilemap/Tilemap.cpp:107-109 | each flag test reads back exactly the packed flag |
| TileGid.DecodeEncode | src/IO/Tilemap/Tilemap.cpp:107-116 | packing three flags and an id below 2^28, then decoding, gives the same flags and id |
| TileGid.EncodeDecode | src/IO/Tilemap/Tilemap.cpp:111-116 | decoding loses exactly bit 28, the hexagonal-rotation flag |
| TileGrid.ColumnTilesCount | src/IO/Tilemap/Tilemap.cpp:97-123 | the tiles of one column number its non-empty cells |
| TileGrid.ColumnsTilesCount | src/IO/Tilemap/Tilemap.cpp:95-123 | the tiles of the first c columns number their non-empty cells |
| TileGrid.SwapOrder | src/IO/Tilemap/Tilemap.cpp:95-98 | column-major and row-major visiting count the same cells |
| TileGrid.CountOccupiedAppend | src/IO/Tilemap/Tilemap.cpp:118-123 | the non-empty count of two arrays together is the sum of their counts |
| TileGrid.RowsPrefix | src/IO/Tilemap/Tilemap.cpp:99 | the first r rows of the row-major data hold the row-major count of non-empty cells |
| TileGrid.LayerTilesCount | src/IO/Tilemap/Tilemap.cpp:95-123 | a layer yields one tile per non-zero bare id among its width × height cells |
| TileGrid.ColumnTilesPlace | src/IO/Tilemap/Tilemap.cpp:97-99 | a column's tiles lie in that column, within the height |
| TileGrid.ColumnsTilesPlace | src/IO/Tilemap/Tilemap.cpp:95-99 | the tiles of c columns lie within those columns and the height |
| TileGrid.ColumnTilesContent | src/IO/Tilemap/Tilemap.cpp:99-123 | each tile of a column carries its cell's decoded GID, with a non-zero id |
| TileGrid.ColumnsTilesContent | src/IO/Tilemap/Tilemap.cpp:95-123 | the same for the tiles of several columns |
| TileGrid.LayerTilesSound | src/IO/Tilemap/Tilemap.cpp:95-123 | every tile of a layer is an in-grid cell with a non-zero bare id and its own decoded flags |
| TileGrid.ColumnTilesOrdered | src/IO/Tilemap/Tilemap.cpp:97 | within a column, tiles come in increasing row |
| TileGrid.ColumnsTilesOrderedAcross | src/IO/Tilemap/Tilemap.cpp:95-97 | every tile of earlier columns precedes the next column's tiles |
| TileGrid.ColumnTilesOrderedWithin | src/IO/Tilemap/Tilemap.cpp:97 | within a column the order is column-major precedence |
| TileGrid.ColumnsTilesOrdered | src/IO/Tilemap/Tilemap.cpp:95-97 | tiles of several columns are in column-major order |
| TileGrid.LayerTilesOrdered | src/IO/Tilemap/Tilemap.cpp:95-97 | a layer's tiles are visited column-major: outer index over the width, inner over the height |
| Tilesets.TilesetTable | src/IO/Tilemap/Tilemap.cpp:58-72 | entry k keeps the file's FirstGID, input k, and Length = Dimensions.x × Dimensions.y, in file order |
| Tilesets.ScanFrom | src/IO/Tilemap/Tilemap.cpp:126-138 | the first interior range from k that holds the id wins; otherwise the last tileset's last tile |
| Tilesets.ResolveAsWritten | src/IO/Tilemap/Tilemap.cpp:126-138 | as written: the first interior range holding the id gives (k, id - FirstGID_k); any other id gives (last, Length_last - 1) |
| Tilesets.LastTilesetLocal | src/IO/Tilemap/Tilemap.cpp:126-127 | inside the last range, the offset from its FirstGID; outside it, its last tile |
| Tilesets.Resolve | src/IO/Tilemap/Tilemap.cpp:126-138 | the corrected rule: interior ranges as written, and an id in the last range gets its own offset there |
| Tilesets.InteriorUnique | src/IO/Tilemap/Tilemap.cpp:129-137 | with ascending FirstGIDs at most one interior range holds an id |
| Tilesets.ResolveAscending | src/IO/Tilemap/Tilemap.cpp:126-138 | with ascending FirstGIDs, an id resolves into the range that holds it, at its offset |
| Tilesets.ResolveDiffersOnlyInLastRange | src/IO/Tilemap/Tilemap.cpp:126-138 | the as-written and corrected rules differ only on ids inside the last tileset's range |
| Tilesets.AsWrittenIgnoresLastRange | src/IO/Tilemap/Tilemap.cpp:126-138 | one tileset of ten tiles from GID 1: as written, GID 5 goes to tile 9; corrected, to tile 4 |
| TileMapLoader.Footprint | src/IO/Tilemap/Tilemap.cpp:43-44 | footprint × pixels-per-unit = tile size × 100 |
| TileMapLoader.DecimalString | src/IO/Tilemap/Tilemap.cpp:143-146 | the decimal text of a number is non-empty, all digits, one digit exactly below 10, and has no leading zero |
| TileMapLoader.DecimalRoundTrip | src/IO/Tilemap/Tilemap.cpp:143-146 | reading the text back as a decimal number gives the number it was written from |
| TileMapLoader.DecimalStringInjective | src/IO/Tilemap/Tilemap.cpp:143-146 | different numbers get different text |
| TileMapLoader.TileTransform | src/IO/Tilemap/Tilemap.cpp:149-155 | a tile sits at footprint × (i, j), is footprint square, and keeps the default rotation and pivot |
| TileMapLoader.TileSpriteRenderer | src/IO/Tilemap/Tilemap.cpp:157-162 | a tile's sprite uses the tileset's texture, a white tint and the cell's three flips |
| TileMapLoader.TileComponents | src/IO/Tilemap/Tilemap.cpp:142-168 | a tile entity holds exactly a name, a transform, a sprite renderer and a tile component with the tileset's shape and the local index |
| TileMapLoader.TilesHeldKept | src/IO/Tilemap/Tilemap.cpp:142-170 | creating later entities keeps earlier tile entities intact |
| TileMapLoader.EntitiesHoldExtend | src/IO/Tilemap/Tilemap.cpp:170 | appending the newly created entity keeps the tile-to-entity correspondence |
| TileMapLoader.EntitiesHoldLoaded | src/IO/Tilemap/Tilemap.cpp:174 | the finished entity list is the layer's record |
| TileMapLoader.LayerLoadedKept | src/IO/Tilemap/Tilemap.cpp:79-178 | loading later layers keeps earlier layers' entities intact |
| TileMapLoader.CellReadBack | src/IO/Tilemap/Tilemap.cpp:99-105 | the bytes at (j × width + i) × 4 reassemble to cell (i, j) |
| TileMapLoader.LoadedExtend | src/IO/Tilemap/Tilemap.cpp:142-170 | creating the next tile's entity extends the progress invariant by that tile |
| TileMapLoader.Tilemap.Init | src/IO/Tilemap/Tilemap.cpp:22-44 | keeps scene, pixels-per-unit and tile size; the footprint is computed from them; tables start empty |
| TileMapLoader.Tilemap.BuildTilesets | src/IO/Tilemap/Tilemap.cpp:54-72 | the loop builds exactly TilesetTable |
| TileMapLoader.Tilemap.FindTileset | src/IO/Tilemap/Tilemap.cpp:125-138 | the scan loop returns Resolve (corrected rule) |
| TileMapLoader.Tilemap.CreateTileEntity | src/IO/Tilemap/Tilemap.cpp:142-168 | one new entity under the next id with TileComponents; nothing else changes |
| TileMapLoader.Tilemap.PlaceTile | src/IO/Tilemap/Tilemap.cpp:149-155 | the transform is replaced by the tile's placement and nothing else changes |
| TileMapLoader.Tilemap.AddTileRendering | src/IO/Tilemap/Tilemap.cpp:157-168 | adds the sprite renderer and the tile component and nothing else |
| TileMapLoader.Tilemap.LoadCell | src/IO/Tilemap/Tilemap.cpp:99-170 | an empty cell creates nothing; a non-empty one adds one entity for its tile |
| TileMapLoader.Tilemap.LoadColumn | src/IO/Tilemap/Tilemap.cpp:97-171 | the inner loop adds the column's tiles in row order |
| TileMapLoader.Tilemap.LoadLayer | src/IO/Tilemap/Tilemap.cpp:83-177 | the record keeps name, width and height, and lists one entity per tile with consecutive ids; no earlier entity changes |
| TileMapLoader.Tilemap.LoadLayers | src/IO/Tilemap/Tilemap.cpp:74-178 | one record per layer in document order, each loaded as layer number L |
| TileMapLoader.Load | src/IO/Tilemap/Tilemap.cpp:16-179 | non-square tiles and a tileset count mismatch are fatal and create nothing, for every document and pixels-per-unit; otherwise the table and all layers are built, and each layer has as many entities as non-zero bare ids |
| TileMapLoader.TwoCellLayerExample | src/IO/Tilemap/Tilemap.cpp:95-123 | layer [0x80000005, 0] of width 2 yields exactly one tile, cell (0, 0), flipped horizontally with bare id 5 |
| TileMapLoader.TwoCellEntityExample | src/IO/Tilemap/Tilemap.cpp:125-168 | with one 10-tile tileset from GID 1 that tile becomes the entity "Layer0Tile0" on tile 4 |
| Colliders.WorldCollider | src/Core/Systems/Renderer.cpp:181-185 | the centre is position + size × pivot + collider offset; the extent is size × collider size |
| Colliders.BoxOutline | src/Core/Systems/Renderer.cpp:187-209 | five points, the last equal to the first, with axis-aligned edges; opposite corners are one extent apart and centred on the origin |
| Colliders.DefaultOutlineIsQuad | src/Rendering/Sprite/Sprite.cpp:106-130 | with the default collider and a centred pivot, the outline corners are the quad's corners |
| RenderSystem.Trunc | src/Core/Systems/Renderer.cpp:128-130 | the C float-to-int cast rounds toward zero |
| RenderSystem.CRem | src/Core/Systems/Renderer.cpp:128-131 | the C `%` keeps the dividend's sign and is below the divisor in magnitude |
| RenderSystem.CRemSteps | src/Core/Systems/Renderer.cpp:128-131 | the dividend is the C remainder plus a whole number of divisor magnitudes |
| RenderSystem.CRemCongruent | src/Core/Systems/Renderer.cpp:128-131 | the dividend and its C remainder differ by a multiple of the divisor |
| RenderSystem.CRemIsMod | src/Core/Systems/Renderer.cpp:128-131 | for a non-negative dividend and positive divisor the C `%` is the mathematical remainder |
| RenderSystem.CRemPeriodic | src/Core/Systems/Renderer.cpp:128-131 | adding whole divisors to a non-negative dividend keeps the remainder |
| RenderSystem.FlipbookFrame | src/Core/Systems/Renderer.cpp:128-131 | with non-negative time and positive parameters, 0 ≤ frame < Divisions |
| RenderSystem.FlipbookFrameIsMod | src/Core/Systems/Renderer.cpp:128-131 | with non-negative time and positive parameters the frame is the truncated elapsed frame count modulo Divisions |
| RenderSystem.LoopsLater | src/Core/Systems/Renderer.cpp:128-131 | whole loops later, only the clock has moved |
| RenderSystem.ElapsedFramesShift | src/Core/Systems/Renderer.cpp:128-130 | whole loops later, the truncated frame count has grown by cycles × Divisions |
| RenderSystem.FlipbookLoops | src/Core/Systems/Renderer.cpp:128-131 | whole loops later, the same frame is shown |
| RenderSystem.AtlasUniformsSpec | src/Core/Systems/Renderer.cpp:122-150 | a Flipbook writes only xDivisions and frame (yDivisions keeps its last value); a Tile writes (x, y, index) unclamped; neither writes (1, 1, 0); nothing else changes |
| RenderSystem.EntityUniformsSpec | src/Core/Systems/Renderer.cpp:157-164 | "image" is set to 0 exactly for a textured sprite |
| RenderSystem.ColliderDraws | src/Core/Systems/Renderer.cpp:174-213 | one outline exactly when a collider with debug drawing is present, none otherwise |
| RenderSystem.QuadOf | src/Core/Systems/Renderer.cpp:152-168 | the quad is drawn with the entity's uniforms, its tint and its texture |
| RenderSystem.EntityDraws | src/Core/Systems/Renderer.cpp:152-213 | an entity adds its quad, then its outline if it has one |
| RenderSystem.StepEntity | src/Core/Systems/Renderer.cpp:108-213 | a conflict halts with nothing drawn or set; otherwise the entity's uniforms and draws are added |
| RenderSystem.PassSnoc | src/Core/Systems/Renderer.cpp:39-214 | one more entity in view is one more loop step |
| RenderSystem.QuadIdsAppend | src/Core/Systems/Renderer.cpp:167-168 | the quads of two logs together are the quads of each, in order |
| RenderSystem.QuadIdsOutlines | src/Core/Systems/Renderer.cpp:211 | a log of outlines holds no quad |
| RenderSystem.PassHaltsIffConflict | src/Core/Systems/Renderer.cpp:110-120 | the pass is fatal exactly when some entity in view carries both a Flipbook and a Tile |
| RenderSystem.StepQuadIds | src/Core/Systems/Renderer.cpp:108-213 | a step that draws adds exactly one quad, for its own entity |
| RenderSystem.PassPrefixQuads | src/Core/Systems/Renderer.cpp:39-214 | the first k entities of the view, drawn without a conflict, leave one quad each, in view order |
| RenderSystem.PassDrawsEveryEntity | src/Core/Systems/Renderer.cpp:39-214 | a pass that completes draws one quad per entity in view, in view order |
| RenderSystem.PassStopsAtConflict | src/Core/Systems/Renderer.cpp:110-120 | the first conflicting entity ends the pass; it and later entities draw and set nothing |
| RenderSystem.ViewIsPassInput | src/Core/Systems/Renderer.cpp:34-39 | the view lists exactly the entities with a Transform and a SpriteRenderer, so each can be stepped |
| RenderSystem.Renderer.constructor | src/Core/Systems/Renderer.cpp:9-20 | keeps the scene and loads or reuses the cached "SpriteShader" |
| RenderSystem.Renderer.SetAtlas | src/Core/Systems/Renderer.cpp:122-150 | the shader's uniforms become AtlasUniforms of the entity |
| RenderSystem.Renderer.DrawCollider | src/Core/Systems/Renderer.cpp:174-213 | draws ColliderDraws through DrawLine; the cache is untouched when nothing is drawn, and otherwise at most gains a "Debug" shader, every other entry kept |
| RenderSystem.Renderer.RenderEntity | src/Core/Systems/Renderer.cpp:152-213 | uniforms become EntityUniforms and the draws are EntityDraws; the cache at most gains a "Debug" shader, every other entry kept |
| RenderSystem.Renderer.Advance | src/Core/Systems/Renderer.cpp:108-213 | one loop iteration on top of the pass so far; reports a conflict exactly for an entity with both a Flipbook and a Tile, leaving uniforms and cache as they were; otherwise the cache at most gains a "Debug" shader |
| RenderSystem.Renderer.RenderSprites | src/Core/Systems/Renderer.cpp:27-215 | the shader's uniforms, the draws and the fatal flag are those of Pass over the view, from the shader's uniforms on entry; the cache at most gains a "Debug" shader and every other entry, "SpriteShader" included, is kept |
| Sprites.Sprite.Plain | src/Rendering/Sprite/Sprite.cpp:12-25 | takes the cached "SpriteShader" with the cache unchanged, or on first use a fresh non-null shader from the sprite paths added under that name alone; keeps position, size and colour; no texture, no rotation, centred pivot, no flips, collision off |
| Sprites.Sprite.Textured | src/Rendering/Sprite/Sprite.cpp:5-10 | as the plain constructor (the same shader-cache outcome), plus the texture and hasTexture set |
| Sprites.Sprite.Draw | src/Rendering/Sprite/Sprite.cpp:86-91 | only a textured sprite writes "image" := 0; no other integer uniform changes |
| Sprites.Sprite.SetPosition | src/Rendering/Sprite/Sprite.cpp:190-193 | overwrites the position, nothing else |
| Sprites.Sprite.AddPosition | src/Rendering/Sprite/Sprite.cpp:195-198 | adds to the position; the collider moves by the same offset and keeps its size |
| Sprites.Sprite.SetRotation | src/Rendering/Sprite/Sprite.cpp:175-178 | sets the rotation, nothing else |
| Sprites.Sprite.AddRotation | src/Rendering/Sprite/Sprite.cpp:180-183 | adds to the rotation, nothing else |
| Sprites.Sprite.SetScale | src/Rendering/Sprite/Sprite.cpp:200-203 | changes only the size |
| Sprites.Sprite.SetFlipHorizontal | src/Rendering/Sprite/Sprite.cpp:205-208 | changes only its own flag |
| Sprites.Sprite.SetFlipVertical | src/Rendering/Sprite/Sprite.cpp:210-213 | changes only its own flag |
| Sprites.Sprite.SetFlipDiagonal | src/Rendering/Sprite/Sprite.cpp:215-218 | changes only its own flag |
| Sprites.Sprite.ResetTransform | src/Rendering/Sprite/Sprite.cpp:220-229 | position (0, 0), rotation 0, size (1, 1), no flips; pivot, colour, texture and collider untouched |
| Sprites.Sprite.SetCollisionEnabled | src/Rendering/Sprite/Sprite.cpp:231-234 | collision is on whatever the argument |
| Sprites.Sprite.SetDrawCollision | src/Rendering/Sprite/Sprite.cpp:236-241 | the argument is ignored; on in a debug build, otherwise unchanged |
| Sprites.Sprite.GetColliderData | src/Rendering/Sprite/Sprite.cpp:243-252 | centre position + size × pivot, extent size (the default collider); with a centred pivot the outline runs along the quad |
| Sprites.Sprite.DrawCollision | src/Rendering/Sprite/Sprite.cpp:99-133 | nothing when drawing is off; otherwise a green strip of the five outline points; the cache at most gains a "Debug" shader, every other entry kept |
| Sprites.ClampTileIndex | src/Rendering/Sprite/TileSprite.cpp:21-34 | above x × y becomes x × y; anything else, x × y and negatives included, is kept; the result is at most x × y |
| Sprites.ClampIdempotent | src/Rendering/Sprite/TileSprite.cpp:19-35 | setting a stored index again changes nothing |
| Sprites.TileSprite.constructor | src/Rendering/Sprite/TileSprite.cpp:4-17 | a textured sprite with the sprite constructors' shader-cache outcome, the given divisions, tile index 0 |
| Sprites.TileSprite.SetCurrentTileIndex | src/Rendering/Sprite/TileSprite.cpp:19-35 | the stored index is ClampTileIndex(index, x × y) |
| Sprites.TileSprite.Draw | src/Rendering/Sprite/TileSprite.cpp:37-49 | during the inner draw the uniforms are (x, y, tileIndex), with "image" set for a texture; afterwards (1, 1, 0) |
| Sprites.TileSprite.GetTileAmount | src/Rendering/Sprite/TileSprite.cpp:56-59 | exactly x + y, the sum of the two division counts, not the cell count x × y |
| GridNodes.Node.constructor | src/Game/Entities/Node.h:9-17 | the given position, and every direction yields null |
| GridNodes.Node.GetNeighborNode | src/Game/Entities/Node.h:27-43 | a value outside the four directions yields null; any result is one of the four slots |
| GridNodes.Node.SetRightNeighbor | src/Game/Entities/Node.h:45-48 | MoveRight now yields the node; every other direction is unchanged |
| GridNodes.Node.SetLeftNeighbor | src/Game/Entities/Node.h:50-53 | MoveLeft now yields the node; every other direction is unchanged |
| GridNodes.Node.SetTopNeighbor | src/Game/Entities/Node.h:55-58 | MoveUp now yields the node; every other direction is unchanged |
| GridNodes.Node.SetBottomNeighbor | src/Game/Entities/Node.h:60-63 | MoveDown now yields the node; every other direction is unchanged |
| Characters.KeyDirection | src/Game/Entities/PlayableCharacter.cpp:7-29 | exactly the arrow keys and W, A, S, D select a direction, always a unit axis vector |
| Characters.KeyRotation | src/Game/Entities/Pacman.cpp:7-37 | a facing is selected on exactly the movement keys, between -180 and 90 degrees |
| Characters.Heading | src/Game/Entities/Pacman.cpp:14-35 | the direction a quarter-turn rotation faces is a unit axis vector |
| Characters.FacingMatchesDirection | src/Game/Entities/Pacman.cpp:7-37 | for every key, Pacman's new facing points along its new input |
| Characters.OppositeKeys | src/Game/Entities/Pacman.cpp:7-37 | opposite keys give opposite inputs and facings 180 degrees apart |
| Characters.InputAfter | src/Game/Entities/PlayableCharacter.cpp:7-29 | a movement key leaves a unit axis input; any other key keeps the old input |
| Characters.Velocity | src/Game/Entities/Pacman.cpp:44-48 | no input, no movement; a unit input moves 150 × abs(dt) along one axis |
| Characters.PlayableCharacter.constructor | src/Game/Entities/PlayableCharacter.cpp:42-56 | a textured body sprite whose shader is the cached "SpriteShader" or, on first use, a fresh non-null one added under that name alone; the animation parameters; input zero |
| Characters.PlayableCharacter.OnKeyPressed | src/Game/Entities/PlayableCharacter.cpp:7-29 | the input becomes InputAfter(key, old input); rotation is not touched |
| Characters.PlayableCharacter.OnKeyReleased | src/Game/Entities/PlayableCharacter.cpp:31-34 | changes nothing |
| Characters.PlayableCharacter.Update | src/Game/Entities/PlayableCharacter.cpp:36-40 | the body moves by input × 150 × dt |
| Characters.Pacman.constructor | src/Game/Entities/Pacman.cpp:50-64 | a textured body sprite whose shader is the cached "SpriteShader" or, on first use, a fresh non-null one added under that name alone; the animation parameters; input zero |
| Characters.Pacman.OnKeyPressed | src/Game/Entities/Pacman.cpp:7-37 | input as for PlayableCharacter, and the rotation becomes KeyRotation(key) on a movement key; any other key changes nothing |
| Characters.Pacman.OnKeyReleased | src/Game/Entities/Pacman.cpp:39-42 | changes nothing |
| Characters.Pacman.Update | src/Game/Entities/Pacman.cpp:44-48 | the body moves by input × 150 × dt |

## Left out

- **Model matrices.** Translation, rotation, the flip rotations and the
  scale in `Renderer.cpp` and `Sprite.cpp` are float trigonometry on
  glm matrices. A draw is observed only through its integer uniforms, tint
  and texture.
- **OpenGL calls.** Vertex arrays and buffers, texture binding, shader
  compilation and image loading are left out. A shader is its map of
  integer uniforms; the matrix, colour and vec3 uniforms are not recorded.
- **Degrees to radians.** `SetRotation` and `AddRotation` store the angle in
  degrees, because the radian conversion is float numerics.
- **Floating point.** Single-precision rounding is not modelled; `real` is
  exact.
- **Integer width.** The model does not wrap the following: x × y in
  `SetCurrentTileIndex`, `Dimensions.x * Dimensions.y`, the layer cell
  offset `(j * layer.Width + i) * 4` in `Tilemap.cpp`, and the `(int)`
  cast of a large quotient.
- **JSON parsing and file reading.** The loader receives the parsed
  document.
- **Parsed-document types.** The source reads GIDs as `uint32_t`; JSON
  values that do not fit are outside the model. A layer's width and height
  are `nat` in the model, while the source reads them as `int`: a negative
  width or height, which gives the source an empty layer, cannot be
  written in the model.
- **Time and OS state.** The flipbook clock, the GL texture name and
  `_DEBUG` are parameters.
- **Registry iteration order.** The order in which the entt view yields
  entities is an input of `RenderSprites`. Any order that lists each
  qualifying entity once is allowed.
- **Lifetimes.** `weak_ptr` expiry and `shared_ptr` ownership are not
  modelled, including the `shared_ptr(this)` in `CreateEntity`. The
  scene, shader and textures are assumed alive.
- **The animated-sprite base.** `AnimatedSprite` and its `Update` are not
  part of this model. `Pacman` and `PlayableCharacter` keep its divisions
  and frame duration but do not animate. `PlayableCharacter.h` is not part
  of this model; its input starts at zero as in `Pacman.h`.
- **Empty `Update`s.** `Sprite::Update` and `TileSprite::Update` have empty
  bodies and are not modelled.
- **Undefined behaviour made into preconditions.** The three loader
  preconditions below apply only to a document whose header passes both
  fatal checks (square tiles, matching tileset count); the fatal exits are
  modelled for every input:
  - a zero flipbook frame duration or division count;
  - a layer with a non-empty cell but no tilesets, which indexes
    `m_tileSets[-1]` (loader);
  - a "Debug" or "SpriteShader" cache entry holding null;
  - a sprite without a shader, or marked textured without a texture;
  - null entries in either cache at `DestroyAll`;
  - `GetComponent` on an absent component;
  - `AddComponent` of a kind already present (entt asserts);
  - a layer whose data holds fewer than width × height entries
    (`LayerCovered`, loader), since `Tilemap.cpp` reads `tileData` past
    its end without a check;
  - a pixels-per-unit of 0 (`pixelsPerUnit != 0` on the loader). The
    source divides by it without a check and gets an infinite float
    footprint, not a fatal stop.
- **Host byte order.** The GID bytes are read through a `reinterpret_cast`
  of the 32-bit entries, so the model takes the host to be little-endian
  (`HostBytes`). On a big-endian host the four bytes come in the other
  order.
- **Logging.** `Log::Info` and `Log::Warning` are no-ops, and
  `Log::Critical` is a fatal stop.
- **Tile index past the atlas.** `SetCurrentTileIndex` clamps to x × y, one
  past the last cell, and keeps negative indices. What the shader then
  samples is outside the model.
- **Tilesets.Resolve and the loader:** the model uses the corrected
  resolution. See Findings.

## Findings

| source | as written | input that shows it | evidently intended | confidence | as-written member | corrected member |
|---|---|---|---|---|---|---|
| src/IO/Tilemap/Tilemap.cpp:126-138 | an id that no interior range holds resolves to the last tileset's last tile (`Length - 1`), even when it lies inside the last tileset's own range | a single tileset with FirstGID 1 and 10 tiles; GID 5 resolves to local tile 9 | an id inside the last tileset's range resolves to `id - FirstGID` (tile 4); only ids outside every range fall back | high (not executed) | Tilesets.ResolveAsWritten, Tilesets.AsWrittenIgnoresLastRange | Tilesets.Resolve, Tilesets.ResolveAscending |
