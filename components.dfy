/** The component records an entity can carry, one of each kind at most,
    with the member initialisers and constructors of the source. */
module Components {
  import opened Vectors
  import opened Resources

  datatype NameComponent = NameComponent(Name: string)

  datatype ETag = Default | Player | Enemy

  datatype TagComponent = TagComponent(Tag: ETag)

  datatype TransformComponent =
    TransformComponent(Position: Vec2, Rotation: real, Size: Vec2, Pivot: Vec2)

  /** `Texture` is the weakly held texture reference that the tile-map loader
      assigns and the renderer binds; `TextureID` is the GL name copied by the
      texture constructor. */
  datatype SpriteRendererComponent = SpriteRendererComponent(
    TextureID: int,
    Texture: Texture?,
    ColorTint: Vec4,
    FlipHorizontal: bool,
    FlipVertical: bool,
    FlipDiagonal: bool)

  datatype BoxColliderComponent =
    BoxColliderComponent(Position: Vec2, Size: Vec2, DrawDebugCollision: bool)

  /** A time-driven 1-D strip of Divisions frames, FrameDuration seconds
      each. Only the members the render pass reads are kept; CurrentTime is
      the value its GetCurrentTime() returns during the pass, since the
      clock behind it is outside the model. */
  datatype FlipbookComponent =
    FlipbookComponent(Divisions: int, FrameDuration: real, CurrentTime: real)

  /** A fixed cell of a Divisions.x by Divisions.y atlas. */
  datatype TileComponent = TileComponent(Divisions: IVec2, TileIndex: int)

  datatype Kind =
    NameKind | TagKind | TransformKind | SpriteRendererKind | BoxColliderKind | FlipbookKind | TileKind

  /** Any one component, tagged with its kind. */
  datatype Component =
    | CName(name: NameComponent)
    | CTag(tag: TagComponent)
    | CTransform(transform: TransformComponent)
    | CSpriteRenderer(spriteRenderer: SpriteRendererComponent)
    | CBoxCollider(boxCollider: BoxColliderComponent)
    | CFlipbook(flipbook: FlipbookComponent)
    | CTile(tile: TileComponent)

  function KindOf(c: Component): Kind
  {
    match c
    case CName(_) => NameKind
    case CTag(_) => TagKind
    case CTransform(_) => TransformKind
    case CSpriteRenderer(_) => SpriteRendererKind
    case CBoxCollider(_) => BoxColliderKind
    case CFlipbook(_) => FlipbookKind
    case CTile(_) => TileKind
  }

  /** `TagComponent()`: the member initialiser. */
  const DefaultTag: TagComponent := TagComponent(Default)

  /** `TransformComponent()`: the member initialisers. */
  const DefaultTransform: TransformComponent :=
    TransformComponent(Vec2(0.0, 0.0), 0.0, Vec2(100.0, 100.0), Vec2(0.5, 0.5))

  /** The member initialisers of SpriteRendererComponent, which both of its
      constructors start from. */
  const DefaultSpriteRenderer: SpriteRendererComponent :=
    SpriteRendererComponent(0, null, Vec4(1.0, 1.0, 1.0, 1.0), false, false, false)

  /** The three-argument Transform constructor: position, rotation and size are
      taken from the arguments and the pivot keeps its initialiser. */
  function TransformOf(position: Vec2, rotation: real, size: Vec2): (t: TransformComponent)
    ensures t.Pivot == DefaultTransform.Pivot
    ensures t == DefaultTransform.(Position := position, Rotation := rotation, Size := size)
  {
    TransformComponent(position, rotation, size, Vec2(0.5, 0.5))
  }

  /** The explicit Tag constructor. */
  function TagOf(tag: ETag): (t: TagComponent)
    ensures t.Tag == tag
    ensures tag == Default ==> t == DefaultTag
  {
    TagComponent(tag)
  }

  /** The texture constructor: copies the texture's GL name and the tint; the
      flips keep their initialisers. */
  function SpriteRendererWithTexture(texture: Texture, color: Vec4): (s: SpriteRendererComponent)
    ensures s == DefaultSpriteRenderer.(TextureID := texture.ID as int, ColorTint := color)
    ensures !s.FlipHorizontal && !s.FlipVertical && !s.FlipDiagonal
  {
    SpriteRendererComponent(texture.ID as int, null, color, false, false, false)
  }

  /** The colour-only constructor: only the tint differs from the initialisers. */
  function SpriteRendererWithColor(color: Vec4): (s: SpriteRendererComponent)
    ensures s == DefaultSpriteRenderer.(ColorTint := color)
    ensures s.TextureID == 0 && !s.FlipHorizontal && !s.FlipVertical && !s.FlipDiagonal
  {
    SpriteRendererComponent(0, null, color, false, false, false)
  }

  /** `SpriteRendererComponent::SetTexture`: stores the (weak) texture reference. */
  function SetTexture(s: SpriteRendererComponent, texture: Texture?): (r: SpriteRendererComponent)
    ensures r.Texture == texture && r.(Texture := s.Texture) == s
  {
    s.(Texture := texture)
  }

  /** The BoxCollider constructor keeps exactly the given position and size;
      the debug-draw flag starts off. */
  function BoxColliderOf(position: Vec2, size: Vec2): (c: BoxColliderComponent)
    ensures c.Position == position && c.Size == size && !c.DrawDebugCollision
  {
    BoxColliderComponent(position, size, false)
  }

  /** `TileComponent(dimensions)`: the atlas shape, starting at cell 0. */
  function TileOf(dimensions: IVec2): (t: TileComponent)
    ensures t.Divisions == dimensions && t.TileIndex == 0
  {
    TileComponent(dimensions, 0)
  }
}
