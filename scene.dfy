/** The entity-component store. The registry is a map from live entity id to
    the components attached to it, at most one of each kind; ids are handed
    out in sequence, as the registry does when no entity is ever destroyed. */
module SceneStore {
  import opened Components

  /** `entt::entity`: the null handle or the id of a created entity. */
  datatype Handle = Null | Live(id: nat)

  /** Every stored component sits under its own kind. */
  ghost predicate WellKinded(cs: map<Kind, Component>)
  {
    forall k :: k in cs ==> KindOf(cs[k]) == k
  }

  /** The components attached by CreateEntity: the name and a default transform. */
  function CreatedComponents(name: string): (cs: map<Kind, Component>)
    ensures cs.Keys == {NameKind, TransformKind}
    ensures WellKinded(cs)
  {
    map[NameKind := CName(NameComponent(name)), TransformKind := CTransform(DefaultTransform)]
  }

  class Scene {
    /** The registry: components of every live entity, by entity id. */
    var entities: map<nat, map<Kind, Component>>
    /** The id the registry hands out next. */
    var nextId: nat

    ghost predicate Valid()
      reads this
    {
      && (forall id :: id in entities ==> id < nextId)
      && (forall id :: id in entities ==> WellKinded(entities[id]))
    }

    constructor()
      ensures Valid() && entities == map[] && nextId == 0
    {
      entities, nextId := map[], 0;
    }

    /** `Scene::CreateEntity`: a new handle, then a NameComponent holding the
        name and a default TransformComponent; nothing else is attached and
        no existing entity changes. */
    method CreateEntity(name: string) returns (e: Entity)
      requires Valid()
      modifies this
      ensures Valid()
      ensures e == Entity(Live(old(nextId)), this)
      ensures old(nextId) !in old(entities)
      ensures entities == old(entities)[old(nextId) := CreatedComponents(name)]
      ensures nextId == old(nextId) + 1
    {
      var id := nextId;
      entities := entities[id := map[]];
      nextId := nextId + 1;
      e := Entity(Live(id), this);
      e.AddComponent(CName(NameComponent(name)));
      e.AddComponent(CTransform(DefaultTransform));
      assert entities[id] == CreatedComponents(name);
    }
  }

  /** `Entity`: a handle together with the scene it lives in. */
  datatype Entity = Entity(handle: Handle, scene: Scene?) {

    /** The handle names an entity of its scene. */
    predicate Bound()
      reads scene
    {
      handle.Live? && scene != null && handle.id in scene.entities
    }

    /** `AddComponent<T>(args)`: the component built from the arguments is
        stored under its kind; the registry requires the kind to be absent.
        No other entity and no other kind changes. */
    method AddComponent(c: Component)
      requires Bound() && scene.Valid()
      requires KindOf(c) !in scene.entities[handle.id]
      modifies scene
      ensures scene.Valid() && scene.nextId == old(scene.nextId)
      ensures scene.entities == old(scene.entities)[handle.id := old(scene.entities[handle.id])[KindOf(c) := c]]
    {
      scene.entities := scene.entities[handle.id := scene.entities[handle.id][KindOf(c) := c]];
    }

    /** `HasComponent<T>()`: a query that leaves the registry as it is. */
    method HasComponent(k: Kind) returns (b: bool)
      requires Bound()
      ensures b <==> k in scene.entities[handle.id]
    {
      b := k in scene.entities[handle.id];
    }

    /** `GetComponent<T>()` on an entity that has T returns the stored
        component, which is of kind T. (Without T the source logs a warning and
        asks the registry anyway, which has no defined result.) */
    method GetComponent(k: Kind) returns (c: Component)
      requires Bound() && scene.Valid()
      requires k in scene.entities[handle.id]
      ensures KindOf(c) == k
      ensures c == scene.entities[handle.id][k]
    {
      c := scene.entities[handle.id][k];
    }

    /** An assignment through the reference GetComponent returns: the stored
        component of that kind is replaced, nothing else changes. */
    method WriteComponent(c: Component)
      requires Bound() && scene.Valid()
      requires KindOf(c) in scene.entities[handle.id]
      modifies scene
      ensures scene.Valid() && scene.nextId == old(scene.nextId)
      ensures scene.entities == old(scene.entities)[handle.id := old(scene.entities[handle.id])[KindOf(c) := c]]
    {
      scene.entities := scene.entities[handle.id := scene.entities[handle.id][KindOf(c) := c]];
    }
  }

  /** `Entity()`: the default entity holds the null handle and no scene. */
  function DefaultEntity(): (e: Entity)
    ensures e.handle == Null && !e.Bound()
  {
    Entity(Null, null)
  }
}
