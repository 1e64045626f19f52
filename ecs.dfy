/**
 * The slice of the ECS runtime that the schedule-graph settings observe.
 *
 * A system is seen only through its name, and the world only through its
 * component registry: a partial map from a component id to the component's
 * registration info, whose Rust type id may itself be absent (components
 * registered dynamically have none).
 */
module Ecs {

  /** Index of a registered component (a `usize` in the runtime). */
  newtype ComponentId = n: int | 0 <= n

  /** Opaque identity of a Rust type; only its equality matters here. */
  newtype TypeId = n: int | 0 <= n

  /** A schedulable system, abstracted to its fully qualified name. */
  datatype System = System(name: string)

  /** Registration record of one component. */
  datatype ComponentInfo = ComponentInfo(typeId: Option<TypeId>)

  /** The live data store, abstracted to its component registry. */
  datatype World = World(components: map<ComponentId, ComponentInfo>)

  datatype Option<+T> = None | Some(value: T)

  /** `world.components().get_info(id)`: the info of a registered component, if any. */
  function GetInfo(world: World, id: ComponentId): (r: Option<ComponentInfo>)
    ensures r.Some? <==> id in world.components
    ensures r.Some? ==> r.value == world.components[id]
  {
    if id in world.components then Some(world.components[id]) else None
  }

  /**
   * `get_info(id).and_then(|info| info.type_id())`: the Rust type behind a
   * component id, absent when the id is unregistered or has no type.
   */
  function ResolveType(world: World, id: ComponentId): (r: Option<TypeId>)
    ensures r.Some? <==> id in world.components && world.components[id].typeId.Some?
    ensures r.Some? ==> r.value == world.components[id].typeId.value
  {
    match GetInfo(world, id)
    case None => None
    case Some(info) => info.typeId
  }
}
