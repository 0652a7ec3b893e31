/**
 * The entity-component store (the flecs world) holding, per entity, a
 * sprite position, a CharacterCommand and a Velocity, with the operations
 * the frame pipeline performs on it.  Each method is specified by the
 * matching transform of module Systems on the abstract store `Entities`.
 */
module Ecs {
  import opened Wrappers
  import opened Geometry
  import opened Commands
  import opened Motion
  import opened Systems

  /** The command set an optional component object currently holds. */
  ghost function CommandSet(o: Option<CharacterCommand>): Option<set<CommandType>>
    reads if o.Some? then {o.value} else {}
  {
    if o.Some? then Some(o.value.commands) else None
  }

  class World {
    // public view: the components of entities 0 .. |Entities| - 1
    ghost var Entities: seq<Entity>
    // the CharacterCommand objects the store owns
    ghost var Repr: set<CharacterCommand>

    // component columns, indexed by entity
    var sprite: seq<Option<Vec2>>
    var command: seq<Option<CharacterCommand>>
    var velocity: seq<Option<Velocity>>

    /**
     * The columns have one slot per entity, every command object is owned
     * by the store and by one entity only, and `Entities` is what the
     * columns hold.
     */
    ghost predicate Valid()
      reads this, Repr
    {
      && |sprite| == |Entities| && |command| == |Entities| && |velocity| == |Entities|
      && (forall i, j :: 0 <= i < j < |command| && command[i].Some? && command[j].Some? ==>
            command[i].value != command[j].value)
      && (forall i :: 0 <= i < |Entities| ==>
            (command[i].Some? ==> command[i].value in Repr) &&
            Entities[i] == Entity(sprite[i], CommandSet(command[i]), velocity[i]))
    }

    constructor ()
      ensures Valid() && Entities == [] && Repr == {}
    {
      sprite, command, velocity := [], [], [];
      Entities, Repr := [], {};
    }

    /** world.entity() followed by emplace<sf::Sprite>: a new entity with only a sprite. */
    method CreateEntity(position: Vec2) returns (e: nat)
      requires Valid()
      modifies this
      ensures Valid() && Repr == old(Repr)
      ensures e == |old(Entities)|
      ensures Entities == old(Entities) + [Entity(Some(position), None, None)]
    {
      e := |sprite|;
      sprite := sprite + [Some(position)];
      command := command + [None];
      velocity := velocity + [None];
      Entities := Entities + [Entity(Some(position), None, None)];
    }

    /**
     * entity.get_mut<CharacterCommand>(): the entity's command object,
     * added empty first when the entity has none.
     */
    method GetMutCommand(e: nat) returns (c: CharacterCommand)
      requires Valid() && e < |Entities|
      modifies this
      ensures Valid() && c in Repr && fresh(Repr - old(Repr))
      ensures sprite == old(sprite) && velocity == old(velocity)
      ensures command == old(command)[e := Some(c)]
      ensures old(command[e]).Some? ==> c == old(command[e]).value && Entities == old(Entities)
      ensures old(Entities[e].command).None? ==> c.commands == {}
      ensures Entities == old(Entities)[e := old(Entities[e]).(command := Some(c.commands))]
    {
      match command[e]
      case Some(existing) =>
        c := existing;
      case None =>
        c := new CharacterCommand();
        command := command[e := Some(c)];
        Repr := Repr + {c};
        Entities := Entities[e := Entities[e].(command := Some({}))];
    }

    /**
     * populate_character_command: fetch (or add) the entity's command and
     * rebuild it from the keyboard.
     */
    method PopulateCharacterCommand(e: nat, keys: KeyState)
      requires Valid() && e < |Entities|
      modifies this, Repr
      ensures Valid() && fresh(Repr - old(Repr))
      ensures Entities == Populated(old(Entities), e, keys)
    {
      var c := GetMutCommand(e);
      ApplyKeys(c, keys);
      Entities := Entities[e := Entities[e].(command := Some(c.commands))];
    }

    /**
     * The "CharacterCommand" system: for every entity with a command, set
     * the Velocity it resolves to, or remove the Velocity when that is zero.
     */
    method ResolveVelocities()
      requires Valid()
      modifies this
      ensures Valid() && Repr == old(Repr)
      ensures Entities == Resolved(old(Entities))
    {
      ghost var target := Resolved(Entities);
      for i := 0 to |command|
        invariant sprite == old(sprite) && command == old(command) && |velocity| == |command|
        invariant Entities == old(Entities) && Repr == old(Repr)
        invariant forall j :: 0 <= j < i ==> velocity[j] == target[j].velocity
        invariant forall j :: i <= j < |velocity| ==> velocity[j] == old(velocity[j])
      {
        match command[i]
        case Some(c) =>
          velocity := velocity[i := ResolveVelocity(c.commands)];
        case None =>
      }
      Entities := target;
    }

    /** The "Movement" system: move every sprite that has a Velocity by velocity * dt. */
    method Move(dt: real)
      requires Valid()
      modifies this
      ensures Valid() && Repr == old(Repr)
      ensures Entities == Moved(old(Entities), dt)
    {
      ghost var target := Moved(Entities, dt);
      for i := 0 to |sprite|
        invariant command == old(command) && velocity == old(velocity) && |sprite| == |command|
        invariant Entities == old(Entities) && Repr == old(Repr)
        invariant forall j :: 0 <= j < i ==> sprite[j] == target[j].sprite
        invariant forall j :: i <= j < |sprite| ==> sprite[j] == old(sprite[j])
      {
        if velocity[i].Some? && sprite[i].Some? {
          sprite := sprite[i := Some(Step(sprite[i].value, velocity[i].value, dt))];
        }
      }
      Entities := target;
    }

    /** world.progress(dt): the two systems in the order they are declared. */
    method Progress(dt: real)
      requires Valid()
      modifies this
      ensures Valid() && Repr == old(Repr)
      ensures Entities == Progressed(old(Entities), dt)
    {
      ResolveVelocities();
      Move(dt);
    }

    /**
     * cleanup_temporary_components as intended (see README "## Findings"):
     * remove every CharacterCommand and every Velocity.
     */
    method CleanupTemporaryComponents()
      requires Valid()
      modifies this
      ensures Valid() && Repr == {}
      ensures Entities == CleanedUp(old(Entities))
    {
      command := seq(|command|, _ => None);
      velocity := seq(|velocity|, _ => None);
      Repr := {};
      Entities := CleanedUp(Entities);
    }
  }
}
