/**
 * The entity store as a value, and the per-frame transforms the systems
 * apply to it: rebuilding a command from the keyboard, resolving
 * velocities, moving sprites and purging the transient components.
 * These are the specification of the World class's methods.
 */
module Systems {
  import opened Wrappers
  import opened Geometry
  import opened Commands
  import opened Motion

  /**
   * One entity's components: the sprite (only its position matters here),
   * the CharacterCommand and the Velocity, each present or absent.
   */
  datatype Entity = Entity(sprite: Option<Vec2>, command: Option<set<CommandType>>, velocity: Option<Velocity>)

  /** No entity carries a transient component (CharacterCommand or Velocity). */
  predicate Clean(es: seq<Entity>)
  {
    forall i :: 0 <= i < |es| ==> es[i].command.None? && es[i].velocity.None?
  }

  /** All sprite positions, entity by entity. */
  function Positions(es: seq<Entity>): (r: seq<Option<Vec2>>)
    ensures |r| == |es| && forall i :: 0 <= i < |es| ==> r[i] == es[i].sprite
  {
    seq(|es|, i requires 0 <= i < |es| => es[i].sprite)
  }

  /**
   * populate_character_command on entity `e`: the command (created empty if
   * absent) ends up holding exactly the intents whose keys are held,
   * whatever it held before; nothing else changes.
   */
  function Populated(es: seq<Entity>, e: nat, keys: KeyState): (r: seq<Entity>)
    requires e < |es|
    ensures |r| == |es|
    ensures r[e].command.Some? && forall t :: t in r[e].command.value <==> IsHeld(keys, t)
    ensures r[e].sprite == es[e].sprite && r[e].velocity == es[e].velocity
    ensures forall i :: 0 <= i < |es| && i != e ==> r[i] == es[i]
  {
    es[e := es[e].(command := Some(Held(keys)))]
  }

  /**
   * The "CharacterCommand" system: every entity with a command gets the
   * velocity its command resolves to (possibly none); entities without a
   * command and all other components are untouched.
   */
  function Resolved(es: seq<Entity>): (r: seq<Entity>)
    ensures |r| == |es|
    ensures forall i :: 0 <= i < |es| ==> r[i].sprite == es[i].sprite && r[i].command == es[i].command
    ensures forall i :: 0 <= i < |es| && es[i].command.Some? ==>
              r[i].velocity == ResolveVelocity(es[i].command.value)
    ensures forall i :: 0 <= i < |es| && es[i].command.None? ==> r[i] == es[i]
    ensures forall i :: 0 <= i < |es| && es[i].command.Some? && r[i].velocity.Some? ==>
              r[i].velocity.value != Velocity(0, 0)
  {
    seq(|es|, i requires 0 <= i < |es| =>
      if es[i].command.Some? then es[i].(velocity := ResolveVelocity(es[i].command.value)) else es[i])
  }

  /**
   * sprite.move(v.x * dt, v.y * dt): the displacement is velocity times dt
   * on each axis, so a zero velocity or a zero dt leaves the point where it is.
   */
  function Step(p: Vec2, v: Velocity, dt: real): (r: Vec2)
    ensures r.x - p.x == v.x as real * dt && r.y - p.y == v.y as real * dt
    ensures v == Velocity(0, 0) || dt == 0.0 ==> r == p
  {
    Vec2(p.x + v.x as real * dt, p.y + v.y as real * dt)
  }

  /**
   * The "Movement" system: each entity with both a Velocity and a sprite is
   * displaced by velocity times dt; every other entity is untouched, and no
   * component other than the sprite position changes.
   */
  function Moved(es: seq<Entity>, dt: real): (r: seq<Entity>)
    ensures |r| == |es|
    ensures forall i :: 0 <= i < |es| ==>
              r[i].command == es[i].command && r[i].velocity == es[i].velocity &&
              r[i].sprite.Some? == es[i].sprite.Some?
    ensures forall i :: 0 <= i < |es| && (es[i].velocity.None? || es[i].sprite.None?) ==> r[i] == es[i]
    ensures forall i :: 0 <= i < |es| && es[i].velocity.Some? && es[i].sprite.Some? ==>
              r[i].sprite.value.x == es[i].sprite.value.x + es[i].velocity.value.x as real * dt &&
              r[i].sprite.value.y == es[i].sprite.value.y + es[i].velocity.value.y as real * dt
  {
    seq(|es|, i requires 0 <= i < |es| =>
      if es[i].velocity.Some? && es[i].sprite.Some?
      then es[i].(sprite := Some(Step(es[i].sprite.value, es[i].velocity.value, dt)))
      else es[i])
  }

  /**
   * world.progress(dt): the two systems in declaration order.  An entity
   * with a command and a sprite moves by the velocity its command resolves
   * to (not at all when that is none); an entity without a command is
   * untouched; commands are kept.
   */
  function Progressed(es: seq<Entity>, dt: real): (r: seq<Entity>)
    ensures |r| == |es|
    ensures forall i :: 0 <= i < |es| ==> r[i].command == es[i].command && r[i].sprite.Some? == es[i].sprite.Some?
    ensures forall i :: 0 <= i < |es| && es[i].command.Some? && es[i].sprite.Some? ==>
              r[i].velocity == ResolveVelocity(es[i].command.value) &&
              r[i].sprite.value == Step(es[i].sprite.value, NetVelocity(es[i].command.value), dt)
    ensures forall i :: 0 <= i < |es| && es[i].command.None? ==> r[i] == Moved(es, dt)[i]
  {
    Moved(Resolved(es), dt)
  }

  /**
   * cleanup_temporary_components, as evidently intended: every
   * CharacterCommand and every Velocity is removed from every entity;
   * sprites are kept.
   */
  function CleanedUp(es: seq<Entity>): (r: seq<Entity>)
    ensures Clean(r)
    ensures Positions(r) == Positions(es)
    ensures Clean(es) ==> r == es
  {
    seq(|es|, i requires 0 <= i < |es| => es[i].(command := None, velocity := None))
  }

  /** Purging twice is the same as purging once. */
  lemma CleanupIdempotent(es: seq<Entity>)
    ensures CleanedUp(CleanedUp(es)) == CleanedUp(es)
  {
  }

  /** With no commands and no velocities, progress changes nothing. */
  lemma ProgressOfCleanIsIdentity(es: seq<Entity>, dt: real)
    requires Clean(es)
    ensures Progressed(es, dt) == es
  {
  }

  /**
   * cleanup_temporary_components as written: flecs' world.remove<T>()
   * removes the singleton T (the component stored on the entity named T),
   * and no entity of this store is that singleton, so nothing changes.
   */
  function CleanedUpAsWritten(es: seq<Entity>): (r: seq<Entity>)
    ensures |r| == |es| && Positions(r) == Positions(es)
    ensures forall i :: 0 <= i < |es| ==> r[i].command == es[i].command && r[i].velocity == es[i].velocity
  {
    es
  }

  /**
   * With the cleanup as written, the command survives the end of the frame:
   * after one frame with W held (dt = 1), a second frame with no key event
   * moves the character up again, whereas the intended cleanup stops it.
   */
  lemma AsWrittenCleanupKeepsCharacterMoving()
    ensures var es := [Entity(Some(Vec2(0.0, 0.0)), Some({MoveUp}), None)];
            var written := CleanedUpAsWritten(Progressed(CleanedUpAsWritten(Progressed(es, 1.0)), 1.0));
            var intended := CleanedUp(Progressed(CleanedUp(Progressed(es, 1.0)), 1.0));
            written[0].sprite == Some(Vec2(0.0, -200.0)) && written[0].command == Some({MoveUp}) &&
            intended[0].sprite == Some(Vec2(0.0, -100.0)) && Clean(intended)
  {
  }
}
