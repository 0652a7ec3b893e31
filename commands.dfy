/**
 * The CharacterCommand component: the set of movement intents of a
 * character, and the keyboard snapshot it is rebuilt from.
 */
module Commands {

  /** CharacterCommand::Type. */
  datatype CommandType = MoveUp | MoveLeft | MoveDown | MoveRight

  /**
   * Whether each of the four movement keys is held (sf::Keyboard::isKeyPressed
   * for W, A, S and D), read at the moment a key event is handled.
   */
  datatype KeyState = KeyState(w: bool, a: bool, s: bool, d: bool)

  /** The key that drives each intent: W up, A left, S down, D right. */
  function IsHeld(keys: KeyState, t: CommandType): bool
  {
    match t
    case MoveUp => keys.w
    case MoveLeft => keys.a
    case MoveDown => keys.s
    case MoveRight => keys.d
  }

  /** The intents whose keys are held. */
  function Held(keys: KeyState): (r: set<CommandType>)
    ensures forall t :: t in r <==> IsHeld(keys, t)
  {
    (if keys.w then {MoveUp} else {}) + (if keys.a then {MoveLeft} else {}) +
    (if keys.s then {MoveDown} else {}) + (if keys.d then {MoveRight} else {})
  }

  /** A set of intents that is updated in place (a std::unordered_set in TestGame's CharacterCommand). */
  class CharacterCommand {
    var commands: set<CommandType>

    constructor ()
      ensures commands == {}
    {
      commands := {};
    }

    /** Whether intent `t` is in the set. */
    function Contains(t: CommandType): bool
      reads this
    {
      t in commands
    }

    /** Inserts `t`; inserting a present intent changes nothing. */
    method Add(t: CommandType)
      modifies this
      ensures commands == old(commands) + {t}
      ensures Contains(t)
      ensures forall u :: u != t ==> (Contains(u) <==> old(Contains(u)))
      ensures old(Contains(t)) ==> commands == old(commands)
    {
      commands := commands + {t};
    }

    /** Erases `t`; erasing an absent intent changes nothing. */
    method Remove(t: CommandType)
      modifies this
      ensures commands == old(commands) - {t}
      ensures !Contains(t)
      ensures forall u :: u != t ==> (Contains(u) <==> old(Contains(u)))
      ensures !old(Contains(t)) ==> commands == old(commands)
    {
      commands := commands - {t};
    }
  }

  /**
   * The body of populate_character_command: for each of the four intents,
   * add it when its key is held and remove it otherwise.  The result no
   * longer depends on what the command held before.
   */
  method ApplyKeys(c: CharacterCommand, keys: KeyState)
    modifies c
    ensures c.commands == Held(keys)
    ensures forall t :: c.Contains(t) <==> IsHeld(keys, t)
  {
    if keys.w { c.Add(MoveUp); } else { c.Remove(MoveUp); }
    if keys.a { c.Add(MoveLeft); } else { c.Remove(MoveLeft); }
    if keys.s { c.Add(MoveDown); } else { c.Remove(MoveDown); }
    if keys.d { c.Add(MoveRight); } else { c.Remove(MoveRight); }
  }
}
