/**
 * One frame of the main loop as a function of the game state: the window
 * events handled in the poll loop, world.progress(dt), the purge of the
 * transient components and the recentring of both views, and the loop
 * over frames that runs while the window is open.
 */
module Frames {
  import opened Wrappers
  import opened Geometry
  import opened Commands
  import opened Motion
  import opened Systems

  /** The key codes the loop distinguishes. */
  datatype KeyCode = W | A | S | D | BackSpace | Delete | OtherKey

  /**
   * A window event.  A key event carries the state of the four movement
   * keys at the moment it is handled (what sf::Keyboard::isKeyPressed
   * reports then).
   */
  datatype Event =
    | Closed
    | Resized(width: nat, height: nat)
    | KeyPressed(code: KeyCode, keys: KeyState)
    | KeyReleased(code: KeyCode, keys: KeyState)
    | OtherEvent

  /**
   * A key event that rebuilds the character's command: any key press or
   * release other than BackSpace or Delete, whichever key it is.
   */
  predicate Populates(ev: Event)
  {
    (ev.KeyPressed? || ev.KeyReleased?) && ev.code != BackSpace && ev.code != Delete
  }

  /** An event that closes the window: Closed, or BackSpace / Delete pressed or released. */
  predicate Closes(ev: Event)
  {
    ev.Closed? || ((ev.KeyPressed? || ev.KeyReleased?) && (ev.code == BackSpace || ev.code == Delete))
  }

  const GameViewport := Rect(0.0, 0.0, 1.0, 1.0)
  const MinimapViewport := Rect(0.75, 0.0, 0.25, 0.25)

  /** The game view built by Application's constructor. */
  const InitialGameView := SetViewport(Reset(DefaultView, Rect(0.0, 0.0, 800.0, 600.0)), GameViewport)
  /** The minimap view built by Application's constructor. */
  const InitialMinimapView := SetViewport(Reset(DefaultView, Rect(0.0, 0.0, 1200.0, 900.0)), MinimapViewport)

  /**
   * Everything the loop updates: the store, which entity is the character,
   * the two views and whether the window is open.
   */
  datatype GameState = GameState(entities: seq<Entity>, character: nat, gameView: View, minimapView: View, open: bool)

  /** The character exists and has a sprite. */
  predicate ValidState(g: GameState)
  {
    g.character < |g.entities| && g.entities[g.character].sprite.Some?
  }

  function CharacterPosition(g: GameState): Vec2
    requires ValidState(g)
  {
    g.entities[g.character].sprite.value
  }

  /**
   * The state before the first frame: one entity, the character, with a
   * sprite at the origin and no transient component; an 800 x 600 game
   * view over the whole surface and a 1200 x 900 minimap in the top-right
   * quarter-size corner.
   */
  function Initial(): (g: GameState)
    ensures ValidState(g) && g.open && |g.entities| == 1 && Clean(g.entities)
    ensures CharacterPosition(g) == Vec2(0.0, 0.0)
    ensures Visible(g.gameView) == Rect(0.0, 0.0, 800.0, 600.0) && g.gameView.viewport == Rect(0.0, 0.0, 1.0, 1.0)
    ensures Visible(g.minimapView) == Rect(0.0, 0.0, 1200.0, 900.0)
    ensures g.minimapView.viewport == Rect(0.75, 0.0, 0.25, 0.25)
  {
    GameState([Entity(Some(Vec2(0.0, 0.0)), None, None)], 0, InitialGameView, InitialMinimapView, true)
  }

  /**
   * One event of the poll loop.  Resized resets the game view to the new
   * surface size and the minimap to a quarter of it; a key event other than
   * BackSpace or Delete rebuilds the character's command from the keys.
   */
  function Handled(g: GameState, ev: Event): (r: GameState)
    requires ValidState(g)
    ensures ValidState(r) && r.character == g.character && |r.entities| == |g.entities|
    ensures r.gameView.viewport == g.gameView.viewport && r.minimapView.viewport == g.minimapView.viewport
    ensures r.open <==> g.open && !Closes(ev)
    ensures Positions(r.entities) == Positions(g.entities)
    ensures !Populates(ev) ==> r.entities == g.entities
    ensures Populates(ev) ==> r.entities == Populated(g.entities, g.character, ev.keys)
    ensures !ev.Resized? ==> r.gameView == g.gameView && r.minimapView == g.minimapView
  {
    match ev
    case Closed => g.(open := false)
    case Resized(width, height) =>
      g.(gameView := Reset(g.gameView, Rect(0.0, 0.0, width as real, height as real)),
         minimapView := Reset(g.minimapView, Rect(0.0, 0.0, width as real / 4.0, height as real / 4.0)))
    case KeyPressed(code, keys) => KeyEvent(g, code, keys)
    case KeyReleased(code, keys) => KeyEvent(g, code, keys)
    case OtherEvent => g
  }

  /**
   * KeyPressed / KeyReleased: BackSpace and Delete close the window and
   * leave the store alone; any other key sets the character's command to
   * exactly the intents whose keys are held.  The views are never touched.
   */
  function KeyEvent(g: GameState, code: KeyCode, keys: KeyState): (r: GameState)
    requires ValidState(g)
    ensures ValidState(r) && r.character == g.character && |r.entities| == |g.entities|
    ensures r.gameView == g.gameView && r.minimapView == g.minimapView
    ensures code == BackSpace || code == Delete ==> !r.open && r.entities == g.entities
    ensures code != BackSpace && code != Delete ==>
              r.open == g.open && r.entities == Populated(g.entities, g.character, keys) &&
              r.entities[r.character].command == Some(Held(keys))
  {
    if code == BackSpace || code == Delete then g.(open := false)
    else g.(entities := Populated(g.entities, g.character, keys))
  }

  /**
   * The poll loop: events are handled in order while the window is open;
   * once it is closed the remaining events are never delivered.
   */
  function Polled(g: GameState, evs: seq<Event>): (r: GameState)
    requires ValidState(g)
    ensures ValidState(r) && r.character == g.character && |r.entities| == |g.entities|
    ensures r.gameView.viewport == g.gameView.viewport && r.minimapView.viewport == g.minimapView.viewport
    ensures r.open ==> g.open
    ensures Positions(r.entities) == Positions(g.entities)
    decreases |evs|
  {
    if |evs| == 0 || !g.open then g else Polled(Handled(g, evs[0]), evs[1..])
  }

  /**
   * A whole frame: poll, world.progress(dt), purge, recentre.  Afterwards no
   * transient component is left, both views are centred on the character,
   * their sizes are those the events left and their viewports are unchanged.
   */
  function NextFrame(g: GameState, evs: seq<Event>, dt: real): (r: GameState)
    requires ValidState(g)
    ensures ValidState(r) && r.character == g.character && |r.entities| == |g.entities|
    ensures Clean(r.entities)
    ensures r.gameView.center == CharacterPosition(r) && r.minimapView.center == CharacterPosition(r)
    ensures r.gameView.size == Polled(g, evs).gameView.size
    ensures r.minimapView.size == Polled(g, evs).minimapView.size
    ensures r.gameView.viewport == g.gameView.viewport && r.minimapView.viewport == g.minimapView.viewport
    ensures r.open == Polled(g, evs).open
  {
    var p := Polled(g, evs);
    var es := CleanedUp(Progressed(p.entities, dt));
    assert Positions(es)[g.character] == Positions(Progressed(p.entities, dt))[g.character];
    var pos := es[g.character].sprite.value;
    p.(entities := es, gameView := SetCenter(p.gameView, pos), minimapView := SetCenter(p.minimapView, pos))
  }

  /** The events of one frame and the time measured before it. */
  datatype FrameInput = FrameInput(events: seq<Event>, dt: real)

  /** The main loop: frames run while the window is open. */
  function Run(g: GameState, frames: seq<FrameInput>): (r: GameState)
    requires ValidState(g)
    ensures ValidState(r) && r.character == g.character && |r.entities| == |g.entities|
    ensures r.gameView.viewport == g.gameView.viewport && r.minimapView.viewport == g.minimapView.viewport
    ensures |frames| == 0 || !g.open ==> r == g
    ensures |frames| > 0 && g.open ==>
              Clean(r.entities) && r.gameView.center == CharacterPosition(r) && r.minimapView.center == CharacterPosition(r)
    decreases |frames|
  {
    if |frames| == 0 || !g.open then g else Run(NextFrame(g, frames[0].events, frames[0].dt), frames[1..])
  }

  /** A resize sets the game view to W x H and the minimap to W/4 x H/4, both with top-left (0, 0). */
  lemma ResizeSetsViewSizes(g: GameState, width: nat, height: nat)
    requires ValidState(g)
    ensures var r := Handled(g, Resized(width, height));
            && r.gameView.size == Vec2(width as real, height as real)
            && Visible(r.gameView) == Rect(0.0, 0.0, width as real, height as real)
            && r.minimapView.size == Vec2(width as real / 4.0, height as real / 4.0)
            && Visible(r.minimapView) == Rect(0.0, 0.0, width as real / 4.0, height as real / 4.0)
            && r.gameView.viewport == g.gameView.viewport && r.minimapView.viewport == g.minimapView.viewport
            && r.entities == g.entities && r.open == g.open
  {
  }

  /** A poll loop with no key event other than BackSpace or Delete leaves the store as it is. */
  lemma {:induction false} PolledWithoutKeyEvents(g: GameState, evs: seq<Event>)
    requires ValidState(g)
    requires forall i :: 0 <= i < |evs| ==> !Populates(evs[i])
    ensures Polled(g, evs).entities == g.entities
    decreases |evs|
  {
    if |evs| != 0 && g.open {
      PolledWithoutKeyEvents(Handled(g, evs[0]), evs[1..]);
    }
  }

  /** Without a Resized event neither view changes during the poll loop. */
  lemma {:induction false} PolledWithoutResize(g: GameState, evs: seq<Event>)
    requires ValidState(g)
    requires forall i :: 0 <= i < |evs| ==> !evs[i].Resized?
    ensures Polled(g, evs).gameView == g.gameView && Polled(g, evs).minimapView == g.minimapView
    decreases |evs|
  {
    if |evs| != 0 && g.open {
      PolledWithoutResize(Handled(g, evs[0]), evs[1..]);
    }
  }

  /**
   * A frame with no key event other than BackSpace or Delete does not move
   * anything, because the previous frame's purge removed the command the
   * resolver would read.
   */
  lemma NoKeyEventNoMotion(g: GameState, evs: seq<Event>, dt: real)
    requires ValidState(g) && Clean(g.entities)
    requires forall i :: 0 <= i < |evs| ==> !Populates(evs[i])
    ensures NextFrame(g, evs, dt).entities == g.entities
  {
    PolledWithoutKeyEvents(g, evs);
    ProgressOfCleanIsIdentity(g.entities, dt);
  }

  /** No number of frames without key events other than BackSpace or Delete moves anything. */
  lemma {:induction false} StationaryWithoutKeyEvents(g: GameState, frames: seq<FrameInput>)
    requires ValidState(g) && Clean(g.entities)
    requires forall k, i :: 0 <= k < |frames| && 0 <= i < |frames[k].events| ==> !Populates(frames[k].events[i])
    ensures Run(g, frames).entities == g.entities
    decreases |frames|
  {
    if |frames| != 0 && g.open {
      NoKeyEventNoMotion(g, frames[0].events, frames[0].dt);
      var next := NextFrame(g, frames[0].events, frames[0].dt);
      forall k, i | 0 <= k < |frames[1..]| && 0 <= i < |frames[1..][k].events|
        ensures !Populates(frames[1..][k].events[i])
      {
        assert frames[1..][k] == frames[k + 1];
      }
      StationaryWithoutKeyEvents(next, frames[1..]);
    }
  }

  /**
   * However many events a frame holds, the poll loop leaves the character's
   * command equal to the intents held at the last key event other than
   * BackSpace or Delete, provided nothing closed the window before it.
   */
  lemma {:induction false} PolledKeepsLastKeyEvent(g: GameState, pre: seq<Event>, ev: Event, post: seq<Event>)
    requires ValidState(g) && g.open
    requires Populates(ev)
    requires forall i :: 0 <= i < |pre| ==> !Closes(pre[i])
    requires forall i :: 0 <= i < |post| ==> !Populates(post[i])
    ensures Polled(g, pre + [ev] + post).entities[g.character].command == Some(Held(ev.keys))
    decreases |pre|
  {
    var evs := pre + [ev] + post;
    if pre == [] {
      assert evs[0] == ev && evs[1..] == post;
      PolledWithoutKeyEvents(Handled(g, ev), post);
    } else {
      assert evs[0] == pre[0] && evs[1..] == pre[1..] + [ev] + post;
      PolledKeepsLastKeyEvent(Handled(g, pre[0]), pre[1..], ev, post);
    }
  }

  /**
   * A frame moves the character by the net velocity of the keys held at
   * its last key event other than BackSpace or Delete, times dt; when that
   * velocity is zero (no key, or opposite keys) the character stays put.
   */
  lemma FrameFollowsLastKeyEvent(g: GameState, pre: seq<Event>, ev: Event, post: seq<Event>, dt: real)
    requires ValidState(g) && g.open
    requires Populates(ev)
    requires forall i :: 0 <= i < |pre| ==> !Closes(pre[i])
    requires forall i :: 0 <= i < |post| ==> !Populates(post[i])
    ensures var r := NextFrame(g, pre + [ev] + post, dt);
            CharacterPosition(r) == Step(CharacterPosition(g), NetVelocity(Held(ev.keys)), dt)
  {
    var evs := pre + [ev] + post;
    PolledKeepsLastKeyEvent(g, pre, ev, post);
    var p := Polled(g, evs);
    var c := g.character;
    assert Positions(p.entities)[c] == Positions(g.entities)[c];
    var es := CleanedUp(Progressed(p.entities, dt));
    assert Positions(es)[c] == Positions(Progressed(p.entities, dt))[c];
  }

  /**
   * The special case of a frame whose only event is a key press or release
   * other than BackSpace or Delete.
   */
  lemma KeyFrameMovesCharacter(g: GameState, code: KeyCode, keys: KeyState, dt: real)
    requires ValidState(g) && g.open
    requires code != BackSpace && code != Delete
    ensures var r := NextFrame(g, [KeyPressed(code, keys)], dt);
            CharacterPosition(r) == Step(CharacterPosition(g), NetVelocity(Held(keys)), dt)
    ensures var r := NextFrame(g, [KeyReleased(code, keys)], dt);
            CharacterPosition(r) == Step(CharacterPosition(g), NetVelocity(Held(keys)), dt)
  {
    assert [] + [KeyPressed(code, keys)] + [] == [KeyPressed(code, keys)];
    assert [] + [KeyReleased(code, keys)] + [] == [KeyReleased(code, keys)];
    FrameFollowsLastKeyEvent(g, [], KeyPressed(code, keys), [], dt);
    FrameFollowsLastKeyEvent(g, [], KeyReleased(code, keys), [], dt);
  }

  /**
   * Up and Right held for one frame of 0.1 s from the initial state moves
   * the character to (10, -10); releasing Right while Up stays held moves it
   * to (10, -20) one 0.1 s frame later.
   */
  lemma EndToEndScenario()
    ensures var f1 := NextFrame(Initial(), [KeyPressed(D, KeyState(true, false, false, true))], 0.1);
            var f2 := NextFrame(f1, [KeyReleased(D, KeyState(true, false, false, false))], 0.1);
            && CharacterPosition(f1) == Vec2(10.0, -10.0)
            && CharacterPosition(f2) == Vec2(10.0, -20.0)
            && f2.gameView.center == Vec2(10.0, -20.0) && f2.minimapView.center == Vec2(10.0, -20.0)
  {
    var g := Initial();
    var upRight := KeyState(true, false, false, true);
    var up := KeyState(true, false, false, false);
    KeyFrameMovesCharacter(g, D, upRight, 0.1);
    assert NetVelocity(Held(upRight)) == Velocity(100, -100);
    var f1 := NextFrame(g, [KeyPressed(D, upRight)], 0.1);
    assert f1.open by {
      assert Polled(g, [KeyPressed(D, upRight)]) == Polled(Handled(g, KeyPressed(D, upRight)), []);
    }
    KeyFrameMovesCharacter(f1, D, up, 0.1);
    assert NetVelocity(Held(up)) == Velocity(0, -100);
  }
}
