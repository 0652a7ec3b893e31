/**
 * The objects main() works on: the Application (two views and the window,
 * reduced to whether it is open), the world and the character entity, and
 * one iteration of the main loop, each specified by module Frames.
 */
module MainLoop {
  import opened Geometry
  import opened Commands
  import opened Ecs
  import opened Frames

  class Application {
    var gameView: View
    var minimapView: View
    var open: bool

    /** An 800 x 600 game view on the whole surface, a 1200 x 900 minimap inset, an open window. */
    constructor ()
      ensures gameView == InitialGameView && minimapView == InitialMinimapView && open
      ensures Visible(gameView) == Rect(0.0, 0.0, 800.0, 600.0) && gameView.viewport == Rect(0.0, 0.0, 1.0, 1.0)
      ensures Visible(minimapView) == Rect(0.0, 0.0, 1200.0, 900.0)
      ensures minimapView.viewport == Rect(0.75, 0.0, 0.25, 0.25)
    {
      gameView, minimapView := DefaultView, DefaultView;
      new;
      gameView := Reset(gameView, Rect(0.0, 0.0, 800.0, 600.0));
      gameView := SetViewport(gameView, Rect(0.0, 0.0, 1.0, 1.0));
      minimapView := Reset(minimapView, Rect(0.0, 0.0, 1200.0, 900.0));
      minimapView := SetViewport(minimapView, Rect(0.75, 0.0, 0.25, 0.25));
      open := true;
    }
  }

  class Game {
    const app: Application
    const world: World
    const character: nat

    ghost predicate Valid()
      reads this, app, world, world.Repr
    {
      world.Valid() && character < |world.Entities| && world.Entities[character].sprite.Some?
    }

    ghost function State(): GameState
      reads this, app, world
    {
      GameState(world.Entities, character, app.gameView, app.minimapView, app.open)
    }

    /** The setup in main(): the application and a world whose "Character" has a sprite at (0, 0). */
    constructor ()
      ensures Valid() && fresh(app) && fresh(world) && world.Repr == {}
      ensures State() == Initial()
    {
      app := new Application();
      var w := new World();
      var e := w.CreateEntity(Vec2(0.0, 0.0));
      world := w;
      character := e;
    }

    /** One case of the switch in the poll loop. */
    method HandleEvent(ev: Event)
      requires Valid()
      modifies app, world, world.Repr
      ensures Valid() && fresh(world.Repr - old(world.Repr))
      ensures State() == Handled(old(State()), ev)
    {
      match ev
      case Closed =>
        app.open := false;
      case Resized(width, height) =>
        app.gameView := Reset(app.gameView, Rect(0.0, 0.0, width as real, height as real));
        app.minimapView := Reset(app.minimapView, Rect(0.0, 0.0, width as real / 4.0, height as real / 4.0));
      case KeyPressed(code, keys) =>
        HandleKey(code, keys);
      case KeyReleased(code, keys) =>
        HandleKey(code, keys);
      case OtherEvent =>
    }

    /** KeyPressed / KeyReleased: BackSpace and Delete close the window, other keys repopulate the command. */
    method HandleKey(code: KeyCode, keys: KeyState)
      requires Valid()
      modifies app, world, world.Repr
      ensures Valid() && fresh(world.Repr - old(world.Repr))
      ensures State() == KeyEvent(old(State()), code, keys)
    {
      if code == BackSpace || code == Delete {
        app.open := false;
      } else {
        world.PopulateCharacterCommand(character, keys);
      }
    }

    /** while (window.pollEvent(event)): no event is delivered once the window is closed. */
    method PollEvents(events: seq<Event>)
      requires Valid()
      modifies app, world, world.Repr
      ensures Valid() && fresh(world.Repr - old(world.Repr))
      ensures State() == Polled(old(State()), events)
    {
      var i := 0;
      while i < |events| && app.open
        invariant 0 <= i <= |events|
        invariant Valid() && fresh(world.Repr - old(world.Repr))
        invariant Polled(State(), events[i..]) == Polled(old(State()), events)
      {
        assert events[i..][1..] == events[i + 1..];
        HandleEvent(events[i]);
        i := i + 1;
      }
    }

    /**
     * One iteration of the main loop's logic: poll, world.progress(dt),
     * cleanup_temporary_components, then centre both views on the sprite.
     */
    method Frame(events: seq<Event>, dt: real)
      requires Valid()
      modifies app, world, world.Repr
      ensures Valid() && fresh(world.Repr - old(world.Repr))
      ensures State() == NextFrame(old(State()), events, dt)
    {
      PollEvents(events);
      world.Progress(dt);
      world.CleanupTemporaryComponents();
      var position := world.sprite[character].value;
      app.gameView := SetCenter(app.gameView, position);
      app.minimapView := SetCenter(app.minimapView, position);
    }
  }
}
