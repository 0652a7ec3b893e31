# TestGame frame pipeline — a Dafny model

This project models the per-frame update of TestGame's single controlled
character (`src/main.cpp`). Each frame goes through these steps:

1. Window events are handled in a poll loop. A "rebuilding key event" is any
   key press or release other than BackSpace or Delete, whichever key it is;
   the source repopulates on all of these, not only on W, A, S and D. Each
   one rebuilds the character's `CharacterCommand`, a set of intents (up,
   left, down, right), from whether W, A, S and D are held. Resized resets
   the two camera views. Closed, BackSpace and Delete close the window.
2. The `"CharacterCommand"` system resolves the command into a `Velocity`.
   Each axis is a sum of ±100. A zero sum means the Velocity is *removed*;
   it is never stored as zero.
3. The `"Movement"` system moves every sprite that has a Velocity by
   `velocity * dt`.
4. `cleanup_temporary_components` is meant to purge the transient
   components from every entity. As written it removes nothing from the
   character (see "## Findings"); the model uses the intended purge.
5. The game view and the minimap view are recentred on the sprite.

Modules, leaf first:

- `Wrappers`: `Option`, used for the absence of a component.
- `Geometry`: vectors, rectangles and views. `Reset`, `SetCenter` and
  `SetViewport` are specified through `Visible`, the world rectangle a view
  shows.
- `Commands`: the intent type, the key snapshot, and the `CharacterCommand`
  class with `Add`, `Remove` and `Contains`.
- `Motion`: the resolver, as the pure functions `NetVelocity` and
  `ResolveVelocity`.
- `Systems`: the entity store as a value (`seq<Entity>`) and the transforms
  the systems apply to it.
- `Ecs`: a `World` class with one component column per component. Its
  methods change the columns in place and are proved against the `Systems`
  transforms.
- `Frames`: the frame as a function of a `GameState`, the loop over frames,
  and the lemmas about them.
- `MainLoop`: the `Application` class (the views, and whether the window is
  open) and the `Game` class, whose `Frame` method is proved equal to
  `Frames.NextFrame`.

Inputs and simplifications:

- Wall-clock `dt` is a parameter of `Frame`.
- The keyboard is a `KeyState` snapshot carried by each key event. It is
  what `sf::Keyboard::isKeyPressed` reports while that event is handled.
- Positions, `dt` and view sizes are exact reals. Velocities are integers,
  which is exact for sums of ±100.

## Model

| member | source | states |
|---|---|---|
| `Commands.Held` | src/main.cpp:76-95 | an intent is in the set iff its key (W up, A left, S down, D right) is held |
| `Commands.CharacterCommand.constructor` | src/main.cpp:47-48 | a new command holds no intent |
| `Commands.CharacterCommand.Add` | src/main.cpp:50-55 | afterwards `Contains(t)`; every other intent's membership is unchanged; adding a present intent changes nothing |
| `Commands.CharacterCommand.Remove` | src/main.cpp:50-58 | afterwards `!Contains(t)`; every other intent's membership is unchanged; removing an absent intent changes nothing |
| `Commands.ApplyKeys` | src/main.cpp:76-95 | after the four add/remove steps the command holds exactly the held intents, whatever it held before |
| `Motion.NetVelocity` | src/main.cpp:138-150 | y = -100 iff Up without Down, +100 iff Down without Up, 0 iff both or neither; the same for x with Left/Right; each component is in {-100, 0, 100} |
| `Motion.ResolveVelocity` | src/main.cpp:152-156 | no velocity iff both axes cancel; otherwise exactly the net velocity, never (0, 0) |
| `Geometry.Reset` | src/main.cpp:174-183 | after `reset(r)` the view shows exactly `r`; the viewport is kept |
| `Geometry.SetCenter` | src/main.cpp:206-207 | the centre becomes the given point; size and viewport are kept |
| `Geometry.SetViewport` | src/main.cpp:14-17 | the viewport becomes the given rectangle; the shown world area is kept |
| `Systems.Populated` | src/main.cpp:74-96 | the entity's command exists and holds an intent iff its key is held; its sprite, its velocity and every other entity are unchanged |
| `Systems.Resolved` | src/main.cpp:135-157 | each entity with a command carries exactly the resolved velocity, which is never zero; entities without a command and all other components are unchanged |
| `Systems.Moved` | src/main.cpp:158-162 | each entity with a Velocity and a sprite moves by (vx·dt, vy·dt); every other entity is unchanged; commands and velocities are unchanged |
| `Systems.Step` | src/main.cpp:161 | the point moves by velocity times dt on each axis; a zero velocity or a zero dt leaves it in place |
| `Systems.Progressed` | src/main.cpp:203 | an entity with a command and a sprite ends with the resolved velocity and moves by its command's net velocity times dt; an entity without a command is only moved by a Velocity it already carries; commands are kept |
| `Systems.CleanedUp` | src/main.cpp:69-72 | (intended cleanup, see ## Findings) no entity keeps a CharacterCommand or a Velocity; sprite positions are unchanged; a clean store is left as it is |
| `Systems.CleanupIdempotent` | src/main.cpp:69-72 | purging twice equals purging once |
| `Systems.ProgressOfCleanIsIdentity` | src/main.cpp:135-162 | with no command and no velocity on any entity, both systems leave the store unchanged |
| `Systems.CleanedUpAsWritten` | src/main.cpp:69-72 | the cleanup as written: every entity keeps its command, its velocity and its position |
| `Systems.AsWrittenCleanupKeepsCharacterMoving` | src/main.cpp:69-72 | with the cleanup as written, a second frame without key events moves the character again; with the intended cleanup it does not |
| `Ecs.World.constructor` | src/main.cpp:123 | a new world has no entity |
| `Ecs.World.CreateEntity` | src/main.cpp:126-133 | appends one entity with a sprite at the given position and no transient component |
| `Ecs.World.GetMutCommand` | src/main.cpp:75 | returns the entity's command object, first adding an empty one if there is none; nothing else changes |
| `Ecs.World.PopulateCharacterCommand` | src/main.cpp:74-96 | the store becomes `Populated(old store, e, keys)`; only objects created here join the footprint |
| `Ecs.World.ResolveVelocities` | src/main.cpp:135-157 | the store becomes `Resolved(old store)` |
| `Ecs.World.Move` | src/main.cpp:158-162 | the store becomes `Moved(old store, dt)` |
| `Ecs.World.Progress` | src/main.cpp:203 | the resolver runs, then movement |
| `Ecs.World.CleanupTemporaryComponents` | src/main.cpp:69-72 | (intended cleanup, see ## Findings) the store becomes `CleanedUp(old store)` |
| `Frames.Initial` | src/main.cpp:12-17 | one clean character at (0, 0); the game view shows (0,0,800,600) on viewport (0,0,1,1); the minimap shows (0,0,1200,900) on viewport (0.75,0,0.25,0.25); the window is open |
| `Frames.Handled` | src/main.cpp:169-196 | viewports never change; the window closes exactly on Closed, BackSpace or Delete; only rebuilding key events touch the store, and they set the character's command from the keys; only Resized touches the views |
| `Frames.KeyEvent` | src/main.cpp:185-193 | BackSpace or Delete closes the window and leaves the store alone; any other key gives `Populated(store, character, keys)`: the character's command becomes exactly the held intents, while its sprite, its velocity and every other entity are kept; the views are untouched |
| `Frames.Polled` | src/main.cpp:167-197 | events are handled in order until the window closes; the character and the viewports are kept |
| `Frames.NextFrame` | src/main.cpp:166-207 | after a frame no transient component is left; both view centres equal the character's position; view sizes are those the events left; viewports are unchanged |
| `Frames.Run` | src/main.cpp:166-227 | with no frame to run or a closed window the state is unchanged; otherwise the result has no transient component and both views are centred on the character; the character keeps its sprite, the entity count is kept, and both viewports stay those fixed at construction |
| `Frames.ResizeSetsViewSizes` | src/main.cpp:173-183 | Resized(W, H) makes the game view W×H and the minimap W/4×H/4, both showing from (0, 0); viewports, the store and the window are unchanged |
| `Frames.PolledWithoutKeyEvents` | src/main.cpp:185-193 | a poll loop without rebuilding key events leaves the store unchanged |
| `Frames.PolledWithoutResize` | src/main.cpp:173-184 | a poll loop without Resized leaves both views unchanged |
| `Frames.NoKeyEventNoMotion` | src/main.cpp:185-204 | starting after a purge, a frame without rebuilding key events changes no entity |
| `Frames.StationaryWithoutKeyEvents` | src/main.cpp:166-207 | no number of frames without rebuilding key events changes any entity |
| `Frames.PolledKeepsLastKeyEvent` | src/main.cpp:167-197 | for an event list of any length, the character's command after the poll loop holds exactly the intents held at the last rebuilding key event, provided nothing closed the window before it |
| `Frames.FrameFollowsLastKeyEvent` | src/main.cpp:166-207 | for an event list of any length, the frame moves the character by the net velocity of the keys held at the last rebuilding key event times dt, so opposite keys cancel exactly |
| `Frames.KeyFrameMovesCharacter` | src/main.cpp:185-207 | the single-event case: a frame whose only event is a rebuilding key press or release moves the character by the held keys' net velocity times dt |
| `Frames.EndToEndScenario` | src/main.cpp:135-162 | from the start, Up+Right for 0.1 s gives (10, -10); then Up alone for 0.1 s gives (10, -20), and both views are centred there |
| `MainLoop.Application.constructor` | src/main.cpp:12-20 | an 800×600 game view on the full surface, a 1200×900 minimap inset in the top-right corner, and an open window |
| `MainLoop.Game.constructor` | src/main.cpp:123-133 | the game state is `Frames.Initial()` |
| `MainLoop.Game.HandleEvent` | src/main.cpp:169-196 | the game state becomes `Handled(old state, ev)` |
| `MainLoop.Game.HandleKey` | src/main.cpp:185-193 | BackSpace and Delete close the window; any other key repopulates the command |
| `MainLoop.Game.PollEvents` | src/main.cpp:167-197 | the game state becomes `Polled(old state, events)` |
| `MainLoop.Game.Frame` | src/main.cpp:167-207 | the game state becomes `NextFrame(old state, events, dt)` |

## Left out

- Window creation, rendering, `clear`/`draw`/`display` and the default overlay view (src/main.cpp:19, 214-226). These are SFML output; the window is reduced to an `open` flag.
- Font and texture loading with `return 1`, and the styling of the shape, text and sprite (src/main.cpp:101-121, 127-133). These are asset I/O. Only the sprite's position is modelled.
- The `std::chrono` clock, `prev_render_time` and the FPS text (src/main.cpp:165, 199-201, 209-212). These read the wall clock and format floats. `dt` is an input, and it is neither clamped nor checked, just as in the source.
- IEEE single-precision rounding in `sprite.move` and in the resize division. Positions, sizes and `dt` are exact reals.
- flecs internals. Command deferral is not modelled: the resolver's set/remove is taken to be visible to Movement in the same `progress`. Query order and `set_target_fps` pacing are not modelled either. `progress(0)` is not modelled: flecs measures the frame time itself when it is passed 0, so for a measured `delta_time` of exactly 0 the source may still move the character, while the model uses dt = 0 and does not.
- `entity.get_mut<T>()` is taken to add a default component when it is absent, as in the flecs versions where `get_mut` adds.
- The SFML behaviour that `pollEvent` on a closed window delivers nothing is assumed. So events queued after a close are dropped, and the rest of that frame still runs.
- View rotation. `reset` sets it to 0 and nothing else changes it.
- Event kinds other than Closed, Resized, KeyPressed and KeyReleased all fall into `OtherEvent`. Key codes other than W, A, S, D, BackSpace and Delete fall into `OtherKey`.

## Findings

In the flecs C++ API, `world.remove<T>()` is the singleton form. It removes component `T` from the entity that stands for `T`. Removing `T` from every entity is `world.remove_all<T>()`. So `cleanup_temporary_components` as written leaves the character's `CharacterCommand` and `Velocity` in place. The command then persists from frame to frame, and a held key keeps moving the character with no further key events. The function's name and its call after every `world.progress` (src/main.cpp:69, 203-204) show that the transient components are meant to be purged each frame. The rest of this model uses that corrected cleanup.

| source | as written | input that shows it | evidently intended | confidence | as-written member | corrected member |
|---|---|---|---|---|---|---|
| src/main.cpp:69-72 | `world.remove<CharacterCommand>()` and `world.remove<Velocity>()` remove only the singleton components, so no entity loses its command or velocity | press W (dt = 1), then one frame with no event (dt = 1): the character goes to (0, -200) instead of staying at (0, -100) | remove both components from every entity (`remove_all`) | medium: relies on the documented flecs C++ API, not visible in this repository; the figures assume Movement sees the resolver's Velocity in the same `progress`; if flecs defers it to the merge, the as-written positions are (0, 0) after frame 1 and (0, -100) after frame 2, so the character still moves in a frame with no event; not executed | `Systems.CleanedUpAsWritten`, exhibited by `Systems.AsWrittenCleanupKeepsCharacterMoving` | `Systems.CleanedUp` |
