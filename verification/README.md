# Blob platformer: level-session state machine

A Dafny model of the game-controller core of a small p5.js platformer
(`sketch.js`). A circular "blob" player moves through a list of levels
loaded from JSON. A level is either a *play* level, with platforms and an
optional goal rectangle, or a *screen* level (title or menu) that shows text
and waits for Space. The model covers the session logic that drives this:

- loading a level;
- the per-frame step;
- the goal-delay counter and once-only completion;
- level routing;
- the screen-text fallbacks;
- the goal overlap test.

The session is an immutable record `State(levelIndex, levelJustCompleted,
goalDelay, player)`. Every transition is a pure function:

- `Session.LoadLevel`
- `Session.Tick`, the state-update part of `draw()`
- `Session.KeyPress`, for `keyPressed()`
- `Session.OnLevelComplete`

The player's own physics (`update`, `jump`, `spawnFromLevel`) is opaque. It
enters as three function values of a `Physics` record, so the model fixes
when each of them is applied and to what, and nothing about what they
compute. Coordinates are `real`: JavaScript numbers are idealised and no
floating-point rounding is modelled.

Modules:

- `Nullish`: optional values and `??`.
- `Geometry`: rectangles, the player body and the goal overlap test.
- `Levels`: the level record and what the code needs of the level list.
- `Routing`: the completion, advance and skip targets.
- `Overlay`: the screen text `||` chains.
- `Session`: load, frame, key press and start-up.
- `Frames`: runs of frames and events.

Modelling choices:

- The live `world` is not stored. Every `loadLevel` sets it from the index
  it stores, so it is always `levels[levelIndex]`.
- `world.type === "screen"` is a string comparison (`Levels.IsScreen`). Any
  other type string behaves as a play level.
- The movement keys the player's update reads from the keyboard become an
  explicit `Held` argument of each frame.
- Raw keys are abstracted into four commands:
  - `Space` (" ");
  - `Jump` (W, w, up arrow);
  - `NextLevel` (n, N);
  - `Other`.
- An explicit `next` is never wrapped or checked by the code. Having it
  in range is therefore part of `Levels.WellFormed`, which every
  operation requires. A non-empty level list is also part of it.

## Model

| member | source | states |
|---|---|---|
| Nullish.Coalesce | sketch.js:137 | `o ?? d` yields the value whenever one is present, whatever it is (0 and "" included), and the fallback only when none is |
| Levels.IsScreen | sketch.js:49 | a level is a screen level exactly when its type string is "screen"; "play" and every other type string give a play level |
| Geometry.OverlapsIffShareInterior | sketch.js:127-132 | for boxes of positive size, the strict four-inequality test holds exactly when the two open rectangles share a point, so touching edges or corners do not count |
| Geometry.OverlapsSymmetric | sketch.js:127-132 | the overlap test gives the same answer with its two rectangles swapped |
| Geometry.BoundingBox | sketch.js:120-125 | the player's box is centred on the player and 2r wide and high |
| Geometry.Overlaps | sketch.js:127-132 | the strict four-inequality test; for rectangles of positive size it holds exactly when their open interiors share a point |
| Geometry.TouchesGoal | sketch.js:119-133 | the player touches the goal exactly when, on each axis, the open span centre ± r meets the goal's open span; for positive radius and goal size, exactly when the box and the goal share an interior point |
| Geometry.SeparatedDoesNotTouch | sketch.js:119-133 | a player whose box is flush with or beyond any side of the goal (e.g. `x - r == goal.x + goal.w`) does not touch it |
| Geometry.CentreInsideTouches | sketch.js:119-133 | a player with r >= 0 whose centre is strictly inside the goal touches it |
| Routing.Successor | sketch.js:92 | `(i + 1) % n` is a valid index: the next index, or 0 from the last level |
| Routing.CompletionTarget | sketch.js:135-139 | completion routes to the explicit `next` whenever present, else to the successor, and always to an existing level |
| Routing.AdvanceTarget | sketch.js:80-81 | Space on a screen level routes to the explicit `next` whenever present, else to level 0, always an existing level |
| Routing.NullishHonoursZero | sketch.js:137 | `??` routing differs from falsy `||` routing exactly when a level explicitly routes to 0 and is not the last level, so `next: 0` is honoured |
| Routing.AdvanceIsRotation | sketch.js:137 | k default advances from level i land on i + k, wrapped once past the end |
| Routing.DefaultRoutingCycles | sketch.js:137 | default routing visits every level within n steps and returns to its start after exactly n |
| Overlay.FirstTruthy | sketch.js:142-144 | a `||` chain yields the first present non-empty candidate, or the default when there is none |
| Overlay.Or | sketch.js:142-144 | `o \|\| d` is the one-candidate `\|\|` chain: the string when present and non-empty, else the default |
| Overlay.OverlayText | sketch.js:141-144 | title is `screen.title \|\| name \|\| ""`, subtitle is `screen.subtitle \|\| ""`, prompt is `screen.prompt \|\| "Press SPACE"`; the title is empty only when both candidates are falsy, and the prompt is never empty |
| Overlay.DrawnLines | sketch.js:150-157 | title and prompt are always drawn; the subtitle is drawn, between them, exactly when it is non-empty |
| Overlay.EmptyStringFallsThrough | sketch.js:142-144 | an empty screen string shows the same as a missing one |
| Session.LoadLevel | sketch.js:103-117 | after a load, the index is the requested level, the flag is clear, the delay is 15 and the player is respawned from the new level; the result is a valid session |
| Session.LoadForgetsSession | sketch.js:103-117 | the previous index, flag and delay do not affect a load |
| Session.ReloadRoundTrip | sketch.js:103-117 | when spawning keeps the player's radius and takes everything else from the level, loading i after any other load equals loading i directly |
| Session.Init | sketch.js:18-37 | start-up loads level 0 with the delay armed, giving a valid session |
| Session.CountDown | sketch.js:55 | the delay drops by exactly one when positive, never goes below zero, and is zero afterwards only from 0 or 1 |
| Session.OnLevelComplete | sketch.js:135-139 | completion loads the explicit `next` (including 0) or `(i + 1) % n`: the flag is cleared, the delay re-armed to 15 and the player respawned from that level |
| Session.GoalFires | sketch.js:62-67 | for a non-negative delay, the win condition holds exactly when the delay before the frame's decrement is 0 or 1, the flag is clear, a goal is present and the moved player touches it |
| Session.Tick | sketch.js:44-70 | a screen frame changes nothing; a play frame counts the delay down and updates the player; it completes exactly when the decremented delay is 0, the flag is clear, a goal exists and the moved player touches it; completion needs a delay of at most 1 and loads the routed level; otherwise the level and flag are kept; validity is preserved |
| Session.KeyPress | sketch.js:78-95 | Space on a screen level loads `next ?? 0` without jumping; Space on a play level and W/Up anywhere only jump; N loads `(i + 1) % n` on any level; other keys change nothing; validity is preserved |
| Frames.RunFrames | sketch.js:44-70 | a run of frames keeps the session valid and completes at most once per frame |
| Frames.NoEarlyCompletion | sketch.js:55-70 | fewer frames than the remaining delay complete nothing, wherever the player is |
| Frames.LoadSuppressesGoal | sketch.js:115-116 | the 14 frames after any load complete nothing, even when the player spawns on the goal |
| Frames.QuietAfterCompletion | sketch.js:62-70 | the 14 frames after a completion complete nothing |
| Frames.CompletionBound | sketch.js:62-70 | over n frames starting with delay d, at most (n + 15 - max(d, 1)) / 15 completions fire |
| Frames.AtMostOncePerLoad | sketch.js:61-70 | within 29 frames of a load, at most one completion fires |
| Frames.ScreenFreezes | sketch.js:48-52 | any number of frames on a screen level leave the session unchanged and complete nothing |
| Frames.DelayCountsDown | sketch.js:54-55 | on a play level, while nothing completes, the level is kept and the delay falls by one per frame down to 0 |
| Frames.FiresWhenDelayExpires | sketch.js:61-70 | a player resting on the goal of a play level, under physics that never moves a touching player off it, completes the level exactly once, on the frame where the delay runs out |
| Frames.Play | sketch.js:44-95 | any interleaving of frames and key presses keeps the session valid |
| Frames.PlayKeepsScreenArmed | sketch.js:48-55 | frames and key presses keep every screen level's goal delay at 15, since screen frames return before the countdown and every level change is a load |
| Frames.ReachableScreenIsArmed | sketch.js:48-55 | in every state reachable from start-up, a screen level still has the full 15-frame delay |

## Left out

- Player physics (`BlobPlayer`: `update`, `jump`, `spawnFromLevel`): its source is not part of this model. These are opaque function values. Properties that depend on them state their assumption as a precondition. `ReloadRoundTrip` assumes a spawn that keeps the radius and resets everything else. `FiresWhenDelayExpires` assumes an update that never moves a touching player off the goal.
- `WorldLevel` construction and `inferWidth`/`inferHeight`, with the `resizeCanvas` call: their source is not part of this model, and resizing is a drawing effect. A world is its level record.
- Drawing: `drawWorld`, `player.draw`, the HUD text, `fill`/`text`/`push`/`pop`, fonts and the overlay's screen-position arithmetic. Only the choice and order of the overlay strings are modelled.
- `preload`/`loadJSON`: this is file I/O. The level list is a parameter.
- Raw key mapping (`key`, `keyCode`): this is platform input. Keys are the four abstract commands.
- Out-of-range explicit `next`: the code would index past the level list. An in-range `next` is a precondition, and no wrapping is added.
- Level themes and non-string JSON values: they only feed drawing. The player update receives the whole current level, so any use it makes of declared sizes stays inside the opaque physics.
