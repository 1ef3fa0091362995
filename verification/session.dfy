/** The level-session state machine of sketch.js: loading a level, the
    per-frame step of `draw`, completion routing and `keyPressed`. The
    session is an immutable record and every transition a pure function.
    The current world is not stored: every load sets it to the level the
    new index names, so it is always `levels[levelIndex]`. */
module Session {
  import opened Geometry
  import opened Levels
  import opened Routing

  /** Movement keys held during a frame. The player's update reads them
      from the keyboard; here they are an explicit input. */
  datatype Held = Held(left: bool, right: bool)

  /** The player's own operations (update, jump, spawn). Their code is not
      part of this model, so they are opaque functions: the session only
      decides WHEN each is applied and to WHAT. */
  datatype Physics = Physics(
    update: (Player, Level, Held) -> Player,
    jump: Player -> Player,
    spawn: (Player, Level) -> Player)

  /** The loaded level list together with the player's physics. */
  datatype Game = Game(levels: seq<Level>, physics: Physics)

  /** The session globals `{levelIndex, levelJustCompleted, goalDelay, player}`. */
  datatype State = State(levelIndex: int, levelJustCompleted: bool, goalDelay: int, player: Player)

  /** Frames during which the goal is ignored after a load (~0.25 s at 60 fps). */
  const GoalDelayTicks: int := 15

  predicate ValidGame(g: Game)
  {
    WellFormed(g.levels)
  }

  predicate HasLevel(g: Game, s: State)
  {
    0 <= s.levelIndex < |g.levels|
  }

  /** The live world: the level the session index names. */
  function Current(g: Game, s: State): Level
    requires HasLevel(g, s)
  {
    g.levels[s.levelIndex]
  }

  /** The states the session can be in between frames and key events. */
  predicate Valid(g: Game, s: State)
  {
    && HasLevel(g, s)
    && !s.levelJustCompleted
    && 0 <= s.goalDelay <= GoalDelayTicks
  }

  /** `loadLevel(i)`: switch to level `i`, clear the completion flag,
      respawn the player from the new level and re-arm the goal delay.
      Nothing of the previous session survives except what the player
      carries into its own spawn. */
  function LoadLevel(g: Game, s: State, i: int): (r: State)
    requires 0 <= i < |g.levels|
    ensures r.levelIndex == i && !r.levelJustCompleted && r.goalDelay == GoalDelayTicks
    ensures r.player == g.physics.spawn(s.player, g.levels[i])
    ensures Valid(g, r)
  {
    State(i, false, GoalDelayTicks, g.physics.spawn(s.player, g.levels[i]))
  }

  /** Two sessions holding the same player load a level identically:
      index, flag and delay of the old session are forgotten. */
  lemma LoadForgetsSession(g: Game, s1: State, s2: State, i: int)
    requires 0 <= i < |g.levels|
    requires s1.player == s2.player
    ensures LoadLevel(g, s1, i) == LoadLevel(g, s2, i)
  {
  }

  /** Spawning keeps the player's radius: a load resets position and
      velocity, not the body's size. */
  ghost predicate SpawnKeepsRadius(ph: Physics)
  {
    forall p: Player, l: Level :: ph.spawn(p, l).r == p.r
  }

  /** Spawning depends on the old player only through its radius: position,
      velocity and contact come from the level alone. */
  ghost predicate SpawnResetsMotion(ph: Physics)
  {
    forall p: Player, q: Player, l: Level :: p.r == q.r ==> ph.spawn(p, l) == ph.spawn(q, l)
  }

  /** Loading level i right after any other load (or a reload of i itself)
      yields the same session as loading i directly, for a spawn that
      resets the player's motion and keeps its radius. */
  lemma ReloadRoundTrip(g: Game, s: State, i: int, j: int)
    requires 0 <= i < |g.levels| && 0 <= j < |g.levels|
    requires SpawnKeepsRadius(g.physics) && SpawnResetsMotion(g.physics)
    ensures LoadLevel(g, LoadLevel(g, s, j), i) == LoadLevel(g, s, i)
  {
    assert LoadLevel(g, s, j).player.r == s.player.r;
  }

  /** `setup()`: the globals start at index 0, flag clear, delay 0, a fresh
      player `p0`, and level 0 is loaded. */
  function Init(g: Game, p0: Player): (s: State)
    requires ValidGame(g)
    ensures Valid(g, s)
    ensures s.levelIndex == 0 && s.goalDelay == GoalDelayTicks
    ensures s.player == g.physics.spawn(p0, g.levels[0])
  {
    LoadLevel(g, State(0, false, 0, p0), 0)
  }

  /** `if (goalDelay > 0) goalDelay--`: lowers a positive delay by exactly
      one and never takes it below zero. */
  function CountDown(d: int): (r: int)
    ensures d > 0 ==> r == d - 1
    ensures d >= 0 ==> 0 <= r <= d
    ensures r == 0 <==> d == 0 || d == 1
  {
    if d > 0 then d - 1 else d
  }

  /** `onLevelComplete()`: load the explicit `next` if the level has one
      (even 0), otherwise the following level, wrapping. */
  function OnLevelComplete(g: Game, s: State): (r: State)
    requires ValidGame(g) && HasLevel(g, s)
    ensures Current(g, s).next.Some? ==> r.levelIndex == Current(g, s).next.value
    ensures Current(g, s).next.None? ==> r.levelIndex == (s.levelIndex + 1) % |g.levels|
    ensures !r.levelJustCompleted && r.goalDelay == GoalDelayTicks
    ensures r.player == g.physics.spawn(s.player, g.levels[r.levelIndex])
    ensures Valid(g, r)
  {
    LoadLevel(g, s, CompletionTarget(g.levels, s.levelIndex))
  }

  /** The player after this frame's physics update on the current level. */
  function Moved(g: Game, s: State, held: Held): Player
    requires HasLevel(g, s)
  {
    g.physics.update(s.player, Current(g, s), held)
  }

  /** The win condition of a play frame, on the decremented delay and the
      moved player. */
  function GoalFires(g: Game, s: State, held: Held): (fires: bool)
    requires HasLevel(g, s)
    ensures fires ==> s.goalDelay == 0 || s.goalDelay == 1
    ensures fires ==> !s.levelJustCompleted && Current(g, s).goal.Some?
    ensures s.goalDelay > 1 || Current(g, s).goal.None? ==> !fires
    ensures s.goalDelay >= 0 ==>
              (fires <==> && s.goalDelay <= 1 && !s.levelJustCompleted && Current(g, s).goal.Some?
                          && TouchesGoal(Moved(g, s, held), Current(g, s).goal.value))
  {
    && CountDown(s.goalDelay) == 0
    && !s.levelJustCompleted
    && Current(g, s).goal.Some?
    && TouchesGoal(Moved(g, s, held), Current(g, s).goal.value)
  }

  /** A frame's outcome: the next state and whether the level was completed. */
  datatype Frame = Frame(state: State, completed: bool)

  /** The state-update part of `draw()`. A screen level returns before
      anything changes. A play level counts the goal delay down, updates the
      player, and fires completion at most once, only when the delay has
      reached zero, the flag is clear, a goal exists and the player
      touches it; completion sets the flag and loads the routed level. */
  function Tick(g: Game, s: State, held: Held): (f: Frame)
    requires ValidGame(g) && HasLevel(g, s)
    ensures IsScreen(Current(g, s)) ==> f == Frame(s, false)
    ensures f.completed <==> !IsScreen(Current(g, s)) && GoalFires(g, s, held)
    ensures f.completed ==> s.goalDelay <= 1
    ensures f.completed ==> f.state == LoadLevel(g, s.(player := Moved(g, s, held)),
                                                 CompletionTarget(g.levels, s.levelIndex))
    ensures !f.completed ==> f.state.levelIndex == s.levelIndex
                             && f.state.levelJustCompleted == s.levelJustCompleted
    ensures !IsScreen(Current(g, s)) && !f.completed ==>
              f.state.goalDelay == CountDown(s.goalDelay) && f.state.player == Moved(g, s, held)
    ensures Valid(g, s) ==> Valid(g, f.state)
  {
    if IsScreen(Current(g, s)) then Frame(s, false)
    else
      var moved := s.(goalDelay := CountDown(s.goalDelay), player := Moved(g, s, held));
      if GoalFires(g, s, held) then
        Frame(OnLevelComplete(g, moved.(levelJustCompleted := true)), true)
      else
        Frame(moved, false)
  }

  /** A key press, abstracted from the raw key: `Space` (" "), `Jump`
      (W, w or the up arrow), `NextLevel` (n or N) and any `Other` key. */
  datatype Command = Space | Jump | NextLevel | Other

  /** `keyPressed()`. Space on a screen level loads `next ?? 0` and stops
      there (no jump). Otherwise Space, W and Up call the player's jump
      (on screen levels too, for W and Up), and N loads the following
      level, wrapping, on play and screen levels alike. */
  function KeyPress(g: Game, s: State, c: Command): (r: State)
    requires ValidGame(g) && HasLevel(g, s)
    ensures c == Space && IsScreen(Current(g, s)) ==>
              r == LoadLevel(g, s, AdvanceTarget(g.levels, s.levelIndex))
    ensures c == Jump || (c == Space && !IsScreen(Current(g, s))) ==>
              r == s.(player := g.physics.jump(s.player))
    ensures c == NextLevel ==> r == LoadLevel(g, s, Successor(s.levelIndex, |g.levels|))
    ensures c == Other ==> r == s
    ensures Valid(g, s) ==> Valid(g, r)
  {
    if IsScreen(Current(g, s)) && c == Space then
      LoadLevel(g, s, AdvanceTarget(g.levels, s.levelIndex))
    else
      var jumped := if c == Space || c == Jump then s.(player := g.physics.jump(s.player)) else s;
      if c == NextLevel then LoadLevel(g, jumped, Successor(s.levelIndex, |g.levels|))
      else jumped
  }
}
