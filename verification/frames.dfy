/** Runs of consecutive frames and of mixed input events, and what the
    session guarantees over them: validity is kept, the goal cannot fire
    during the delay, completion fires at most once per load window, and
    screen levels stay frozen. */
module Frames {
  import opened Geometry
  import opened Levels
  import opened Session

  /** The outcome of a run of frames: final state and completions fired. */
  datatype Run = Run(state: State, completions: nat)

  /** One `draw()` per element of `inputs`, in order. */
  function RunFrames(g: Game, s: State, inputs: seq<Held>): (r: Run)
    requires ValidGame(g) && Valid(g, s)
    ensures Valid(g, r.state)
    ensures r.completions <= |inputs|
    decreases |inputs|
  {
    if |inputs| == 0 then Run(s, 0)
    else
      var f := Tick(g, s, inputs[0]);
      var rest := RunFrames(g, f.state, inputs[1..]);
      Run(rest.state, rest.completions + if f.completed then 1 else 0)
  }

  /** No early completion: while fewer frames have run than the remaining
      goal delay, nothing completes, wherever the player is. */
  lemma {:induction false} NoEarlyCompletion(g: Game, s: State, inputs: seq<Held>)
    requires ValidGame(g) && Valid(g, s)
    requires |inputs| < s.goalDelay
    ensures RunFrames(g, s, inputs).completions == 0
    decreases |inputs|
  {
    if |inputs| > 0 {
      var f := Tick(g, s, inputs[0]);
      assert !f.completed;
      NoEarlyCompletion(g, f.state, inputs[1..]);
    }
  }

  /** After any load, the first 14 frames cannot complete the new level,
      even when the player spawns on its goal. */
  lemma LoadSuppressesGoal(g: Game, s: State, i: int, inputs: seq<Held>)
    requires ValidGame(g) && 0 <= i < |g.levels|
    requires |inputs| < GoalDelayTicks
    ensures RunFrames(g, LoadLevel(g, s, i), inputs).completions == 0
  {
    NoEarlyCompletion(g, LoadLevel(g, s, i), inputs);
  }

  /** A completion re-arms the delay: the 14 frames after it complete
      nothing, so the next level cannot complete in the same or the
      immediately following frames. */
  lemma QuietAfterCompletion(g: Game, s: State, held: Held, inputs: seq<Held>)
    requires ValidGame(g) && Valid(g, s)
    requires Tick(g, s, held).completed
    requires |inputs| < GoalDelayTicks
    ensures RunFrames(g, Tick(g, s, held).state, inputs).completions == 0
  {
    NoEarlyCompletion(g, Tick(g, s, held).state, inputs);
  }

  function MaxInt(a: int, b: int): int { if a < b then b else a }

  /** Completions are spaced at least a full delay apart: over `n` frames
      starting with delay `d`, at most `(n + 15 - max(d, 1)) / 15` fire. */
  lemma {:induction false} CompletionBound(g: Game, s: State, inputs: seq<Held>)
    requires ValidGame(g) && Valid(g, s)
    ensures RunFrames(g, s, inputs).completions * GoalDelayTicks
            <= |inputs| + GoalDelayTicks - MaxInt(s.goalDelay, 1)
    decreases |inputs|
  {
    if |inputs| > 0 {
      var f := Tick(g, s, inputs[0]);
      CompletionBound(g, f.state, inputs[1..]);
      if !f.completed && !IsScreen(Current(g, s)) {
        assert MaxInt(f.state.goalDelay, 1) >= MaxInt(s.goalDelay, 1) - 1;
      }
    }
  }

  /** Once per load: within the first 29 frames after a load, the level
      completes at most once. */
  lemma AtMostOncePerLoad(g: Game, s: State, i: int, inputs: seq<Held>)
    requires ValidGame(g) && 0 <= i < |g.levels|
    requires |inputs| < 2 * GoalDelayTicks
    ensures RunFrames(g, LoadLevel(g, s, i), inputs).completions <= 1
  {
    CompletionBound(g, LoadLevel(g, s, i), inputs);
  }

  /** Screen levels pause everything: any number of frames leaves the
      session exactly as it was and completes nothing. */
  lemma {:induction false} ScreenFreezes(g: Game, s: State, inputs: seq<Held>)
    requires ValidGame(g) && Valid(g, s)
    requires IsScreen(Current(g, s))
    ensures RunFrames(g, s, inputs) == Run(s, 0)
    decreases |inputs|
  {
    if |inputs| > 0 {
      ScreenFreezes(g, s, inputs[1..]);
    }
  }

  /** On a play level, while nothing completes, the session stays on its
      level and the delay drops by one per frame down to zero. */
  lemma {:induction false} DelayCountsDown(g: Game, s: State, inputs: seq<Held>)
    requires ValidGame(g) && Valid(g, s)
    requires !IsScreen(Current(g, s))
    requires RunFrames(g, s, inputs).completions == 0
    ensures RunFrames(g, s, inputs).state.levelIndex == s.levelIndex
    ensures RunFrames(g, s, inputs).state.goalDelay == MaxInt(s.goalDelay - |inputs|, 0)
    decreases |inputs|
  {
    if |inputs| > 0 {
      var f := Tick(g, s, inputs[0]);
      DelayCountsDown(g, f.state, inputs[1..]);
    }
  }

  /** The physics never moves a player that touches level i's goal off it. */
  ghost predicate StaysOnGoal(g: Game, i: int)
    requires 0 <= i < |g.levels|
    requires g.levels[i].goal.Some?
  {
    forall p: Player, h: Held ::
      TouchesGoal(p, g.levels[i].goal.value) ==>
      TouchesGoal(g.physics.update(p, g.levels[i], h), g.levels[i].goal.value)
  }

  /** A player resting on the goal of a play level completes it exactly
      once, on the frame where the delay runs out (the 15th after a load). */
  lemma {:induction false} FiresWhenDelayExpires(g: Game, s: State, inputs: seq<Held>)
    requires ValidGame(g) && Valid(g, s)
    requires !IsScreen(Current(g, s)) && Current(g, s).goal.Some?
    requires TouchesGoal(s.player, Current(g, s).goal.value) && StaysOnGoal(g, s.levelIndex)
    requires s.goalDelay >= 1 && |inputs| == s.goalDelay
    ensures RunFrames(g, s, inputs).completions == 1
    decreases |inputs|
  {
    var f := Tick(g, s, inputs[0]);
    assert TouchesGoal(Moved(g, s, inputs[0]), Current(g, s).goal.value);
    if s.goalDelay == 1 {
      assert f.completed;
    } else {
      assert !f.completed;
      FiresWhenDelayExpires(g, f.state, inputs[1..]);
    }
  }

  /** A discrete input event: a frame or a key press. */
  datatype Event = Draw(held: Held) | Key(cmd: Command)

  /** The session after a sequence of events. */
  function Play(g: Game, s: State, events: seq<Event>): (r: State)
    requires ValidGame(g) && Valid(g, s)
    ensures Valid(g, r)
    decreases |events|
  {
    if |events| == 0 then s
    else
      var next := match events[0]
        case Draw(h) => Tick(g, s, h).state
        case Key(c) => KeyPress(g, s, c);
      Play(g, next, events[1..])
  }

  /** Valid, and a session on a screen level has its goal delay fully
      armed. */
  ghost predicate ScreenArmed(g: Game, s: State)
  {
    Valid(g, s) && (IsScreen(Current(g, s)) ==> s.goalDelay == GoalDelayTicks)
  }

  /** Frames and key presses keep a screen level's delay armed: a screen
      level is only entered through a load, its frames do not count down,
      and its keys either load a level or leave the delay alone. */
  lemma {:induction false} PlayKeepsScreenArmed(g: Game, s: State, events: seq<Event>)
    requires ValidGame(g) && ScreenArmed(g, s)
    ensures ScreenArmed(g, Play(g, s, events))
    decreases |events|
  {
    if |events| > 0 {
      var next := match events[0]
        case Draw(h) => Tick(g, s, h).state
        case Key(c) => KeyPress(g, s, c);
      assert ScreenArmed(g, next);
      PlayKeepsScreenArmed(g, next, events[1..]);
    }
  }

  /** In every state reachable from start-up, a screen level still has the
      full 15-frame delay: leaving a screen level for play always starts a
      fresh delay, and no countdown happens while a screen is shown. */
  lemma ReachableScreenIsArmed(g: Game, p0: Player, events: seq<Event>)
    requires ValidGame(g)
    ensures var s := Play(g, Init(g, p0), events);
            IsScreen(Current(g, s)) ==> s.goalDelay == GoalDelayTicks
  {
    PlayKeepsScreenArmed(g, Init(g, p0), events);
  }
}
