/** The level list as the session reads it: each level has a type, its
    platforms, an optional goal, an optional explicit `next` index and
    optional screen strings. */
module Levels {
  import opened Nullish
  import opened Geometry

  /** The `screen` payload of a screen level; each string may be absent. */
  datatype ScreenText = ScreenText(title: Option<string>, subtitle: Option<string>, prompt: Option<string>)

  /** One level record. `kind` is the `type` string. `start`, `width` and
      `height` are read only by the opaque physics and by canvas sizing.
      Themes only feed drawing and are not part of the model. */
  datatype Level = Level(
    name: Option<string>,
    kind: string,
    platforms: seq<Rect>,
    goal: Option<Rect>,
    start: Option<(real, real)>,
    width: Option<real>,
    height: Option<real>,
    next: Option<int>,
    screen: Option<ScreenText>)

  /** `world.type === "screen"`: every other type behaves as a play level. */
  function IsScreen(l: Level): (b: bool)
    ensures l.kind == "screen" ==> b
    ensures l.kind != "screen" ==> !b
  {
    l.kind == "screen"
  }

  /** The explicit `next` of a level, when present, indexes the list. */
  predicate NextInRange(l: Level, n: int)
  {
    l.next.Some? ==> 0 <= l.next.value < n
  }

  /** What the code needs of the loaded level data: a non-empty list (the
      first level is loaded at start-up and `% length` must be defined) whose
      explicit routing targets all exist (the code never wraps them). */
  predicate WellFormed(levels: seq<Level>)
  {
    && |levels| > 0
    && forall k :: 0 <= k < |levels| ==> NextInRange(levels[k], |levels|)
  }
}
