/** The text a screen level shows (`drawScreenOverlay`): title, subtitle
    and prompt, each chosen by a JavaScript `||` chain, so that an absent
    OR empty string falls through to the next candidate. */
module Overlay {
  import opened Nullish
  import opened Levels

  /** JavaScript truthiness of an optional string: present and non-empty. */
  predicate Truthy(o: Option<string>)
  {
    o.Some? && o.value != ""
  }

  /** `o || d` for an optional string `o` and a string `d`. */
  function Or(o: Option<string>, d: string): (r: string)
    ensures r == FirstTruthy([o], d)
    ensures r == d || (o.Some? && r == o.value && r != "")
  {
    if Truthy(o) then o.value else d
  }

  /** Reference meaning of a `||` chain `c0 || c1 || ... || d`: the first
      truthy candidate, or the final default when none is. */
  function FirstTruthy(cands: seq<Option<string>>, d: string): (r: string)
    ensures (forall k :: 0 <= k < |cands| ==> !Truthy(cands[k])) ==> r == d
    ensures forall k :: 0 <= k < |cands| && Truthy(cands[k])
                        && (forall j :: 0 <= j < k ==> !Truthy(cands[j]))
                        ==> r == cands[k].value
  {
    if |cands| == 0 then d
    else if Truthy(cands[0]) then cands[0].value
    else FirstTruthy(cands[1..], d)
  }

  /** The prompt shown when a screen level supplies none. */
  const DefaultPrompt: string := "Press SPACE"

  /** The three strings of the overlay. */
  datatype Text = Text(title: string, subtitle: string, prompt: string)

  /** `world.screen?.title` and friends: absent when the level has no
      `screen` payload. */
  function TitleField(l: Level): Option<string>
  {
    if l.screen.Some? then l.screen.value.title else None
  }

  function SubtitleField(l: Level): Option<string>
  {
    if l.screen.Some? then l.screen.value.subtitle else None
  }

  function PromptField(l: Level): Option<string>
  {
    if l.screen.Some? then l.screen.value.prompt else None
  }

  /** The overlay text of a screen level: title falls back to the level
      name and then to "", subtitle to "", prompt to "Press SPACE". */
  function OverlayText(l: Level): (t: Text)
    ensures t.title == FirstTruthy([TitleField(l), l.name], "")
    ensures t.subtitle == FirstTruthy([SubtitleField(l)], "")
    ensures t.prompt == FirstTruthy([PromptField(l)], DefaultPrompt)
    ensures t.title == "" <==> !Truthy(TitleField(l)) && !Truthy(l.name)
    ensures t.prompt != ""
  {
    Text(Or(TitleField(l), Or(l.name, "")), Or(SubtitleField(l), ""), Or(PromptField(l), DefaultPrompt))
  }

  /** The lines drawn, top to bottom: the title always, the subtitle only
      when non-empty (`if (subtitle)`), the prompt always. */
  function DrawnLines(t: Text): (lines: seq<string>)
    ensures |lines| == if t.subtitle == "" then 2 else 3
    ensures lines[0] == t.title && lines[|lines| - 1] == t.prompt
    ensures t.subtitle != "" <==> |lines| == 3 && lines[1] == t.subtitle
  {
    [t.title] + (if t.subtitle != "" then [t.subtitle] else []) + [t.prompt]
  }

  /** An explicitly empty screen string is treated exactly like a missing
      one: clearing it to "" changes nothing on screen. */
  lemma EmptyStringFallsThrough(l: Level, s: ScreenText)
    requires l.screen == Some(s)
    ensures OverlayText(l.(screen := Some(s.(title := Some(""))))) == OverlayText(l.(screen := Some(s.(title := None))))
    ensures OverlayText(l.(screen := Some(s.(subtitle := Some(""))))) == OverlayText(l.(screen := Some(s.(subtitle := None))))
    ensures OverlayText(l.(screen := Some(s.(prompt := Some(""))))) == OverlayText(l.(screen := Some(s.(prompt := None))))
  {
  }
}
