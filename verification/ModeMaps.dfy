/** The small mappings that the push path and the pull path share. */
module ModeMaps {
  import opened AlexaModel
  import opened JsNumbers
  import opened TextScan

  const OFF_MOOD_ID := 778
  const OFF_SCENE_ID := 0

  function OnOff(on: bool): Value {
    Symbol(if on then On else Off)
  }

  /** `alexaModeFromLoxone`: Loxone's manual variants collapse onto the automatic ones. */
  function ThermostatModeOf(mode: real): Option<Word> {
    if mode == 0.0 || mode == 3.0 then Some(Auto)
    else if mode == 1.0 || mode == 4.0 then Some(Heat)
    else if mode == 2.0 || mode == 5.0 then Some(Cool)
    else if mode == -1.0 then Some(Off)
    else None
  }

  /** `alexaModeFromAC`: Dry and Fan have no Alexa mode. */
  function AcModeOf(mode: real): Option<Word> {
    if mode == 1.0 then Some(Auto) else if mode == 2.0 then Some(Heat)
    else if mode == 3.0 then Some(Cool) else None
  }

  function RepeatModeOf(repeat: real): Option<Word> {
    if repeat == 0.0 then Some(RepeatOff) else if repeat == 1.0 then Some(RepeatAll)
    else if repeat == 3.0 then Some(RepeatOne) else None
  }

  function PlaybackStateOf(play: real): Option<Word> {
    if play == 0.0 then Some(Stopped) else if play == 1.0 then Some(Paused)
    else if play == 2.0 then Some(Playing) else None
  }

  /** `garageModeFromPosition`: only a fully closed gate is Position.Down. */
  function GarageModeOf(position: real): Word {
    if Round(position * 100.0) > 0 then PositionUp else PositionDown
  }

  /** `polarize` */
  function Polarize(detected: bool, inverted: bool): (w: Word)
    ensures w == Detected || w == NotDetected
  {
    if detected != inverted then Detected else NotDetected
  }

  function SlotOf(w: Word): Word {
    if w == Detected then SlotOne else SlotZero
  }

  /** `Number.parseInt(s, 10)` restricted to what the callers ask: is it 1? */
  predicate ParsesToOne(s: string) {
    var t := SkipSpaces(s);
    var u := if t != "" && t[0] == '+' then t[1..] else t;
    var digits := LeadingDigits(u);
    digits != "" && NatOf(digits) == 1
  }

  /** `windowStates`: every monitored window reports exactly 1. */
  predicate AllClosed(windowStates: string) {
    var parts := SplitCommas(windowStates);
    forall i :: 0 <= i < |parts| ==> ParsesToOne(parts[i])
  }
}
