/** The ColorPickerV2 `color` text: what `parseColorState` reads, the commands
    the brightness and colour handlers write, and the round trip between them. */
module ColorText {
  import opened AlexaModel
  import opened JsNumbers
  import opened TextScan

  /** `parseColorState` result. Both modes carry a brightness. */
  datatype ColorMode =
    | Hsv(hue: int, saturation: int, brightness: int)
    | Temp(brightness: int, kelvin: int)

  const CT_MIN_K := 2700
  const CT_MAX_K := 6500
  const CT_NEUTRAL_K := 4000
  const CT_DEFAULT_BRIGHTNESS := 100

  /** The text after `word`, matched without regard to case. */
  function AfterWord(s: string, word: string): Option<string> {
    if |s| >= |word| && LowerAll(s[..|word|]) == word then Some(s[|word|..]) else None
  }

  /** `\s*(-?\d+(?:\.\d+)?)\s*` followed by `stop`. */
  function Field(s: string, stop: char): Option<(real, string)> {
    match Signed(SkipSpaces(s))
    case None => None
    case Some((x, rest)) =>
      var after := SkipSpaces(rest);
      if after != "" && after[0] == stop then Some((x, after[1..])) else None
  }

  /** One field per character of `stops`, each ended by that character. */
  function Fields(s: string, stops: string): (r: Option<(seq<real>, string)>)
    ensures r.Some? ==> |r.value.0| == |stops|
    decreases |stops|, s
  {
    if stops == "" then Some(([], s))
    else
      match Field(s, stops[0])
      case None => None
      case Some((x, rest)) =>
        match Fields(rest, stops[1..])
        case None => None
        case Some((xs, end)) => Some(([x] + xs, end))
  }

  function MatchHsv(t: string): Option<ColorMode> {
    match AfterWord(t, "hsv(")
    case None => None
    case Some(inner) => HsvOf(Fields(inner, ",,)"))
  }

  function HsvOf(fields: Option<(seq<real>, string)>): Option<ColorMode>
    requires fields.Some? ==> |fields.value.0| == 3
  {
    match fields
    case None => None
    case Some((xs, end)) => if end == "" then Some(Hsv(Round(xs[0]), Round(xs[1]), Round(xs[2]))) else None
  }

  function MatchTemp(t: string): Option<ColorMode> {
    match AfterWord(t, "temp(")
    case None => None
    case Some(inner) => TempOf(Fields(inner, ",)"))
  }

  function TempOf(fields: Option<(seq<real>, string)>): Option<ColorMode>
    requires fields.Some? ==> |fields.value.0| == 2
  {
    match fields
    case None => None
    case Some((xs, end)) => if end == "" then Some(Temp(Round(xs[0]), Round(xs[1]))) else None
  }

  function ParseColorState(text: string): Option<ColorMode> {
    var t := Trim(text);
    var m := MatchHsv(t);
    if m.Some? then m else MatchTemp(t)
  }

  /** The command text the handlers build for a mode. */
  function Command(c: ColorMode): string {
    match c
    case Hsv(h, s, v) => "hsv(" + PrintInt(h) + "," + PrintInt(s) + "," + PrintInt(v) + ")"
    case Temp(b, k) => "temp(" + PrintInt(b) + "," + PrintInt(k) + ")"
  }

  // ----- Handlers --------------------------------------------------------------

  /** SetBrightness on a colour picker: keep whichever dimension the device is
      in, fall back to a neutral white when its state is not known. */
  function BrightnessTarget(current: Option<ColorMode>, target: int): ColorMode {
    match current
    case Some(Hsv(h, s, _)) => Hsv(h, s, target)
    case Some(Temp(_, k)) => Temp(target, k)
    case None => Temp(target, CT_NEUTRAL_K)
  }

  function CurrentBrightness(current: Option<ColorMode>): int {
    if current.Some? then current.value.brightness else 0
  }

  /** AdjustBrightness works from the current brightness, 0 when unknown. */
  function AdjustedBrightness(current: Option<ColorMode>, delta: real): int {
    Clamp(Round(CurrentBrightness(current) as real + delta), 0, 100)
  }

  function Adjusted(current: Option<ColorMode>, delta: real): ColorMode {
    BrightnessTarget(current, AdjustedBrightness(current, delta))
  }

  function ColorTarget(hue: real, saturation: real, brightness: real): ColorMode {
    Hsv(Clamp(Round(hue), 0, 360), Clamp(Round(saturation * 100.0), 0, 100), Clamp(Round(brightness * 100.0), 0, 100))
  }

  function KeptBrightness(current: Option<ColorMode>): int {
    if current.Some? && current.value.brightness > 0 then current.value.brightness else CT_DEFAULT_BRIGHTNESS
  }

  function TemperatureTarget(current: Option<ColorMode>, kelvin: real): ColorMode {
    Temp(KeptBrightness(current), Clamp(Round(kelvin), CT_MIN_K, CT_MAX_K))
  }

  /** Increase/DecreaseColorTemperature from a cached kelvin, neutral otherwise. */
  function SteppedTemperature(current: Option<ColorMode>, step: int): ColorMode {
    var base := if current.Some? && current.value.Temp? && current.value.kelvin != 0
                then current.value.kelvin else CT_NEUTRAL_K;
    Temp(KeptBrightness(current), Clamp(base + step, CT_MIN_K, CT_MAX_K))
  }

  // ----- Round trips -------------------------------------------------------------

  lemma FieldSteps(s: string, stop: char, x: real, rest: string)
    requires SkipSpaces(s) == s && SkipSpaces([stop] + rest) == [stop] + rest
    requires Signed(s) == Some((x, [stop] + rest))
    ensures Field(s, stop) == Some((x, rest))
  {
  }

  lemma FieldReadsPrintedInt(n: int, stop: char, rest: string)
    requires stop == ',' || stop == ')'
    ensures Field(PrintInt(n) + [stop] + rest, stop) == Some((n as real, rest))
  {
    var tail := [stop] + rest;
    var s := PrintInt(n) + tail;
    assert PrintInt(n) + [stop] + rest == s;
    PrintIntStart(n, tail);
    SkipNoSpaces(s);
    SignedReadsPrintedInt(n, tail);
    SkipNoSpaces(tail);
    FieldSteps(s, stop, n as real, rest);
  }

  lemma AfterWordHead(word: string, rest: string)
    requires LowerAll(word) == word
    ensures AfterWord(word + rest, word) == Some(rest)
  {
    assert (word + rest)[..|word|] == word;
    assert (word + rest)[|word|..] == rest;
  }

  lemma RoundInt(n: int)
    ensures Round(n as real) == n
  {
  }

  function PrintFields(ns: seq<int>, stops: string): string
    requires |ns| == |stops|
  {
    if ns == [] then "" else PrintInt(ns[0]) + [stops[0]] + PrintFields(ns[1..], stops[1..])
  }

  lemma {:induction false} FieldsReadPrinted(ns: seq<int>, stops: string)
    requires |ns| == |stops| && forall i :: 0 <= i < |stops| ==> stops[i] == ',' || stops[i] == ')'
    ensures Fields(PrintFields(ns, stops), stops) == Some((Reals(ns), ""))
    decreases |ns|
  {
    if ns != [] {
      FieldReadsPrintedInt(ns[0], stops[0], PrintFields(ns[1..], stops[1..]));
      FieldsReadPrinted(ns[1..], stops[1..]);
    }
  }

  function Reals(ns: seq<int>): seq<real> {
    if ns == [] then [] else [ns[0] as real] + Reals(ns[1..])
  }

  lemma PrintFieldsCons(n: int, ns: seq<int>, stop: char, stops: string)
    requires |ns| == |stops|
    ensures PrintFields([n] + ns, [stop] + stops) == PrintInt(n) + [stop] + PrintFields(ns, stops)
  {
    assert ([n] + ns)[1..] == ns && ([stop] + stops)[1..] == stops;
  }

  lemma OneField(n: int, stop: char)
    ensures PrintFields([n], [stop]) == PrintInt(n) + [stop]
  {
    PrintFieldsCons(n, [], stop, []);
    assert [n] + [] == [n] && [stop] + [] == [stop];
  }

  lemma TwoFields(m: int, n: int, c: char, d: char)
    ensures PrintFields([m, n], [c, d]) == PrintInt(m) + [c] + (PrintInt(n) + [d])
  {
    OneField(n, d);
    PrintFieldsCons(m, [n], c, [d]);
    assert [m] + [n] == [m, n] && [c] + [d] == [c, d];
  }

  lemma ThreeFields(l: int, m: int, n: int, b: char, c: char, d: char)
    ensures PrintFields([l, m, n], [b, c, d]) == PrintInt(l) + [b] + (PrintInt(m) + [c] + (PrintInt(n) + [d]))
  {
    TwoFields(m, n, c, d);
    PrintFieldsCons(l, [m, n], b, [c, d]);
    assert [l] + [m, n] == [l, m, n] && [b] + [c, d] == [b, c, d];
  }

  lemma HsvText(h: int, s: int, v: int, stops: string)
    requires stops == ",,)"
    ensures Command(Hsv(h, s, v)) == "hsv(" + PrintFields([h, s, v], stops)
  {
    ThreeFields(h, s, v, ',', ',', ')');
    assert stops == [',', ',', ')'];
  }

  lemma HsvOfInts(h: int, s: int, v: int)
    ensures Reals([h, s, v]) == [h as real, s as real, v as real]
    ensures HsvOf(Some(([h as real, s as real, v as real], ""))) == Some(Hsv(h, s, v))
  {
    assert [h, s, v][1..] == [s, v] && [s, v][1..] == [v];
    assert Reals([v]) == [v as real] && Reals([s, v]) == [s as real, v as real];
    RoundInt(h); RoundInt(s); RoundInt(v);
  }

  lemma WordsAreLower()
    ensures LowerAll("hsv(") == "hsv(" && LowerAll("temp(") == "temp("
  {
  }

  lemma MatchHsvInverts(h: int, s: int, v: int)
    ensures MatchHsv(Command(Hsv(h, s, v))) == Some(Hsv(h, s, v))
  {
    var stops := ",,)";
    HsvText(h, s, v, stops);
    FieldsReadPrinted([h, s, v], stops);
    WordsAreLower();
    AfterWordHead("hsv(", PrintFields([h, s, v], stops));
    HsvOfInts(h, s, v);
  }

  lemma TempText(b: int, k: int, stops: string)
    requires stops == ",)"
    ensures Command(Temp(b, k)) == "temp(" + PrintFields([b, k], stops)
  {
    TwoFields(b, k, ',', ')');
    assert stops == [',', ')'];
  }

  lemma TempOfInts(b: int, k: int)
    ensures Reals([b, k]) == [b as real, k as real]
    ensures TempOf(Some(([b as real, k as real], ""))) == Some(Temp(b, k))
  {
    assert [b, k][1..] == [k];
    assert Reals([k]) == [k as real];
    RoundInt(b); RoundInt(k);
  }

  lemma MatchTempInverts(b: int, k: int)
    ensures MatchTemp(Command(Temp(b, k))) == Some(Temp(b, k))
  {
    var stops := ",)";
    TempText(b, k, stops);
    FieldsReadPrinted([b, k], stops);
    WordsAreLower();
    AfterWordHead("temp(", PrintFields([b, k], stops));
    TempOfInts(b, k);
  }

  lemma TempIsNotHsv(rest: string)
    ensures MatchHsv("temp(" + rest) == None
  {
    var text := "temp(" + rest;
    assert LowerAll(text[..4])[0] == 't';
  }

  /** Every command the handlers emit is read back as the mode it was built for. */
  lemma ParseInvertsCommand(c: ColorMode)
    ensures ParseColorState(Command(c)) == Some(c)
  {
    match c
    case Hsv(h, s, v) =>
      TrimNothing(Command(c));
      MatchHsvInverts(h, s, v);
    case Temp(b, k) =>
      var rest := PrintInt(b) + "," + PrintInt(k) + ")";
      assert Command(c) == "temp(" + rest;
      TrimNothing(Command(c));
      TempIsNotHsv(rest);
      MatchTempInverts(b, k);
  }

  /** SetBrightness, for every cached text and every requested level: reading the
      command back gives the requested brightness, and hue and saturation (or
      kelvin) are exactly those of the text it started from. */
  lemma SetBrightnessChangesOnlyBrightness(text: string, target: int)
    ensures var before := ParseColorState(text);
      var after := ParseColorState(Command(BrightnessTarget(before, target)));
      && after.Some? && after.value.brightness == target
      && (before.Some? ==>
            && after.value.Hsv? == before.value.Hsv?
            && after.value == before.value.(brightness := target))
      && (before.None? ==> after.value == Temp(target, CT_NEUTRAL_K))
  {
    ParseInvertsCommand(BrightnessTarget(ParseColorState(text), target));
  }

  /** Setting the brightness a second time makes the first one irrelevant, and
      setting it back restores the state: no dimension drifts over a session. */
  lemma BrightnessSessionsDoNotDrift(text: string, first: int, second: int)
    requires ParseColorState(text).Some?
    ensures var start := ParseColorState(text);
      var once := ParseColorState(Command(BrightnessTarget(start, first)));
      var twice := ParseColorState(Command(BrightnessTarget(once, second)));
      && twice == ParseColorState(Command(BrightnessTarget(start, second)))
      && (second == start.value.brightness ==> twice == start)
  {
    var start := ParseColorState(text);
    ParseInvertsCommand(BrightnessTarget(start, first));
    ParseInvertsCommand(BrightnessTarget(Some(BrightnessTarget(start, first)), second));
    ParseInvertsCommand(BrightnessTarget(start, second));
  }

  /** AdjustBrightness, for every cached text and every delta: the command is read
      back as a mode whose brightness is in range and within half a unit of the
      clamped sum, and no other dimension has moved. */
  lemma AdjustBrightnessReadsBack(text: string, delta: real)
    ensures var before := ParseColorState(text);
      var after := ParseColorState(Command(Adjusted(before, delta)));
      && after == Some(Adjusted(before, delta)) && 0 <= after.value.brightness <= 100
      && Abs(after.value.brightness as real - ClampReal(CurrentBrightness(before) as real + delta, 0.0, 100.0)) <= 0.5
      && (before.Some? ==> after.value == before.value.(brightness := after.value.brightness))
  {
    var before := ParseColorState(text);
    ParseInvertsCommand(Adjusted(before, delta));
  }

  lemma WholeStep(b: int, step: int)
    requires 0 <= b + step <= 100
    ensures Clamp(Round(b as real + step as real), 0, 100) == b + step
  {
    assert b as real + step as real == (b + step) as real;
    RoundInt(b + step);
  }

  /** A whole adjustment that stays in range is undone by the opposite one. */
  lemma AdjustingBackRestores(before: ColorMode, step: int)
    requires 0 <= before.brightness <= 100 && 0 <= before.brightness + step <= 100
    ensures Adjusted(Some(Adjusted(Some(before), step as real)), (-step) as real) == before
  {
    WholeStep(before.brightness, step);
    WholeStep(before.brightness + step, -step);
  }

  /** SetColor: what is read back is a colour in range, within half a degree and half
      a percent of a request in range, and sending what was read back changes nothing. */
  lemma SetColorReadsBack(hue: real, saturation: real, brightness: real)
    requires 0.0 <= hue <= 360.0 && 0.0 <= saturation <= 1.0 && 0.0 <= brightness <= 1.0
    ensures var after := ParseColorState(Command(ColorTarget(hue, saturation, brightness)));
      && after.Some? && after.value.Hsv?
      && Abs(after.value.hue as real - hue) <= 0.5
      && Abs(after.value.saturation as real / 100.0 - saturation) <= 0.005
      && Abs(after.value.brightness as real / 100.0 - brightness) <= 0.005
      && ColorTarget(after.value.hue as real, after.value.saturation as real / 100.0, after.value.brightness as real / 100.0)
           == after.value
  {
    var c := ColorTarget(hue, saturation, brightness);
    ParseInvertsCommand(c);
    PercentReadsBack(saturation);
    PercentReadsBack(brightness);
    RoundInt(c.hue);
  }

  lemma PercentReadsBack(x: real)
    requires 0.0 <= x <= 1.0
    ensures var n := Clamp(Round(x * 100.0), 0, 100);
      && Abs(n as real / 100.0 - x) <= 0.005
      && Clamp(Round(n as real / 100.0 * 100.0), 0, 100) == n
  {
    var n := Clamp(Round(x * 100.0), 0, 100);
    assert n as real / 100.0 * 100.0 == n as real;
    RoundInt(n);
  }

  /** What a warmer/cooler command must leave behind, given the state before. */
  predicate LitAndInRange(before: Option<ColorMode>, after: Option<ColorMode>) {
    && after.Some? && after.value.Temp?
    && after.value.brightness > 0
    && CT_MIN_K <= after.value.kelvin <= CT_MAX_K
    && (before.Some? && before.value.brightness > 0 ==> after.value.brightness == before.value.brightness)
  }

  /** A temperature command never leaves the light dark, keeps a positive
      brightness and stays within the fixture's range, whatever was cached. */
  lemma TemperatureKeepsBrightness(text: string, kelvin: real, step: int)
    ensures var before := ParseColorState(text);
      && LitAndInRange(before, ParseColorState(Command(TemperatureTarget(before, kelvin))))
      && LitAndInRange(before, ParseColorState(Command(SteppedTemperature(before, step))))
  {
    var before := ParseColorState(text);
    ParseInvertsCommand(TemperatureTarget(before, kelvin));
    ParseInvertsCommand(SteppedTemperature(before, step));
  }
}
