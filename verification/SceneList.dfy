/** LightController (v1) `sceneList` text: `1="Name",2="Other \"name\""`. */
module SceneList {
  import opened AlexaModel
  import opened TextScan

  datatype Scene = Scene(id: nat, name: string)

  /** The `.` of a regular expression does not match these. */
  predicate IsLineEnd(c: char) {
    c == '\n' || c == '\r' || c as int == 0x2028 || c as int == 0x2029
  }

  /** `((?:\\.|[^"\\])*)"` : the raw body and the text after the closing quote. */
  function QuotedBody(s: string): Option<(string, string)> {
    if s == "" then None
    else if s[0] == '"' then Some(("", s[1..]))
    else if s[0] == '\\' then
      if |s| >= 2 && !IsLineEnd(s[1]) then
        match QuotedBody(s[2..])
        case None => None
        case Some((body, rest)) => Some((s[..2] + body, rest))
      else None
    else
      match QuotedBody(s[1..])
      case None => None
      case Some((body, rest)) => Some(([s[0]] + body, rest))
  }

  /** `replace(/\\(.)/g, '$1')` */
  function Unescape(body: string): string {
    if body == "" then ""
    else if body[0] == '\\' && |body| >= 2 && !IsLineEnd(body[1]) then [body[1]] + Unescape(body[2..])
    else [body[0]] + Unescape(body[1..])
  }

  /** One match of the entry pattern at the start of `s`. */
  function MatchEntry(s: string): (r: Option<(Scene, string)>)
    ensures r.Some? ==> |r.value.1| < |s| && r.value.0.name != ""
  {
    var digits := LeadingDigits(s);
    if digits == "" then None
    else
      var equals := SkipSpaces(s[|digits|..]);
      SkipSpacesShorter(s[|digits|..]);
      if equals == "" || equals[0] != '=' then None
      else
        var quote := SkipSpaces(equals[1..]);
        SkipSpacesShorter(equals[1..]);
        if quote == "" || quote[0] != '"' then None
        else
          QuotedBodyShorter(quote[1..]);
          SceneOf(NatOf(digits), QuotedBody(quote[1..]))
  }

  /** A nameless scene is called after its id. */
  function SceneOf(id: nat, quoted: Option<(string, string)>): (r: Option<(Scene, string)>)
    ensures r.Some? <==> quoted.Some?
    ensures r.Some? ==> r.value.1 == quoted.value.1 && r.value.0.name != ""
  {
    match quoted
    case None => None
    case Some((body, rest)) =>
      var name := Unescape(body);
      Some((Scene(id, if name == "" then "Scene " + PrintNat(id) else name), rest))
  }

  lemma SkipSpacesShorter(s: string)
    ensures |SkipSpaces(s)| <= |s|
  {
  }

  lemma QuotedBodyShorter(s: string)
    ensures QuotedBody(s).Some? ==> |QuotedBody(s).value.1| < |s|
  {
  }

  /** All entries, leftmost first; a position where no entry starts is skipped. */
  function Scenes(s: string): seq<Scene>
    decreases |s|
  {
    if s == "" then []
    else
      match MatchEntry(s)
      case Some((scene, rest)) => [scene] + Scenes(rest)
      case None => Scenes(s[1..])
  }

  /** `parseSceneList`: `exec` finds the next match from the last position, the
      loop pushes it. */
  method ParseSceneList(text: string) returns (out: seq<Scene>)
    ensures out == Scenes(text)
  {
    out := [];
    var rest := text;
    while rest != ""
      invariant Scenes(text) == out + Scenes(rest)
      decreases |rest|
    {
      match MatchEntry(rest)
      case Some((scene, after)) =>
        out := out + [scene];
        rest := after;
      case None =>
        rest := rest[1..];
    }
  }

  // ----- Printing ------------------------------------------------------------

  function EscapeChar(c: char): string {
    if c == '"' || c == '\\' then ['\\', c] else [c]
  }

  function Escape(name: string): string {
    if name == "" then "" else EscapeChar(name[0]) + Escape(name[1..])
  }

  function PrintScene(scene: Scene): string {
    PrintNat(scene.id) + "=\"" + Escape(scene.name) + "\""
  }

  function PrintScenes(scenes: seq<Scene>): string {
    if scenes == [] then ""
    else if |scenes| == 1 then PrintScene(scenes[0])
    else PrintScene(scenes[0]) + "," + PrintScenes(scenes[1..])
  }

  /** One more character in front of a quoted body. */
  lemma BodyStep(c: char, body: string, stop: string, rest: string)
    requires QuotedBody(body + stop) == Some((body, rest))
    ensures QuotedBody(EscapeChar(c) + body + stop) == Some((EscapeChar(c) + body, rest))
  {
    var s := EscapeChar(c) + body + stop;
    if c == '"' || c == '\\' {
      assert s[2..] == body + stop && s[..2] == EscapeChar(c);
    } else {
      assert s[1..] == body + stop && [s[0]] == EscapeChar(c);
    }
  }

  lemma {:induction false} BodyOfEscape(name: string, rest: string)
    ensures QuotedBody(Escape(name) + ("\"" + rest)) == Some((Escape(name), rest))
  {
    var stop := "\"" + rest;
    if name == "" {
      assert Escape(name) + stop == stop && stop[1..] == rest;
    } else {
      BodyOfEscape(name[1..], rest);
      BodyStep(name[0], Escape(name[1..]), stop, rest);
    }
  }

  lemma UnescapeStep(c: char, body: string)
    ensures Unescape(EscapeChar(c) + body) == [c] + Unescape(body)
  {
    var s := EscapeChar(c) + body;
    if c == '"' || c == '\\' { assert s[2..] == body; } else { assert s[1..] == body; }
  }

  lemma {:induction false} UnescapeEscape(name: string)
    ensures Unescape(Escape(name)) == name
  {
    if name != "" {
      UnescapeEscape(name[1..]);
      UnescapeStep(name[0], Escape(name[1..]));
    }
  }

  lemma MatchSteps(digits: string, quoted: string)
    requires digits != "" && AllDigits(digits)
    ensures MatchEntry(digits + "=\"" + quoted) == SceneOf(NatOf(digits), QuotedBody(quoted))
  {
    var s, equals, quote := digits + "=\"" + quoted, "=\"" + quoted, "\"" + quoted;
    assert s == digits + equals;
    LeadingDigitsOf(digits, equals);
    assert s[|digits|..] == equals;
    SkipNoSpaces(equals);
    assert equals[1..] == quote;
    SkipNoSpaces(quote);
    assert quote[1..] == quoted;
  }

  lemma MatchPrinted(scene: Scene, rest: string)
    requires scene.name != ""
    ensures MatchEntry(PrintScene(scene) + rest) == Some((scene, rest))
  {
    var digits, quoted := PrintNat(scene.id), Escape(scene.name) + ("\"" + rest);
    assert PrintScene(scene) + rest == digits + "=\"" + quoted;
    MatchSteps(digits, quoted);
    BodyOfEscape(scene.name, rest);
    UnescapeEscape(scene.name);
    NatOfPrintNat(scene.id);
  }

  /** The parser inverts the printer on every list of ids and non-empty names,
      whatever quotes, backslashes, commas or entry look-alikes the names hold. */
  lemma {:induction false} ParseInvertsPrint(scenes: seq<Scene>)
    requires forall i :: 0 <= i < |scenes| ==> scenes[i].name != ""
    ensures Scenes(PrintScenes(scenes)) == scenes
  {
    if |scenes| == 1 {
      MatchPrinted(scenes[0], "");
      assert PrintScene(scenes[0]) + "" == PrintScene(scenes[0]);
      assert Scenes("") == [];
    } else if |scenes| > 1 {
      var tail := "," + PrintScenes(scenes[1..]);
      MatchPrinted(scenes[0], tail);
      assert PrintScenes(scenes) == PrintScene(scenes[0]) + tail;
      assert LeadingDigits(tail) == "";
      assert tail[1..] == PrintScenes(scenes[1..]);
      ParseInvertsPrint(scenes[1..]);
    }
  }

  lemma {:induction false} ParsedNamesNonEmpty(s: string)
    ensures forall i :: 0 <= i < |Scenes(s)| ==> Scenes(s)[i].name != ""
    decreases |s|
  {
    if s != "" {
      match MatchEntry(s)
      case Some((scene, rest)) => ParsedNamesNonEmpty(rest);
      case None => ParsedNamesNonEmpty(s[1..]);
    }
  }

  /** On every text, however malformed: printing what was understood and parsing
      it again understands the same scenes. */
  lemma ReprintingIsStable(text: string)
    ensures Scenes(PrintScenes(Scenes(text))) == Scenes(text)
  {
    ParsedNamesNonEmpty(text);
    ParseInvertsPrint(Scenes(text));
  }
}
