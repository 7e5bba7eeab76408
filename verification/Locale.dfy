/** `pickLocale`: the Accept-Language header against the supported locales. */
module Locale {
  import opened AlexaModel
  import opened TextScan

  const SUPPORTED: set<string> := {"en", "de", "fr", "it", "es", "nl"}
  const DEFAULT_LOCALE := "en"

  datatype Entry = Entry(tag: string, q: real)

  // ----- Parsing one entry ------------------------------------------------------------

  function IndexOf(s: string, c: char): (i: nat)
    ensures i <= |s| && (i < |s| ==> s[i] == c)
    ensures forall j :: 0 <= j < i ==> s[j] != c
  {
    if s == "" || s[0] == c then 0 else 1 + IndexOf(s[1..], c)
  }

  predicate IsNumberChar(c: char) {
    IsDigit(c) || c == '.'
  }

  function LeadingNumberChars(s: string): (r: string)
    ensures r <= s
  {
    if s != "" && IsNumberChar(s[0]) then [s[0]] + LeadingNumberChars(s[1..]) else ""
  }

  /** `parseFloat` on a text of digits and dots; None is NaN. */
  function ParseFloat(s: string): Option<real> {
    var whole := LeadingDigits(s);
    var rest := s[|whole|..];
    var fraction := if rest != "" && rest[0] == '.' then LeadingDigits(rest[1..]) else "";
    if whole == "" && fraction == "" then None else Some(NatOf(whole) as real + FractionOf(fraction))
  }

  /** `/q\s*=\s*([\d.]+)/i` at the start of `s`: the captured text. */
  function MatchQ(s: string): Option<string> {
    if s == "" || (s[0] != 'q' && s[0] != 'Q') then None
    else
      var equals := SkipSpaces(s[1..]);
      if equals == "" || equals[0] != '=' then None
      else
        var number := LeadingNumberChars(SkipSpaces(equals[1..]));
        if number == "" then None else Some(number)
  }

  /** The first match anywhere in the parameters. */
  function FindQ(s: string): Option<string> {
    if s == "" then None
    else
      var here := MatchQ(s);
      if here.Some? then here else FindQ(s[1..])
  }

  function ParseEntry(trimmed: string): Entry {
    var semi := IndexOf(trimmed, ';');
    var tag := Trim(LowerAll(trimmed[..semi]));
    if semi == |trimmed| then Entry(tag, 1.0)
    else
      var m := FindQ(trimmed[semi + 1..]);
      var parsed := if m.Some? then ParseFloat(m.value) else None;
      Entry(tag, if parsed.Some? then parsed.value else 1.0)
  }

  function ParseAll(parts: seq<string>): seq<Entry> {
    if parts == [] then []
    else
      var before := ParseAll(parts[..|parts| - 1]);
      var trimmed := Trim(parts[|parts| - 1]);
      if trimmed == "" then before else before + [ParseEntry(trimmed)]
  }

  // ----- Matching one tag ----------------------------------------------------------------

  /** Exact, then primary. */
  function MatchTag(tag: string): Option<string> {
    var dash := IndexOf(tag, '-');
    if tag in SUPPORTED then Some(tag)
    else if 0 < dash < |tag| && tag[..dash] in SUPPORTED then Some(tag[..dash])
    else None
  }

  /** The subtags a single-letter subtag introduces go together with it. */
  function DropSingleton(tag: string): (t: string)
    ensures t <= tag
  {
    if |tag| >= 2 && tag[|tag| - 2] == '-' then tag[..|tag| - 2] else tag
  }

  function LastDash(tag: string): (i: nat)
    ensures i <= |tag| && (i < |tag| ==> tag[i] == '-')
    ensures forall j :: i < j < |tag| ==> tag[j] != '-'
    ensures i == |tag| ==> forall j :: 0 <= j < |tag| ==> tag[j] != '-'
  {
    if tag == "" then 0
    else if tag[|tag| - 1] == '-' then |tag| - 1
    else
      var i := LastDash(tag[..|tag| - 1]);
      if i == |tag| - 1 then |tag| else i
  }

  /** Section 3.4 of RFC 4647: truncate the tag from the right until it is supported
      or nothing is left to cut. */
  function Rfc4647Lookup(tag: string): Option<string>
    decreases |tag|
  {
    if tag in SUPPORTED then Some(tag)
    else
      var dash := LastDash(tag);
      if dash == |tag| then None else Rfc4647Lookup(DropSingleton(tag[..dash]))
  }

  lemma SupportedTag(tag: string)
    requires tag in SUPPORTED
    ensures |tag| == 2 && tag[0] != '-' && tag[1] != '-'
  {
  }

  lemma HyphenUnsupported(tag: string, k: nat)
    requires k < |tag| && tag[k] == '-'
    ensures tag !in SUPPORTED
  {
    if tag in SUPPORTED { SupportedTag(tag); }
  }

  lemma {:induction false} FirstDashUnique(s: string, i: nat)
    requires i <= |s| && (i < |s| ==> s[i] == '-') && forall j :: 0 <= j < i ==> s[j] != '-'
    ensures IndexOf(s, '-') == i
  {
    if i > 0 { FirstDashUnique(s[1..], i - 1); }
  }

  /** What a tag with a hyphen matches is up to its primary subtag. */
  lemma ByPrimary(tag: string, dash: nat)
    requires dash == IndexOf(tag, '-') < |tag|
    ensures MatchTag(tag) == if 0 < dash && tag[..dash] in SUPPORTED then Some(tag[..dash]) else None
  {
    HyphenUnsupported(tag, dash);
  }

  lemma PrimaryMatches(primary: string)
    requires IndexOf(primary, '-') == |primary|
    ensures MatchTag(primary) == if |primary| > 0 && primary in SUPPORTED then Some(primary) else None
  {
    if primary in SUPPORTED { SupportedTag(primary); }
  }

  /** Cutting at the first hyphen leaves the primary subtag. */
  lemma CutToPrimary(tag: string, dash: nat)
    requires dash == IndexOf(tag, '-') < |tag|
    ensures MatchTag(tag[..dash]) == MatchTag(tag)
  {
    ByPrimary(tag, dash);
    FirstDashUnique(tag[..dash], dash);
    PrimaryMatches(tag[..dash]);
  }

  /** Cutting behind the first hyphen does not change what exact-then-primary finds. */
  lemma CutBehind(tag: string, dash: nat, cut: nat)
    requires dash == IndexOf(tag, '-') < cut <= |tag|
    ensures MatchTag(tag[..cut]) == MatchTag(tag)
  {
    var shorter := tag[..cut];
    ByPrimary(tag, dash);
    FirstDashUnique(shorter, dash);
    ByPrimary(shorter, dash);
    assert shorter[..dash] == tag[..dash];
  }

  /** For every tag, however malformed, exact-then-primary is the lookup of section
      3.4 of RFC 4647, because no supported tag has a hyphen. */
  lemma {:induction false} MatchRefinesLookup(tag: string)
    ensures MatchTag(tag) == Rfc4647Lookup(tag)
    decreases |tag|
  {
    var last := LastDash(tag);
    if tag !in SUPPORTED && last < |tag| {
      var first := IndexOf(tag, '-');
      assert first <= last;
      var shorter := DropSingleton(tag[..last]);
      assert shorter == tag[..|shorter|];
      if |shorter| < last { assert tag[..last][last - 2] == tag[last - 2]; }
      if |shorter| == first { CutToPrimary(tag, first); } else { CutBehind(tag, first, |shorter|); }
      MatchRefinesLookup(shorter);
    }
  }

  // ----- Ranking ---------------------------------------------------------------------------

  /** An entry the final loop does not skip and that leads to a supported locale. */
  predicate Matchable(e: Entry) {
    e.tag != "" && e.tag != "*" && e.q > 0.0 && MatchTag(e.tag).Some?
  }

  predicate Descending(es: seq<Entry>) {
    forall i, j :: 0 <= i < j < |es| ==> es[i].q >= es[j].q
  }

  /** Behind every entry that ranks at least as high. */
  function Insert(es: seq<Entry>, e: Entry): (r: seq<Entry>)
    ensures multiset(r) == multiset(es) + multiset{e}
  {
    if es == [] then [e]
    else if es[0].q >= e.q then
      assert es == [es[0]] + es[1..];
      [es[0]] + Insert(es[1..], e)
    else [e] + es
  }

  /** The stable descending sort. */
  function SortDescending(es: seq<Entry>): (r: seq<Entry>)
    ensures multiset(r) == multiset(es)
  {
    if es == [] then []
    else
      assert es == es[..|es| - 1] + [es[|es| - 1]];
      Insert(SortDescending(es[..|es| - 1]), es[|es| - 1])
  }

  function FirstMatchable(es: seq<Entry>): Option<Entry> {
    if es == [] then None else if Matchable(es[0]) then Some(es[0]) else FirstMatchable(es[1..])
  }

  function LocaleOf(best: Option<Entry>): string {
    if best.Some? && MatchTag(best.value.tag).Some? then MatchTag(best.value.tag).value else DEFAULT_LOCALE
  }

  function Pick(header: string): string {
    LocaleOf(FirstMatchable(SortDescending(ParseAll(SplitCommas(header)))))
  }

  /** Keep the champion unless the next one is matchable and ranks strictly higher. */
  function Best(es: seq<Entry>): Option<Entry> {
    if es == [] then None
    else
      var champion := Best(es[..|es| - 1]);
      var e := es[|es| - 1];
      if Matchable(e) && (champion.None? || e.q > champion.value.q) then Some(e) else champion
  }

  lemma DescendingCons(e: Entry, es: seq<Entry>)
    requires Descending(es) && (es != [] ==> e.q >= es[0].q)
    ensures Descending([e] + es)
  {
    var r := [e] + es;
    forall i, j | 0 <= i < j < |r| ensures r[i].q >= r[j].q {
      assert r[j] == es[j - 1];
      if i > 0 { assert r[i] == es[i - 1]; } else { assert es[0].q >= es[j - 1].q; }
    }
  }

  lemma {:induction false} InsertKeepsDescending(es: seq<Entry>, e: Entry)
    requires Descending(es)
    ensures Descending(Insert(es, e))
    ensures Insert(es, e) != [] && (Insert(es, e)[0] == e || (es != [] && Insert(es, e)[0] == es[0]))
  {
    if es == [] {
      assert Insert(es, e) == [e];
    } else if es[0].q >= e.q {
      InsertKeepsDescending(es[1..], e);
      DescendingCons(es[0], Insert(es[1..], e));
    } else {
      DescendingCons(e, es);
    }
  }

  lemma {:induction false} FirstAfterInsert(es: seq<Entry>, e: Entry)
    requires Descending(es)
    ensures FirstMatchable(Insert(es, e)) ==
      var first := FirstMatchable(es);
      if Matchable(e) && (first.None? || e.q > first.value.q) then Some(e) else first
  {
    if es == [] {
      assert [e][1..] == [];
    } else if es[0].q >= e.q {
      FirstAfterInsert(es[1..], e);
      assert Insert(es, e)[1..] == Insert(es[1..], e);
    } else {
      assert ([e] + es)[1..] == es;
      FirstIsMember(es);
    }
  }

  lemma {:induction false} FirstIsMember(es: seq<Entry>)
    ensures FirstMatchable(es).Some? ==> FirstMatchable(es).value in es && Matchable(FirstMatchable(es).value)
  {
    if es != [] && !Matchable(es[0]) { FirstIsMember(es[1..]); }
  }

  lemma {:induction false} SortIsDescending(es: seq<Entry>)
    ensures Descending(SortDescending(es))
  {
    if es != [] {
      SortIsDescending(es[..|es| - 1]);
      InsertKeepsDescending(SortDescending(es[..|es| - 1]), es[|es| - 1]);
    }
  }

  lemma {:induction false} FirstOfSortedIsBest(es: seq<Entry>)
    ensures FirstMatchable(SortDescending(es)) == Best(es)
  {
    if es != [] {
      FirstOfSortedIsBest(es[..|es| - 1]);
      SortIsDescending(es[..|es| - 1]);
      FirstAfterInsert(SortDescending(es[..|es| - 1]), es[|es| - 1]);
    }
  }

  /** `i` is matchable, nobody matchable ranks higher, and none before it ranks as high. */
  predicate Wins(es: seq<Entry>, i: nat) {
    && i < |es| && Matchable(es[i])
    && forall j :: 0 <= j < |es| && Matchable(es[j]) ==> es[j].q < es[i].q || (es[j].q == es[i].q && i <= j)
  }

  /** The front's champion, or nobody, against one more entry. */
  lemma WinsOneMore(front: seq<Entry>, e: Entry, i: nat)
    requires Wins(front, i)
    ensures if Matchable(e) && e.q > front[i].q then Wins(front + [e], |front|) else Wins(front + [e], i)
  {
    var es := front + [e];
    assert forall j :: 0 <= j < |front| ==> es[j] == front[j];
    assert es[|front|] == e;
  }

  lemma FirstWins(front: seq<Entry>, e: Entry)
    requires Matchable(e) && forall j :: 0 <= j < |front| ==> !Matchable(front[j])
    ensures Wins(front + [e], |front|)
  {
    var es := front + [e];
    assert forall j :: 0 <= j < |front| ==> es[j] == front[j];
    assert es[|front|] == e;
  }

  lemma {:induction false} BestWins(es: seq<Entry>) returns (i: nat)
    ensures Best(es).None? ==> forall j :: 0 <= j < |es| ==> !Matchable(es[j])
    ensures Best(es).Some? ==> Wins(es, i) && es[i] == Best(es).value
  {
    i := 0;
    if es != [] {
      var front, e := es[..|es| - 1], es[|es| - 1];
      assert es == front + [e];
      i := BestWins(front);
      if Best(front).Some? {
        WinsOneMore(front, e, i);
        if Matchable(e) && e.q > front[i].q { i := |front|; }
      } else if Matchable(e) {
        FirstWins(front, e);
        i := |front|;
      }
    }
  }

  /** For every header: the result is the match of the entry with the highest positive
      q among the matchable ones, the earliest on ties, and the default if there is
      none. */
  lemma PickIsBestMatch(header: string) returns (i: nat)
    ensures var es := ParseAll(SplitCommas(header));
      if exists j :: 0 <= j < |es| && Matchable(es[j])
      then Wins(es, i) && Some(Pick(header)) == Rfc4647Lookup(es[i].tag)
      else Pick(header) == DEFAULT_LOCALE
  {
    var es := ParseAll(SplitCommas(header));
    FirstOfSortedIsBest(es);
    i := BestWins(es);
    if Best(es).Some? { MatchRefinesLookup(es[i].tag); }
  }

  // ----- The function itself -----------------------------------------------------------------

  /** `pickLocale` */
  method PickLocale(acceptLanguage: Option<string>) returns (locale: string)
    ensures locale == if acceptLanguage.Some? then Pick(acceptLanguage.value) else DEFAULT_LOCALE
  {
    if acceptLanguage.None? { return DEFAULT_LOCALE; }
    var header := acceptLanguage.value;
    if Trim(header) == "" {
      BlankHeader(header);
      return DEFAULT_LOCALE;
    }
    var entries: seq<Entry> := [];
    var parts := SplitCommas(header);
    for k := 0 to |parts|
      invariant entries == ParseAll(parts[..k])
    {
      assert parts[..k + 1][..k] == parts[..k];
      var trimmed := Trim(parts[k]);
      if trimmed != "" { entries := entries + [ParseEntry(trimmed)]; }
    }
    assert parts[..|parts|] == parts;
    entries := SortDescending(entries);
    for k := 0 to |entries|
      invariant FirstMatchable(entries) == FirstMatchable(entries[k..])
    {
      var e := entries[k];
      assert entries[k..][0] == e && entries[k..][1..] == entries[k + 1..];
      if e.tag == "" || e.tag == "*" || e.q <= 0.0 { continue; }
      if e.tag in SUPPORTED { return e.tag; }
      var dash := IndexOf(e.tag, '-');
      if 0 < dash < |e.tag| {
        var primary := e.tag[..dash];
        if primary in SUPPORTED { return primary; }
      }
    }
    return DEFAULT_LOCALE;
  }

  predicate Blank(s: string) {
    forall i :: 0 <= i < |s| ==> IsSpace(s[i])
  }

  lemma {:induction false} SkippedBlank(s: string)
    ensures SkipSpaces(s) == "" ==> Blank(s)
    ensures SkipSpaces(s) != "" ==> !IsSpace(SkipSpaces(s)[0])
  {
    if s != "" && IsSpace(s[0]) {
      SkippedBlank(s[1..]);
      if Blank(s[1..]) {
        forall i | 0 <= i < |s| ensures IsSpace(s[i]) { if i > 0 { assert s[i] == s[1..][i - 1]; } }
      }
    }
  }

  lemma {:induction false} EndKeepsStart(s: string)
    requires s != "" && !IsSpace(s[0])
    ensures TrimEnd(s) != ""
  {
    if |s| > 1 && IsSpace(s[|s| - 1]) { EndKeepsStart(s[..|s| - 1]); }
  }

  lemma TrimmedBlank(s: string)
    requires Trim(s) == ""
    ensures Blank(s)
  {
    SkippedBlank(s);
    if SkipSpaces(s) != "" { EndKeepsStart(SkipSpaces(s)); }
  }

  /** A header of white space has one part, which is empty once trimmed. */
  lemma BlankHeader(header: string)
    requires Trim(header) == ""
    ensures Pick(header) == DEFAULT_LOCALE
  {
    TrimmedBlank(header);
    NoCommas(header);
    assert SplitCommas(header) == [header];
    assert ParseAll([header]) == [] by { assert [header][..0] == []; }
  }

  lemma {:induction false} NoCommas(s: string)
    requires forall i :: 0 <= i < |s| ==> s[i] != ','
    ensures SplitCommas(s) == [s]
  {
    if s != "" {
      NoCommas(s[1..]);
      assert [s[0]] + s[1..] == s;
    }
  }
}
