/** anki-search.py: search cards by word or by sentence, turn the card details
    into flat records, and print them as HTML or as plain text. */
module AnkiSearch {
  import opened Common
  import opened Markup

  // ---------------------------------------------------------------------
  // The findCards query
  // ---------------------------------------------------------------------

  const WordPrefix: string := "\"WordSource:"
  const WordSuffix: string := "\" (WordDestination:_* OR SentenceDestination:_* OR WordSourceMorphologyAI:_*)"
  const SentencePrefix: string := "\"SentenceSource:*"
  /** The terms after the quoted one in the sentence query: a populated
      SentenceDestination and a bare `WordSource:` term with no value. */
  const SentenceFilter: string := " SentenceDestination:_* WordSource:"
  const SentenceSuffix: string := "*\"" + SentenceFilter

  /** The ValueError raised for a search type other than "word" and "sentence". */
  datatype SearchError = InvalidSearchType

  /** The query of `search_word_in_decks`: the term between the fixed text of
      its mode, not escaped; an error for any other mode. */
  function BuildQuery(term: string, searchType: string): (r: Result<string, SearchError>)
    ensures r.Err? <==> searchType != "word" && searchType != "sentence"
    ensures searchType == "word" ==> r.Ok? && Framed(r.value, WordPrefix, term, WordSuffix)
    ensures searchType == "sentence" ==> r.Ok? && Framed(r.value, SentencePrefix, term, SentenceSuffix)
  {
    if searchType == "word" then Ok(WordPrefix + term + WordSuffix)
    else if searchType == "sentence" then Ok(SentencePrefix + term + SentenceSuffix)
    else Err(InvalidSearchType)
  }

  /** Recovers the mode and the term from a query: the inverse of BuildQuery. */
  function ParseQuery(q: string): Option<(string, string)> {
    if |q| >= |WordPrefix| + |WordSuffix| && q[..|WordPrefix|] == WordPrefix
      && q[|q| - |WordSuffix|..] == WordSuffix
    then Some(("word", q[|WordPrefix|..|q| - |WordSuffix|]))
    else if |q| >= |SentencePrefix| + |SentenceSuffix| && q[..|SentencePrefix|] == SentencePrefix
      && q[|q| - |SentenceSuffix|..] == SentenceSuffix
    then Some(("sentence", q[|SentencePrefix|..|q| - |SentenceSuffix|]))
    else None
  }

  /** A query determines both its mode and its term: parsing a built query
      gives them back. */
  lemma QueryRoundTrip(term: string, searchType: string)
    requires BuildQuery(term, searchType).Ok?
    ensures ParseQuery(BuildQuery(term, searchType).value) == Some((searchType, term))
  {
    var q := BuildQuery(term, searchType).value;
    if searchType == "sentence" {
      assert q[1] == 'S' && WordPrefix[1] == 'W';
      assert |q| >= |WordPrefix| ==> q[..|WordPrefix|] != WordPrefix by {
        if |q| >= |WordPrefix| {
          assert q[..|WordPrefix|][1] == 'S';
        }
      }
    }
  }

  /** The query of either mode contains the search term verbatim. */
  lemma QueryContainsTerm(term: string, searchType: string)
    requires BuildQuery(term, searchType).Ok?
    ensures IsInfix(term, BuildQuery(term, searchType).value)
  {
    var q := BuildQuery(term, searchType).value;
    var at := if searchType == "word" then |WordPrefix| else |SentencePrefix|;
    assert Window(q, at, |term|) == term;
  }

  /** The findCards payload. */
  function FindCardsPayload(query: string): Payload {
    Payload("findCards", ApiVersion, Query(query))
  }

  /** The cardsInfo payload. */
  function CardsInfoPayload(ids: seq<int>): Payload {
    Payload("cardsInfo", ApiVersion, Cards(ids))
  }

  // ---------------------------------------------------------------------
  // Card records
  // ---------------------------------------------------------------------

  /** A record of the search result: a dictionary with exactly these eight
      keys, each holding text. */
  datatype CardRecord = CardRecord(
    WordSource: string,
    WordSourceIPA: string,
    WordDestination: string,
    SentenceSource: string,
    SentenceDestination: string,
    SentenceDestination2: string,
    WordSourceMorphologyAI: string,
    DeckName: string)

  /** `fields.get(name, {}).get("value", "")` with `fields = card.get("fields", {})`. */
  function RawValue(card: RawCard, name: string): string {
    FieldText(card.fields.GetOr(map[]), name)
  }

  /** `get_field_value`: the raw value, stripped unless HTML output is wanted. */
  function FieldValue(card: RawCard, name: string, html: bool): string {
    var value := RawValue(card, name);
    if html then value else StripHtml(value)
  }

  /** The record for one card: each field is the card's raw value under that
      key, HTML-stripped unless HTML output is wanted; the deck name is never
      stripped and defaults to "". */
  function Normalise(card: RawCard, html: bool): CardRecord {
    CardRecord(
      FieldValue(card, "WordSource", html),
      FieldValue(card, "WordSourceIPA", html),
      FieldValue(card, "WordDestination", html),
      FieldValue(card, "SentenceSource", html),
      FieldValue(card, "SentenceDestination", html),
      FieldValue(card, "SentenceDestination2", html),
      FieldValue(card, "WordSourceMorphologyAI", html),
      card.deckName.GetOr(""))
  }

  /** `_strip_html` applied to every text field of a record, the deck name left alone. */
  function StripRecord(r: CardRecord): CardRecord {
    CardRecord(StripHtml(r.WordSource), StripHtml(r.WordSourceIPA), StripHtml(r.WordDestination),
      StripHtml(r.SentenceSource), StripHtml(r.SentenceDestination),
      StripHtml(r.SentenceDestination2), StripHtml(r.WordSourceMorphologyAI), r.DeckName)
  }

  /** Every text field of the record is collapsed text: no markup-produced
      runs of whitespace, no whitespace at either end. */
  predicate Collapsed(r: CardRecord) {
    && Normalised(r.WordSource) && Normalised(r.WordSourceIPA) && Normalised(r.WordDestination)
    && Normalised(r.SentenceSource) && Normalised(r.SentenceDestination)
    && Normalised(r.SentenceDestination2) && Normalised(r.WordSourceMorphologyAI)
  }

  /** The normalisation of the chosen mode, as a function of the card. */
  function Normaliser(html: bool): RawCard -> CardRecord {
    card => Normalise(card, html)
  }

  /** The records of a card list, one per card, in order. */
  function Records(cards: seq<RawCard>, html: bool): seq<CardRecord> {
    MapSeq(Normaliser(html), cards)
  }

  /** One record per card, the `i`-th record being that of the `i`-th card. */
  lemma RecordsInOrder(cards: seq<RawCard>, html: bool)
    ensures |Records(cards, html)| == |cards|
    ensures forall i :: 0 <= i < |cards| ==> Records(cards, html)[i] == Normalise(cards[i], html)
  {
    MapSeqInOrder(Normaliser(html), cards);
  }

  /** The loop of `search_word_in_decks` that appends one record per card. */
  method NormaliseCards(cards: seq<RawCard>, html: bool) returns (cardData: seq<CardRecord>)
    ensures cardData == Records(cards, html)
  {
    cardData := [];
    for i := 0 to |cards|
      invariant cardData == Records(cards[..i], html)
    {
      assert cards[..i + 1][..i] == cards[..i];
      cardData := cardData + [Normalise(cards[i], html)];
    }
    assert cards[..|cards|] == cards;
  }

  /** A card without a `fields` object (or without any of the fields) and
      without a deck name gives a record of empty strings, in either mode. */
  lemma MissingEverythingIsEmpty(card: RawCard, html: bool)
    requires card.fields.None? || card.fields.value == map[]
    requires card.deckName.None?
    ensures Normalise(card, html) == CardRecord("", "", "", "", "", "", "", "")
  {
    assert SubTags("") == "";
    assert Words("") == [];
  }

  /** A field missing from the card, a field without a "value", or a card
      without `fields` gives "" for that field, in either mode. */
  lemma MissingFieldIsEmpty(card: RawCard, name: string, html: bool)
    requires card.fields.None? || name !in card.fields.value || card.fields.value[name].value.None?
    ensures FieldValue(card, name, html) == ""
  {
    assert SubTags("") == "";
    assert Words("") == [];
  }

  /** The plain-text record is the HTML record with every text field
      stripped and the same deck name; its text fields are collapsed. */
  lemma StrippedRecord(card: RawCard)
    ensures Normalise(card, false) == StripRecord(Normalise(card, true))
    ensures Collapsed(Normalise(card, false))
  {
    StripHtmlNormalised(RawValue(card, "WordSource"));
    StripHtmlNormalised(RawValue(card, "WordSourceIPA"));
    StripHtmlNormalised(RawValue(card, "WordDestination"));
    StripHtmlNormalised(RawValue(card, "SentenceSource"));
    StripHtmlNormalised(RawValue(card, "SentenceDestination"));
    StripHtmlNormalised(RawValue(card, "SentenceDestination2"));
    StripHtmlNormalised(RawValue(card, "WordSourceMorphologyAI"));
  }

  /** Stripping a plain-text record again changes nothing when the seven
      fields it reads hold no line breaks. */
  lemma StripRecordIdempotent(card: RawCard)
    requires '\n' !in RawValue(card, "WordSource") && '\n' !in RawValue(card, "WordSourceIPA")
    requires '\n' !in RawValue(card, "WordDestination") && '\n' !in RawValue(card, "SentenceSource")
    requires '\n' !in RawValue(card, "SentenceDestination")
    requires '\n' !in RawValue(card, "SentenceDestination2")
    requires '\n' !in RawValue(card, "WordSourceMorphologyAI")
    ensures StripRecord(Normalise(card, false)) == Normalise(card, false)
  {
    StripHtmlIdempotent(RawValue(card, "WordSource"));
    StripHtmlIdempotent(RawValue(card, "WordSourceIPA"));
    StripHtmlIdempotent(RawValue(card, "WordDestination"));
    StripHtmlIdempotent(RawValue(card, "SentenceSource"));
    StripHtmlIdempotent(RawValue(card, "SentenceDestination"));
    StripHtmlIdempotent(RawValue(card, "SentenceDestination2"));
    StripHtmlIdempotent(RawValue(card, "WordSourceMorphologyAI"));
  }

  /** The card of the worked example below. */
  const SpanishCard: RawCard :=
    RawCard(Some(map["WordSource" := RawField(Some("run")),
                     "WordDestination" := RawField(Some("<i>correr</i>"))]),
            Some("Spanish"))

  lemma SpanishRawValues()
    ensures RawValue(SpanishCard, "WordSource") == "run"
    ensures RawValue(SpanishCard, "WordDestination") == "<i>correr</i>"
    ensures RawValue(SpanishCard, "WordSourceIPA") == ""
    ensures RawValue(SpanishCard, "SentenceSource") == ""
    ensures RawValue(SpanishCard, "SentenceDestination") == ""
    ensures RawValue(SpanishCard, "SentenceDestination2") == ""
    ensures RawValue(SpanishCard, "WordSourceMorphologyAI") == ""
  {
    var fields := SpanishCard.fields.value;
    assert fields.Keys == {"WordSource", "WordDestination"};
  }

  lemma StripRun()
    ensures StripHtml("run") == "run"
  {
    StripHtmlFixesPlainText("run");
  }

  lemma StripCorrer()
    ensures StripHtml("<i>correr</i>") == "correr"
  {
    assert "<i>correr</i>" == "<" + "i" + ">" + "correr" + "</" + "i" + ">";
    StripWrappedWord("i", "correr");
  }

  lemma StripEmpty()
    ensures StripHtml("") == ""
  {
    assert SubTags("") == "";
    assert Words("") == [];
  }

  /** The worked example: a card with WordSource "run", WordDestination
      "<i>correr</i>" and deck "Spanish" gives, stripped, "run", "correr"
      and "Spanish", every other field empty. */
  lemma SpanishCardExample()
    ensures Normalise(SpanishCard, false) == CardRecord("run", "", "correr", "", "", "", "", "Spanish")
  {
    SpanishRawValues();
    var r := Normalise(SpanishCard, false);
    assert r.WordSource == "run" by {
      StripRun();
    }
    assert r.WordDestination == "correr" by {
      StripCorrer();
    }
    assert r.WordSourceIPA == "" && r.SentenceSource == "" && r.SentenceDestination == ""
      && r.SentenceDestination2 == "" && r.WordSourceMorphologyAI == "" by {
      StripEmpty();
    }
    assert r.DeckName == "Spanish";
  }

  // ---------------------------------------------------------------------
  // Output
  // ---------------------------------------------------------------------

  /** Joins WordDestination onto the WordSource line in HTML output. */
  const HtmlDash: string := " \U{2013} "
  /** Joins WordDestination onto the WordSource line in plain output. */
  const PlainDash: string := " \U{2014} "
  /** Printed between two cards in HTML output. */
  const HtmlSeparator: string := "<br><br>"
  /** Printed between two cards in plain output. */
  const PlainSeparator: string := "\t"

  /** The line that starts a card: WordSource, with WordDestination joined on
      by `dash` when there is one. */
  function SourceLine(card: CardRecord, dash: string): string {
    if card.WordDestination != "" then card.WordSource + dash + card.WordDestination
    else card.WordSource
  }

  /** The display lines of one card: a line for each non-empty field in the
      fixed order WordSource (with WordDestination joined on), IPA in
      brackets, SentenceSource, SentenceDestination, SentenceDestination2,
      WordSourceMorphologyAI, and `deck:` with the deck name. */
  function CardLines(card: CardRecord, dash: string): seq<string> {
    LineIf(card.WordSource, SourceLine(card, dash))
    + LineIf(card.WordSourceIPA, "[" + card.WordSourceIPA + "]")
    + LineIf(card.SentenceSource, card.SentenceSource)
    + LineIf(card.SentenceDestination, card.SentenceDestination)
    + LineIf(card.SentenceDestination2, card.SentenceDestination2)
    + LineIf(card.WordSourceMorphologyAI, card.WordSourceMorphologyAI)
    + LineIf(card.DeckName, "deck:" + card.DeckName)
  }

  /** The number of non-empty shown fields of a card. */
  function ShownCount(card: CardRecord): nat {
    (if card.WordSource != "" then 1 else 0)
    + (if card.WordSourceIPA != "" then 1 else 0)
    + (if card.SentenceSource != "" then 1 else 0)
    + (if card.SentenceDestination != "" then 1 else 0)
    + (if card.SentenceDestination2 != "" then 1 else 0)
    + (if card.WordSourceMorphologyAI != "" then 1 else 0)
    + (if card.DeckName != "" then 1 else 0)
  }

  /** A card prints one line per non-empty shown field, and no line is
      empty; a card whose shown fields are all empty prints nothing. */
  lemma CardLinesCount(card: CardRecord, dash: string)
    ensures |CardLines(card, dash)| == ShownCount(card)
    ensures forall line :: line in CardLines(card, dash) ==> line != ""
    ensures ShownCount(card) == 0 <==> CardLines(card, dash) == []
  {
  }

  /** WordDestination is shown only on the WordSource line: without a
      WordSource the card's lines do not depend on it. */
  lemma DestinationNeedsSource(card: CardRecord, v: string, dash: string)
    requires card.WordSource == ""
    ensures CardLines(card.(WordDestination := v), dash) == CardLines(card, dash)
  {
  }

  /** With a WordSource the first line is WordSource, followed by the dash
      and WordDestination exactly when there is a WordDestination. */
  lemma DestinationJoinsSource(card: CardRecord, dash: string)
    requires card.WordSource != ""
    ensures |CardLines(card, dash)| > 0
    ensures card.WordDestination != "" ==>
      CardLines(card, dash)[0] == card.WordSource + dash + card.WordDestination
    ensures card.WordDestination == "" ==> CardLines(card, dash)[0] == card.WordSource
  {
  }

  /** The block one card prints in HTML mode: its lines joined by `<br>` and a
      line break, printed at once. */
  function HtmlBlock(card: CardRecord): seq<string> {
    [JoinWith(CardLines(card, HtmlDash), "<br>\n")]
  }

  function HtmlBlocks(result: seq<CardRecord>): seq<seq<string>> {
    seq(|result|, i requires 0 <= i < |result| => HtmlBlock(result[i]))
  }

  function PlainBlocks(result: seq<CardRecord>): seq<seq<string>> {
    seq(|result|, i requires 0 <= i < |result| => CardLines(result[i], PlainDash))
  }

  /** The body of both output loops: the lines of one card, gathered one
      field at a time. */
  method CollectLines(card: CardRecord, dash: string) returns (lines: seq<string>)
    ensures lines == CardLines(card, dash)
  {
    lines := [];
    if card.WordSource != "" {
      var line := card.WordSource;
      if card.WordDestination != "" {
        line := card.WordSource + dash + card.WordDestination;
      }
      lines := lines + [line];
    }
    ghost var l1 := lines;
    assert l1 == LineIf(card.WordSource, SourceLine(card, dash));
    if card.WordSourceIPA != "" {
      lines := lines + ["[" + card.WordSourceIPA + "]"];
    }
    ghost var l2 := lines;
    assert l2 == l1 + LineIf(card.WordSourceIPA, "[" + card.WordSourceIPA + "]");
    if card.SentenceSource != "" {
      lines := lines + [card.SentenceSource];
    }
    ghost var l3 := lines;
    assert l3 == l2 + LineIf(card.SentenceSource, card.SentenceSource);
    if card.SentenceDestination != "" {
      lines := lines + [card.SentenceDestination];
    }
    ghost var l4 := lines;
    assert l4 == l3 + LineIf(card.SentenceDestination, card.SentenceDestination);
    if card.SentenceDestination2 != "" {
      lines := lines + [card.SentenceDestination2];
    }
    ghost var l5 := lines;
    assert l5 == l4 + LineIf(card.SentenceDestination2, card.SentenceDestination2);
    if card.WordSourceMorphologyAI != "" {
      lines := lines + [card.WordSourceMorphologyAI];
    }
    ghost var l6 := lines;
    assert l6 == l5 + LineIf(card.WordSourceMorphologyAI, card.WordSourceMorphologyAI);
    if card.DeckName != "" {
      lines := lines + ["deck:" + card.DeckName];
    }
    assert lines == l6 + LineIf(card.DeckName, "deck:" + card.DeckName);
  }

  /** The HTML output loop: each card's lines gathered in `lines`, printed
      joined, and `<br><br>` after every card but the last. */
  method PrintHtml(result: seq<CardRecord>) returns (out: seq<string>)
    ensures out == Interleave(HtmlBlocks(result), HtmlSeparator)
  {
    out := [];
    for i := 0 to |result|
      invariant out == Interleave(HtmlBlocks(result)[..i], HtmlSeparator)
                       + (if 0 < i < |result| then [HtmlSeparator] else [])
    {
      var lines := CollectLines(result[i], HtmlDash);
      InterleavePrefix(HtmlBlocks(result), i, HtmlSeparator);
      assert HtmlBlocks(result)[i] == [JoinWith(lines, "<br>\n")];
      out := out + [JoinWith(lines, "<br>\n")];
      assert out == Interleave(HtmlBlocks(result)[..i + 1], HtmlSeparator);
      if i < |result| - 1 {
        out := out + [HtmlSeparator];
      }
    }
    assert HtmlBlocks(result)[..|result|] == HtmlBlocks(result);
  }

  /** The plain output loop: a line per non-empty field (the WordSource line
      finished with the WordDestination when there is one) and a tab line
      after every card but the last. */
  method PrintPlain(result: seq<CardRecord>) returns (out: seq<string>)
    ensures out == Interleave(PlainBlocks(result), PlainSeparator)
  {
    out := [];
    for i := 0 to |result|
      invariant out == Interleave(PlainBlocks(result)[..i], PlainSeparator)
                       + (if 0 < i < |result| then [PlainSeparator] else [])
    {
      var printed := CollectLines(result[i], PlainDash);
      InterleavePrefix(PlainBlocks(result), i, PlainSeparator);
      assert PlainBlocks(result)[i] == printed;
      out := out + printed;
      assert out == Interleave(PlainBlocks(result)[..i + 1], PlainSeparator);
      if i != |result| - 1 {
        out := out + [PlainSeparator];
      }
    }
    assert PlainBlocks(result)[..|result|] == PlainBlocks(result);
  }

  /** The `__main__` output: nothing for no result or an empty one, else the
      HTML or the plain listing. */
  method Report(result: Option<seq<CardRecord>>, html: bool) returns (out: seq<string>)
    ensures result.None? || result.value == [] ==> out == []
    ensures result.Some? && result.value != [] && html ==>
      out == Interleave(HtmlBlocks(result.value), HtmlSeparator)
    ensures result.Some? && result.value != [] && !html ==>
      out == Interleave(PlainBlocks(result.value), PlainSeparator)
  {
    out := [];
    if result.Some? && result.value != [] {
      if html {
        out := PrintHtml(result.value);
      } else {
        out := PrintPlain(result.value);
      }
    }
  }

  /** A collapsed value is never a lone tab. */
  lemma NormalisedNotTab(t: string)
    requires Normalised(t)
    ensures t != PlainSeparator
  {
    assert PlainSeparator[0] == '\t' && IsSpace('\t');
  }

  /** A card whose text fields are collapsed prints no lone tab line. */
  lemma LinesAvoidTab(r: CardRecord)
    requires Collapsed(r)
    ensures forall line :: line in CardLines(r, PlainDash) ==> line != PlainSeparator
  {
    NormalisedNotTab(r.WordSource);
    NormalisedNotTab(r.SentenceSource);
    NormalisedNotTab(r.SentenceDestination);
    NormalisedNotTab(r.SentenceDestination2);
    NormalisedNotTab(r.WordSourceMorphologyAI);
    var first := SourceLine(r, PlainDash);
    assert first == r.WordSource || |first| > 1;
    assert |"[" + r.WordSourceIPA + "]"| > 1;
    assert |"deck:" + r.DeckName| > 1;
  }

  /** No line of a stripped card is a lone tab. */
  lemma StrippedLinesAvoidTab(card: RawCard)
    ensures forall line :: line in CardLines(Normalise(card, false), PlainDash) ==>
      line != PlainSeparator
  {
    StrippedRecord(card);
    LinesAvoidTab(Normalise(card, false));
  }

  /** In plain mode the tab separator appears exactly once between two cards
      and never after the last: stripped field values cannot be a tab. */
  lemma PlainSeparatorCount(cards: seq<RawCard>)
    requires |cards| > 0
    ensures Occurrences(Interleave(PlainBlocks(Records(cards, false)), PlainSeparator), PlainSeparator)
            == |cards| - 1
  {
    var blocks := PlainBlocks(Records(cards, false));
    RecordsInOrder(cards, false);
    forall k, j | 0 <= k < |blocks| && 0 <= j < |blocks[k]| ensures blocks[k][j] != PlainSeparator {
      StrippedLinesAvoidTab(cards[k]);
      assert blocks[k][j] in blocks[k];
    }
    InterleaveSeparatorCount(blocks, PlainSeparator);
  }

  /** In HTML mode the values are not stripped, so the `<br><br>` separator
      occurs exactly once between two cards only when no card prints
      `<br><br>` itself. */
  lemma HtmlSeparatorCount(result: seq<CardRecord>)
    requires |result| > 0
    requires forall k :: 0 <= k < |result| ==>
      JoinWith(CardLines(result[k], HtmlDash), "<br>\n") != HtmlSeparator
    ensures Occurrences(Interleave(HtmlBlocks(result), HtmlSeparator), HtmlSeparator) == |result| - 1
  {
    var blocks := HtmlBlocks(result);
    forall k, j | 0 <= k < |blocks| && 0 <= j < |blocks[k]| ensures blocks[k][j] != HtmlSeparator {
      assert blocks[k] == [JoinWith(CardLines(result[k], HtmlDash), "<br>\n")];
    }
    InterleaveSeparatorCount(blocks, HtmlSeparator);
  }

  /** A card whose only value is `<br><br>` prints one separator-like line on
      its own. */
  const BreakCard: CardRecord := CardRecord("<br><br>", "", "", "", "", "", "", "")

  /** Without the hypothesis the HTML count fails: a single card, which has
      no card after it, yields one `<br><br>` line instead of none. */
  lemma HtmlSeparatorCounterexample()
    ensures Occurrences(Interleave(HtmlBlocks([BreakCard]), HtmlSeparator), HtmlSeparator) == 1
  {
    assert CardLines(BreakCard, HtmlDash) == [HtmlSeparator];
    assert HtmlBlocks([BreakCard]) == [[HtmlSeparator]];
    assert Interleave([[HtmlSeparator]], HtmlSeparator) == [HtmlSeparator];
  }

  // ---------------------------------------------------------------------
  // The search
  // ---------------------------------------------------------------------

  /** `result.get("result", [])` of the cardsInfo reply: a missing entry
      reads as no cards (a `null` one would not be iterable). */
  function DetailCards(entry: Entry<seq<RawCard>>): seq<RawCard>
    requires !entry.Null?
  {
    if entry.Present? then entry.value else []
  }

  /** `search_word_in_decks` with the two request replies as inputs: an error
      for an unsupported mode before any payload exists; otherwise a findCards
      request, and a cardsInfo request only when it found ids. Failed
      requests and "no cards found" both give None. */
  method SearchWordInDecks(term: string, searchType: string, html: bool,
                           found: Reply<seq<int>>, details: Reply<seq<RawCard>>)
    returns (outcome: Result<Option<seq<CardRecord>>, SearchError>, sent: seq<Payload>)
    requires FoundSome(found) && details.Answered? ==> !details.result.Null?
    ensures BuildQuery(term, searchType).Err? ==> outcome == Err(InvalidSearchType) && sent == []
    ensures BuildQuery(term, searchType).Ok? && !FoundSome(found) ==>
      outcome == Ok(None) && sent == [FindCardsPayload(BuildQuery(term, searchType).value)]
    ensures BuildQuery(term, searchType).Ok? && FoundSome(found) ==>
      && sent == [FindCardsPayload(BuildQuery(term, searchType).value), CardsInfoPayload(found.result.value)]
      && outcome == (if details.Failed? then Ok(None) else Ok(Some(Records(DetailCards(details.result), html))))
  {
    var query := BuildQuery(term, searchType);
    if query.Err? {
      return Err(InvalidSearchType), [];
    }
    sent := [FindCardsPayload(query.value)];
    if found.Failed? {
      return Ok(None), sent;
    }
    var cardIds := found.result;
    if !cardIds.Present? || cardIds.value == [] {
      return Ok(None), sent;
    }
    sent := sent + [CardsInfoPayload(cardIds.value)];
    if details.Failed? {
      return Ok(None), sent;
    }
    var cardData := NormaliseCards(DetailCards(details.result), html);
    outcome := Ok(Some(cardData));
  }
}
