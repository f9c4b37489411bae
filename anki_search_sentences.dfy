/** a/anki-search.3.py: search cards whose SentenceSource holds the term,
    replace their markup by spaces without collapsing whitespace, and print
    them as plain text. */
module AnkiSearchSentences {
  import opened Common
  import opened Markup
  import AnkiSearch

  // ---------------------------------------------------------------------
  // The findCards query
  // ---------------------------------------------------------------------

  const QueryPrefix: string := "\"SentenceSource:*"
  const QuerySuffix: string := "*\""

  /** The query: the term between `"SentenceSource:*` and `*"`, not escaped,
      with no filter on other fields. */
  function SentenceQuery(term: string): (q: string)
    ensures Framed(q, QueryPrefix, term, QuerySuffix)
  {
    QueryPrefix + term + QuerySuffix
  }

  /** The query is the sentence query of anki-search.py without the terms
      that follow the quoted one: that query extends this one by
      `AnkiSearch.SentenceFilter`. */
  lemma SentenceQueryIsPrefix(term: string)
    ensures var full := AnkiSearch.BuildQuery(term, "sentence").value;
      full == SentenceQuery(term) + AnkiSearch.SentenceFilter
      && |SentenceQuery(term)| <= |full| && full[..|SentenceQuery(term)|] == SentenceQuery(term)
  {
    var full := AnkiSearch.BuildQuery(term, "sentence").value;
    var q := SentenceQuery(term);
    assert AnkiSearch.SentencePrefix == QueryPrefix;
    assert AnkiSearch.SentenceSuffix == QuerySuffix + AnkiSearch.SentenceFilter;
    assert full == QueryPrefix + term + (QuerySuffix + AnkiSearch.SentenceFilter);
    assert full == q + AnkiSearch.SentenceFilter;
    assert full[..|q|] == q;
  }

  /** The query contains the search term verbatim. */
  lemma SentenceQueryContainsTerm(term: string)
    ensures IsInfix(term, SentenceQuery(term))
  {
    assert Window(SentenceQuery(term), |QueryPrefix|, |term|) == term;
  }

  // ---------------------------------------------------------------------
  // Card records
  // ---------------------------------------------------------------------

  /** A record of the search result: a dictionary with exactly these six
      keys; the deck name may be None. */
  datatype SentenceRecord = SentenceRecord(
    WordSource: string,
    WordDestination: string,
    SentenceSource: string,
    SentenceDestination: string,
    WordSourceMorphologyAI: string,
    DeckName: Option<string>)

  /** `_strip_html(fields.get(name, {}).get("value", ""))`: the tags of the
      value replaced by single spaces, nothing collapsed. */
  function StrippedValue(fields: map<string, RawField>, name: string): string {
    SubTags(FieldText(fields, name))
  }

  /** The record of one card whose `fields` object is present. */
  function Normalise(card: RawCard): SentenceRecord
    requires card.fields.Some?
  {
    var fields := card.fields.value;
    SentenceRecord(StrippedValue(fields, "WordSource"), StrippedValue(fields, "WordDestination"),
      StrippedValue(fields, "SentenceSource"), StrippedValue(fields, "SentenceDestination"),
      StrippedValue(fields, "WordSourceMorphologyAI"), card.deckName)
  }

  /** Every card has its `fields` object (indexed directly). */
  predicate AllHaveFields(cards: seq<RawCard>) {
    forall k :: 0 <= k < |cards| ==> cards[k].fields.Some?
  }

  /** The records of a card list, one per card, in order. */
  function Records(cards: seq<RawCard>): seq<SentenceRecord>
    requires AllHaveFields(cards)
  {
    seq(|cards|, k requires 0 <= k < |cards| => Normalise(cards[k]))
  }

  /** The loop that appends one record per card. */
  method NormaliseCards(cards: seq<RawCard>) returns (cardData: seq<SentenceRecord>)
    requires AllHaveFields(cards)
    ensures cardData == Records(cards)
  {
    cardData := [];
    for k := 0 to |cards|
      invariant |cardData| == k
      invariant forall j :: 0 <= j < k ==> cardData[j] == Normalise(cards[j])
    {
      cardData := cardData + [Normalise(cards[k])];
    }
  }

  /** A card whose `fields` object is empty and which has no deck name gives
      "" for every value and None for the deck. */
  lemma MissingFieldsEmpty(card: RawCard)
    requires card.fields == Some(map[]) && card.deckName.None?
    ensures Normalise(card) == SentenceRecord("", "", "", "", "", None)
  {
    assert SubTags("") == "";
  }

  /** A field missing from `fields`, or one without a "value", gives ""
      (the substitution of the empty string). */
  lemma MissingFieldIsEmpty(card: RawCard, name: string)
    requires card.fields.Some?
    requires name !in card.fields.value || card.fields.value[name].value.None?
    ensures StrippedValue(card.fields.value, name) == ""
  {
    assert SubTags("") == "";
  }

  /** A value without `<` comes back unchanged, whichever of the five fields
      it is: whitespace is not collapsed. The deck name is taken as it is. */
  lemma PlainTextKeptVerbatim(card: RawCard)
    requires card.fields.Some?
    ensures var f := card.fields.value;
      '<' !in FieldText(f, "WordSource") ==> Normalise(card).WordSource == FieldText(f, "WordSource")
    ensures var f := card.fields.value;
      '<' !in FieldText(f, "WordDestination") ==>
        Normalise(card).WordDestination == FieldText(f, "WordDestination")
    ensures var f := card.fields.value;
      '<' !in FieldText(f, "SentenceSource") ==>
        Normalise(card).SentenceSource == FieldText(f, "SentenceSource")
    ensures var f := card.fields.value;
      '<' !in FieldText(f, "SentenceDestination") ==>
        Normalise(card).SentenceDestination == FieldText(f, "SentenceDestination")
    ensures var f := card.fields.value;
      '<' !in FieldText(f, "WordSourceMorphologyAI") ==>
        Normalise(card).WordSourceMorphologyAI == FieldText(f, "WordSourceMorphologyAI")
    ensures Normalise(card).DeckName == card.deckName
  {
    var f := card.fields.value;
    if '<' !in FieldText(f, "WordSource") {
      NoMarkupUnchanged(FieldText(f, "WordSource"));
    }
    if '<' !in FieldText(f, "WordDestination") {
      NoMarkupUnchanged(FieldText(f, "WordDestination"));
    }
    if '<' !in FieldText(f, "SentenceSource") {
      NoMarkupUnchanged(FieldText(f, "SentenceSource"));
    }
    if '<' !in FieldText(f, "SentenceDestination") {
      NoMarkupUnchanged(FieldText(f, "SentenceDestination"));
    }
    if '<' !in FieldText(f, "WordSourceMorphologyAI") {
      NoMarkupUnchanged(FieldText(f, "WordSourceMorphologyAI"));
    }
  }

  /** Each value keeps its length or shrinks, and every character it shows
      is a space or one of the raw value's own. */
  lemma StrippedValueBounds(card: RawCard, name: string)
    requires card.fields.Some?
    ensures var v := StrippedValue(card.fields.value, name);
      var raw := FieldText(card.fields.value, name);
      |v| <= |raw| && forall i :: 0 <= i < |v| ==> v[i] == ' ' || v[i] in raw
  {
  }

  /** The two scripts strip differently: here a tag leaves its space behind,
      while anki-search.py also collapses the whitespace. */
  lemma StripVariantsDiffer()
    ensures SubTags("<b>cat</b>") == " cat "
    ensures StripHtml("<b>cat</b>") == "cat"
  {
    SubTagsExample();
    StripHtmlExample();
  }

  /** Collapsing the whitespace of this script's value gives the plain-text
      value of anki-search.py for the same card. */
  lemma CollapseGivesMainVariant(card: RawCard)
    requires card.fields.Some?
    ensures Collapse(Normalise(card).WordSource) == AnkiSearch.Normalise(card, false).WordSource
    ensures Collapse(Normalise(card).WordDestination) == AnkiSearch.Normalise(card, false).WordDestination
    ensures Collapse(Normalise(card).SentenceSource) == AnkiSearch.Normalise(card, false).SentenceSource
    ensures Collapse(Normalise(card).SentenceDestination)
      == AnkiSearch.Normalise(card, false).SentenceDestination
    ensures Collapse(Normalise(card).WordSourceMorphologyAI)
      == AnkiSearch.Normalise(card, false).WordSourceMorphologyAI
    ensures Normalise(card).DeckName.GetOr("") == AnkiSearch.Normalise(card, false).DeckName
  {
  }

  // ---------------------------------------------------------------------
  // The search
  // ---------------------------------------------------------------------

  /** The findCards payload. */
  function FindCardsPayload(term: string): Payload {
    Payload("findCards", ApiVersion, Query(SentenceQuery(term)))
  }

  /** What the script demands of the cardsInfo reply it goes on to read:
      a result entry whose every card has its `fields`. */
  predicate DetailsReadable(details: Reply<seq<RawCard>>) {
    details.Answered? ==> details.result.Present? && AllHaveFields(details.result.value)
  }

  /** `search_word_in_decks` with the two replies as inputs: no ids (a failed
      request, a null result or an empty list) give None before any cardsInfo
      request is built; otherwise the records of the cards, or None when the
      second request fails. */
  method SearchSentences(term: string, found: Reply<seq<int>>, details: Reply<seq<RawCard>>)
    returns (outcome: Option<seq<SentenceRecord>>, sent: seq<Payload>)
    requires found.Answered? ==> !found.result.Absent?
    requires FoundSome(found) ==> DetailsReadable(details)
    ensures !FoundSome(found) ==> outcome == None && sent == [FindCardsPayload(term)]
    ensures FoundSome(found) ==>
      sent == [FindCardsPayload(term), AnkiSearch.CardsInfoPayload(found.result.value)]
    ensures FoundSome(found) && details.Failed? ==> outcome == None
    ensures FoundSome(found) && details.Answered? ==> outcome == Some(Records(details.result.value))
  {
    sent := [FindCardsPayload(term)];
    if found.Failed? {
      return None, sent;
    }
    var cardIds := found.result;
    if !cardIds.Present? || cardIds.value == [] {
      return None, sent;
    }
    sent := sent + [AnkiSearch.CardsInfoPayload(cardIds.value)];
    if details.Failed? {
      return None, sent;
    }
    var cardData := NormaliseCards(details.result.value);
    outcome := Some(cardData);
  }

  // ---------------------------------------------------------------------
  // Output
  // ---------------------------------------------------------------------

  /** Joins WordDestination onto the WordSource line: an en dash written out
      in UTF-8 and read back as cp1252, " â€“ ". */
  const Dash: string := " \U{00E2}\U{20AC}\U{201C} "
  /** Printed between two cards. */
  const CardSeparator: string := "\t"
  /** Printed instead of a listing when the search gave nothing. */
  const NothingFound: string := "Nothing found."

  /** The first line of a card: WordSource, with the dash and WordDestination
      when there is one. */
  function SourceLine(card: SentenceRecord): string {
    if card.WordDestination != "" then card.WordSource + Dash + card.WordDestination
    else card.WordSource
  }

  /** The deck line: the name as it is, without prefix, when there is one. */
  function DeckLine(v: Option<string>): seq<string> {
    if Truthy(v) then [v.value] else []
  }

  /** The lines of one card, in the order WordSource (with WordDestination),
      SentenceSource, SentenceDestination, WordSourceMorphologyAI, deck name,
      each only when not empty. */
  function CardLines(card: SentenceRecord): seq<string> {
    LineIf(card.WordSource, SourceLine(card))
    + LineIf(card.SentenceSource, card.SentenceSource)
    + LineIf(card.SentenceDestination, card.SentenceDestination)
    + LineIf(card.WordSourceMorphologyAI, card.WordSourceMorphologyAI)
    + DeckLine(card.DeckName)
  }

  function Blocks(result: seq<SentenceRecord>): seq<seq<string>> {
    seq(|result|, k requires 0 <= k < |result| => CardLines(result[k]))
  }

  /** The lines one card prints; the WordSource line is finished by the
      WordDestination print or by an empty print. */
  method PrintCard(card: SentenceRecord) returns (printed: seq<string>)
    ensures printed == CardLines(card)
  {
    printed := [];
    if card.WordSource != "" {
      if card.WordDestination != "" {
        printed := printed + [card.WordSource + Dash + card.WordDestination];
      } else {
        printed := printed + [card.WordSource];
      }
    }
    ghost var p1 := printed;
    assert p1 == LineIf(card.WordSource, SourceLine(card));
    if card.SentenceSource != "" {
      printed := printed + [card.SentenceSource];
    }
    ghost var p2 := printed;
    assert p2 == p1 + LineIf(card.SentenceSource, card.SentenceSource);
    if card.SentenceDestination != "" {
      printed := printed + [card.SentenceDestination];
    }
    ghost var p3 := printed;
    assert p3 == p2 + LineIf(card.SentenceDestination, card.SentenceDestination);
    if card.WordSourceMorphologyAI != "" {
      printed := printed + [card.WordSourceMorphologyAI];
    }
    ghost var p4 := printed;
    assert p4 == p3 + LineIf(card.WordSourceMorphologyAI, card.WordSourceMorphologyAI);
    if Truthy(card.DeckName) {
      printed := printed + [card.DeckName.value];
    }
    assert printed == p4 + DeckLine(card.DeckName);
  }

  /** The `__main__` output: the cards with a tab line between two of them,
      or the not-found message when the result is None or empty. */
  method Report(result: Option<seq<SentenceRecord>>) returns (out: seq<string>)
    ensures result.Some? && result.value != [] ==> out == Interleave(Blocks(result.value), CardSeparator)
    ensures result.None? || result.value == [] ==> out == [NothingFound]
  {
    if result.None? || result.value == [] {
      return [NothingFound];
    }
    var cards := result.value;
    out := [];
    for i := 0 to |cards|
      invariant out == Interleave(Blocks(cards)[..i], CardSeparator)
                       + (if 0 < i < |cards| then [CardSeparator] else [])
    {
      var printed := PrintCard(cards[i]);
      InterleavePrefix(Blocks(cards), i, CardSeparator);
      assert Blocks(cards)[i] == CardLines(cards[i]);
      out := out + printed;
      assert out == Interleave(Blocks(cards)[..i + 1], CardSeparator);
      if i != |cards| - 1 {
        out := out + [CardSeparator];
      }
    }
    assert Blocks(cards)[..|cards|] == Blocks(cards);
  }

  /** WordDestination is shown only on the WordSource line: without a
      WordSource the card's lines do not depend on it. */
  lemma DestinationNeedsSource(card: SentenceRecord, v: string)
    requires card.WordSource == ""
    ensures CardLines(card.(WordDestination := v)) == CardLines(card)
  {
  }

  /** An empty and a missing deck name both print no deck line; a present
      one is printed last, as it is. */
  lemma DeckLineLast(card: SentenceRecord)
    ensures card.DeckName == Some("") ==> CardLines(card) == CardLines(card.(DeckName := None))
    ensures Truthy(card.DeckName) ==>
      |CardLines(card)| > 0 && CardLines(card)[|CardLines(card)| - 1] == card.DeckName.value
  {
  }

  /** Markup is replaced but not collapsed, so a value can be a lone tab
      only when its raw value was one; when no value is a lone tab the
      listing holds exactly one tab print between two cards. A value with
      a line break can still print a tab on a line of its own. */
  lemma ReportSeparatorCount(result: seq<SentenceRecord>)
    requires |result| > 0
    requires forall k :: 0 <= k < |result| ==>
      result[k].WordSource != CardSeparator && result[k].SentenceSource != CardSeparator
      && result[k].SentenceDestination != CardSeparator
      && result[k].WordSourceMorphologyAI != CardSeparator && result[k].DeckName != Some(CardSeparator)
    ensures Occurrences(Interleave(Blocks(result), CardSeparator), CardSeparator) == |result| - 1
  {
    var blocks := Blocks(result);
    forall k, j | 0 <= k < |blocks| && 0 <= j < |blocks[k]| ensures blocks[k][j] != CardSeparator {
      var card := result[k];
      assert blocks[k][j] in CardLines(card);
      assert SourceLine(card) == card.WordSource || |SourceLine(card)| > 1;
    }
    InterleaveSeparatorCount(blocks, CardSeparator);
  }
}
