# goldendict-anki-search, modelled in Dafny

The repository is a set of small command-line scripts. GoldenDict calls them
to look up a word or a sentence in the Anki collection through the
AnkiConnect HTTP API. Each script does four things:

1. It builds an Anki search query from the term.
2. It asks AnkiConnect for matching cards or notes, then for their details.
3. It flattens each result object into a record with fixed keys, optionally
   stripping HTML markup from the field values.
4. It prints the records as HTML or as plain text, with a separator between
   records.

The model covers three of the scripts:

- `anki-search.py` is the main one. It searches by word or by sentence,
  strips markup and collapses whitespace, and prints HTML or plain text.
  Modules `Markup` (markup.dfy) and `AnkiSearch` (anki_search.dfy) model it.
- `anki-search.1.py` searches notes instead of cards, looks up card ids and
  deck names, and prints Russian messages. Module `AnkiSearchNotes`
  (anki_search_notes.dfy) models it.
- `a/anki-search.3.py` is a sentence-only variant. Its `_strip_html` replaces
  tags by spaces without collapsing whitespace. Module `AnkiSearchSentences`
  (anki_search_sentences.dfy) models it.

`Common` (common.dfy) holds what the scripts share:

- optional values;
- the shape of an HTTP reply: a failure, or a JSON body whose `"result"`
  entry is missing, `null` or a value;
- the request payloads;
- Python's `str.join`;
- the print loop "each record, then the separator unless it was the last
  record", as `Interleave`.

How the model represents the scripts:

- Printing is modelled as the sequence of texts the script prints, one
  element per `print` call. A `print(x, end='')` that is finished by the
  next `print` counts as one element. An element can span several terminal
  lines when the text holds a line break. In HTML mode, one card's
  `"<br>\n".join(lines)` is one element. In the plain mode of
  `anki-search.py` the seven text values are collapsed, so only the
  `deck:` line can hold a line break there: the deck name is never
  stripped.
- The HTTP requests are replaced by their replies, which the driver methods
  take as inputs. The driver methods return the payloads they would have
  sent.
- The `get_decks_for_notes` lookup of `anki-search.1.py` is a function
  parameter.

Choices where the code is more specific than the intent:

- **`_strip_html` of `anki-search.py` is not idempotent in general.** The
  regex `.` does not match a line break, so `"<\n>"` keeps its brackets.
  The collapse then turns it into `"< >"`, which is a tag, so a second pass
  gives `""`. The model proves idempotence only for text without line
  breaks (`Markup.StripHtmlIdempotent`). It also proves the counterexample
  (`Markup.StripHtmlNewlineCounterexample`).
- **`anki-search.1.py` mixes up ids twice.** For each note it passes the
  note's card ids to `get_decks_for_notes`, which expects note ids: it sends
  them as `notes` to notesInfo and asks `getDecks` about the cards of
  whichever notes have those numbers as ids. `get_deck_name` then searches
  the resulting deck map, which lists card ids, for the note's own id. The
  model keeps both: `decksFor` is called with the card ids, and the lookup
  uses the note id (`AnkiSearchNotes.NoteIdLookupMissesDeck`).
- **`a/anki-search.3.py` indexes `card["fields"]` directly.** A card without
  `fields` crashes that script, so the model makes its presence a
  precondition (`AnkiSearchSentences.DetailsReadable`).
- **Other direct indexing is handled the same way.** Each
  `result["result"]` that is indexed directly, and each result that is
  iterated while `null`, is a precondition of the method that reads it.
- **The tag substitution alone is idempotent.** In `a/anki-search.3.py`,
  `re.sub('<.*?>', ' ', s)` without the collapse gives the same text when
  applied twice, for every input (`Markup.SubTagsIdempotent`): a `<` it keeps
  has a line break before every later `>`, and those line breaks survive.
- **Whitespace is concrete.** The whitespace that `str.split()` splits on is
  written out as the set of characters Python treats as whitespace
  (`Markup.IsSpace`).

## Model

| member | source | states |
|---|---|---|
| AnkiSearch.BuildQuery | anki-search.py:20-25 | error exactly for a mode other than "word"/"sentence"; word query is `"WordSource:` + term + `" (WordDestination:_* OR SentenceDestination:_* OR WordSourceMorphologyAI:_*)`, sentence query is `"SentenceSource:*` + term + `*" SentenceDestination:_* WordSource:`, term verbatim |
| AnkiSearch.QueryRoundTrip | anki-search.py:20-23 | the mode and the term can be read back from the query, so distinct inputs give distinct queries |
| AnkiSearch.QueryContainsTerm | anki-search.py:20-23 | the query of either mode contains the term verbatim |
| AnkiSearch.DetailCards | anki-search.py:69 | definition of `result.get("result", [])`, a missing entry read as no cards and a `null` one excluded as not iterable; `SearchWordInDecks` states the records are those of these cards |
| AnkiSearch.SearchWordInDecks | anki-search.py:19-87 | invalid mode: ValueError and no payload; findCards is sent first; no ids (failure, missing/null result, empty list) gives None with only findCards sent; otherwise cardsInfo for exactly those ids and the records of the reply's cards (a missing result gives no cards) |
| AnkiSearch.RawValue | anki-search.py:72-75 | definition of `fields.get(name, {}).get("value", "")` with a missing `fields` read as `{}`; `MissingFieldIsEmpty` and `MissingEverythingIsEmpty` state its defaults |
| AnkiSearch.FieldValue | anki-search.py:72-75 | definition of `get_field_value`: the raw value in HTML mode, `_strip_html` of it otherwise; `StrippedRecord` states the relation |
| AnkiSearch.Normalise | anki-search.py:77-86 | definition of one card's record; `StrippedRecord`, `MissingEverythingIsEmpty` and `SpanishCardExample` state what it holds |
| AnkiSearch.Records | anki-search.py:68-87 | definition of the list of records; `RecordsInOrder` states one record per card, in order |
| AnkiSearch.RecordsInOrder | anki-search.py:68-87 | the list has one record per card, the `i`-th being the `i`-th card's |
| AnkiSearch.NormaliseCards | anki-search.py:68-87 | one record per card, in result order, each the card's normalised record |
| AnkiSearch.MissingFieldIsEmpty | anki-search.py:70-75 | a card without `fields`, a field missing among present ones, or a field entry without `"value"` gives "" for that field, with or without HTML |
| AnkiSearch.MissingEverythingIsEmpty | anki-search.py:68-86 | missing `fields` (or missing fields) and missing `deckName` give "" for all eight keys, with or without HTML |
| AnkiSearch.StrippedRecord | anki-search.py:72-85 | the plain record is the HTML (verbatim) record with `_strip_html` applied to each of the seven text fields, deck name unchanged; every stripped field is collapsed text |
| AnkiSearch.StripRecordIdempotent | anki-search.py:72-95 | when the seven fields a record reads hold no line breaks, stripping the plain record again changes nothing; other fields of the card are unconstrained |
| AnkiSearch.SpanishCardExample | anki-search.py:68-86 | a card with WordSource "run", WordDestination "<i>correr</i>", deck "Spanish" gives the record ("run", "", "correr", "", "", "", "", "Spanish") |
| AnkiSearch.CardLines | anki-search.py:114-132 | definition of a card's display lines; `CardLinesCount`, `DestinationNeedsSource` and `DestinationJoinsSource` state their shape, `CollectLines` is proved equal to it |
| AnkiSearch.CardLinesCount | anki-search.py:114-132 | a card's `lines` list (and so its plain printout) has exactly one line per non-empty shown field, none of them empty, and is empty when all are empty |
| AnkiSearch.DestinationNeedsSource | anki-search.py:114-146 | without WordSource, WordDestination does not affect the output |
| AnkiSearch.DestinationJoinsSource | anki-search.py:114-146 | with WordSource, the first line is WordSource, plus dash and WordDestination exactly when WordDestination is non-empty |
| AnkiSearch.CollectLines | anki-search.py:115-132 | the lines gathered for a card are its display lines in the fixed order WordSource, IPA in brackets, SentenceSource, SentenceDestination, SentenceDestination2, WordSourceMorphologyAI, `deck:` + deck |
| AnkiSearch.PrintHtml | anki-search.py:114-137 | HTML output: each card's lines joined by `<br>\n` as one print, `<br><br>` between two cards and not after the last, dash " – " |
| AnkiSearch.PrintPlain | anki-search.py:140-160 | plain output: each card's lines, WordSource line finished by " — " + WordDestination or by the empty print, a tab line between two cards only |
| AnkiSearch.Report | anki-search.py:111-162 | no or empty result prints nothing; otherwise the HTML or the plain listing as chosen |
| AnkiSearch.StrippedLinesAvoidTab | anki-search.py:139-158 | no print call of a stripped card prints a lone tab |
| AnkiSearch.HtmlBlock | anki-search.py:134 | definition of one card's HTML print, its lines joined by `<br>` and a line break; `PrintHtml` is proved to print these blocks, `HtmlSeparatorCount` counts around them |
| AnkiSearch.HtmlSeparatorCount | anki-search.py:114-137 | when no card's joined lines are `<br><br>` itself, the `<br><br>` separator occurs exactly len−1 times in the HTML output |
| AnkiSearch.HtmlSeparatorCounterexample | anki-search.py:114-137 | HTML values are not stripped: one card whose only value is `<br><br>` prints one separator-like line though no separator follows it |
| AnkiSearch.PlainSeparatorCount | anki-search.py:139-160 | for stripped records exactly len−1 print calls of the plain output print the tab separator |
| Markup.IsSpace | anki-search.py:95 | definition: the characters Python's `str.isspace` accepts, on which `str.split()` splits; the collapse lemmas below use it |
| Markup.WordsFrom | anki-search.py:95 | every piece it yields is a non-empty run of non-whitespace characters |
| Markup.Words | anki-search.py:95 | definition of `s.split()` as `WordsFrom(s, [])`; `CollapseKeepsVisible` and `CollapseFixesNormalised` state what it keeps |
| Markup.Collapse | anki-search.py:95 | definition of `' '.join(s.split())`; its contract is `CollapseNormalised`, `CollapseKeepsVisible`, `CollapseKeepsWords` and `CollapseIdempotent` |
| Markup.StripHtml | anki-search.py:90-95 | definition of the main `_strip_html` as the collapse of the substitution; stated by `StripHtmlNormalised` and `StripHtmlIdempotent` |
| Markup.TagClose | anki-search.py:92-94 | the closing `>` of a `<.*?>` match is the first `>` after the `<` with no line break before it; None exactly when every later `>` has a line break before it |
| Markup.SubTags | anki-search.py:94 | `re.sub('<.*?>', ' ', s)` never lengthens the text, and every character it yields is a space or one of the input's |
| Markup.TagBecomesSpace | anki-search.py:94 | a matched `<…>` span becomes exactly one space and scanning resumes after it |
| Markup.UnclosedKept | anki-search.py:94 | a `<` with no reachable `>` is kept and scanning moves on one character |
| Markup.PlainTextKept | anki-search.py:94 | text before the first `<` is copied unchanged |
| Markup.NoMarkupUnchanged | a/anki-search.3.py:71-75 | text containing no `<` is returned unchanged |
| Markup.SubTagsTagFree | anki-search.py:92-94 | for text without line breaks, no `<…>` span survives the substitution |
| Markup.TagCloseNone | anki-search.py:94 | a `<` at some position opens no tag exactly when every `>` after it has a line break before it |
| Markup.SubTagsKeepsNoCloser | a/anki-search.3.py:71-75 | the substitution never brings a `>` within reach of an earlier unclosed `<`: the line breaks in the way are kept |
| Markup.SubTagsNoTags | a/anki-search.3.py:71-75 | in the output of the substitution no `<` opens a tag, for every input |
| Markup.NoTagsUnchanged | a/anki-search.3.py:71-75 | text in which no `<` opens a tag is returned unchanged |
| Markup.SubTagsIdempotent | a/anki-search.3.py:71-75 | for every text, substituting twice equals substituting once |
| Markup.SubTagsExample | a/anki-search.3.py:71-75 | `"<b>cat</b>"` becomes `" cat "` |
| Markup.CollapseNormalised | anki-search.py:95 | `' '.join(s.split())` has no whitespace at either end, no two whitespace characters in a row, and no whitespace but `' '` |
| Markup.StripHtmlNormalised | anki-search.py:90-95 | the same holds for the main `_strip_html` |
| Markup.CollapseKeepsVisible | anki-search.py:95 | the collapse keeps every non-whitespace character, in order |
| Markup.CollapseFixesNormalised | anki-search.py:95 | collapsed text is a fixed point of the collapse |
| Markup.WordsOfJoin | anki-search.py:95 | splitting words joined by single spaces gives the same words back |
| Markup.CollapseKeepsWords | anki-search.py:93-95 | the collapse keeps the words and their order: whitespace between two words becomes one space, never none |
| Markup.CollapseIdempotent | anki-search.py:95 | collapsing twice equals collapsing once |
| Markup.StripHtmlIdempotent | anki-search.py:90-95 | for text without line breaks, stripping twice equals stripping once |
| Markup.StripHtmlFixesPlainText | anki-search.py:90-95 | collapsed text without `<` is returned unchanged |
| Markup.StripHtmlExample | anki-search.py:90-95 | `_strip_html("<b>cat</b>") == "cat"` |
| Markup.StripWrappedWord | anki-search.py:90-95 | a word wrapped in one open and close tag comes back as the bare word |
| Markup.NewlineStopsTag | anki-search.py:92-95 | `"<\n>"` is stripped to `"< >"`: a line break stops a tag match |
| Markup.StripHtmlNewlineCounterexample | anki-search.py:90-95 | stripping `"<\n>"` twice differs from stripping it once |
| AnkiSearchNotes.NotesQuery | anki-search.1.py:71 | the findNotes query is exactly `WordSource:` + term |
| AnkiSearchNotes.NotesQueryUnquoted | anki-search.1.py:71 | the query adds no quote of its own |
| AnkiSearchNotes.NotesQueryInjective | anki-search.1.py:71 | distinct terms give distinct queries |
| AnkiSearchNotes.CardIdsForNotes | anki-search.1.py:18-29 | a failed request gives None; otherwise the notes' `cards` lists concatenated in note order |
| AnkiSearchNotes.Flatten | anki-search.1.py:23-26 | definition of the `extend` loop's result; `FlattenLength`, `FlattenMembers`, `FlattenAppend` and `CardIdsSplit` state it |
| AnkiSearchNotes.FlattenLength | anki-search.1.py:23-26 | the collected ids are as many as the lengths of all lists together |
| AnkiSearchNotes.FlattenMembers | anki-search.1.py:23-26 | an id is collected exactly when some note lists it |
| AnkiSearchNotes.FlattenAppend | anki-search.1.py:23-26 | collecting over two runs of notes concatenates their ids |
| AnkiSearchNotes.CardIdsSplit | anki-search.1.py:23-26 | the ids of the first notes come before those of the rest |
| AnkiSearchNotes.DeckName | anki-search.1.py:56-60 | None exactly when no deck lists the id; otherwise the name of a deck that lists it with no earlier deck listing it |
| AnkiSearchNotes.DeckNameFirstMatch | anki-search.1.py:57-59 | the first deck, in mapping order, that lists the id is the one returned |
| AnkiSearchNotes.NoteValue | anki-search.1.py:104-106 | a missing field gives None; a present one gives its `value` (None when that is missing) |
| AnkiSearchNotes.NormaliseNote | anki-search.1.py:104-110 | definition of one note's record; `MissingNoteFieldIsNone`, `NoteValueNotStripped` and `NoteIdLookupMissesDeck` state what it holds |
| AnkiSearchNotes.NoteRecords | anki-search.1.py:102-111 | definition of the list of records; `NoteRecordsFaithful` states it field by field |
| AnkiSearchNotes.NormaliseNotes | anki-search.1.py:102-111 | one record per note, in order, with the note's values and the deck looked up by note id in the map `get_decks_for_notes` returns for the note's card ids (no ids when `cards` is missing) |
| AnkiSearchNotes.NoteRecordsFaithful | anki-search.1.py:102-111 | each record holds the note's own values verbatim and the note-id deck lookup, one per note |
| AnkiSearchNotes.MissingNoteFieldIsNone | anki-search.1.py:104-106 | a missing field or value gives None, not "" |
| AnkiSearchNotes.NoteValueNotStripped | anki-search.1.py:104 | markup is kept: `"<b>cat</b>"` comes back as is |
| AnkiSearchNotes.NoteIdLookupMissesDeck | anki-search.1.py:107-109 | example: note 1 with card 2 gets no deck from the map `{"Spanish": [2]}`, which lists its card; `DeckName` states the general case (None exactly when no deck lists the id) |
| AnkiSearchNotes.PrintNote | anki-search.1.py:134-141 | a note prints `deck:` + deck, WordSource, SentenceSource, WordDestination in that order, each only when non-empty |
| AnkiSearchNotes.NoteLines | anki-search.1.py:134-141 | definition of a note's printed lines; `NoteLinesShape` states their shape |
| AnkiSearchNotes.NoteLinesShape | anki-search.1.py:134-141 | one line per present, non-empty value, none empty, the deck line first |
| AnkiSearchNotes.Report | anki-search.1.py:132-145 | None or empty result prints "Ничего не найдено."; otherwise the notes with a tab print between two of them only |
| AnkiSearchNotes.ReportSeparatorCount | anki-search.1.py:132-143 | when no value is a lone tab, exactly len−1 print calls print the tab separator |
| AnkiSearchNotes.TabValueLooksLikeSeparator | anki-search.1.py:136-143 | example: values are not stripped, so one note whose WordSource is a tab and whose other values are None already prints one separator-like line |
| AnkiSearchSentences.SentenceQuery | a/anki-search.3.py:17 | the query is exactly `"SentenceSource:*` + term + `*"` |
| AnkiSearchSentences.SentenceQueryIsPrefix | a/anki-search.3.py:17 | the main script's sentence query is exactly this query followed by ` SentenceDestination:_* WordSource:`: a populated-field filter on SentenceDestination and a bare `WordSource:` term with no value |
| AnkiSearchSentences.SentenceQueryContainsTerm | a/anki-search.3.py:17 | the query contains the term verbatim |
| AnkiSearchSentences.SearchSentences | a/anki-search.3.py:22-69 | no ids (failure, null result, empty list) give None before cardsInfo is built; otherwise cardsInfo for those ids, and the records of the cards or None when that request fails |
| AnkiSearchSentences.StrippedValue | a/anki-search.3.py:49-53 | definition of `_strip_html(fields.get(name, {}).get("value", ""))`; `StrippedValueBounds` and `PlainTextKeptVerbatim` state what it keeps, `MissingFieldIsEmpty` its default |
| AnkiSearchSentences.Normalise | a/anki-search.3.py:48-62 | definition of one card's record; `MissingFieldsEmpty`, `PlainTextKeptVerbatim` and `CollapseGivesMainVariant` state what it holds |
| AnkiSearchSentences.Records | a/anki-search.3.py:46-63 | definition of the record list, one `Normalise` per card in result order; `NormaliseCards` is proved equal to it |
| AnkiSearchSentences.NormaliseCards | a/anki-search.3.py:46-63 | one record per card, in order |
| AnkiSearchSentences.MissingFieldIsEmpty | a/anki-search.3.py:49-53 | a field missing from `fields`, or one without `"value"`, gives `_strip_html("") == ""` |
| AnkiSearchSentences.MissingFieldsEmpty | a/anki-search.3.py:48-54 | an empty `fields` object gives "" for every value, and a missing deck name stays None |
| AnkiSearchSentences.PlainTextKeptVerbatim | a/anki-search.3.py:49-54 | for each of the five fields, a value without `<` is kept unchanged, whitespace included; the deck name is not stripped |
| AnkiSearchSentences.StrippedValueBounds | a/anki-search.3.py:49-53 | a stripped value is no longer than the raw one and shows only spaces and the raw value's characters |
| AnkiSearchSentences.StripVariantsDiffer | a/anki-search.3.py:71-75 | `"<b>cat</b>"` becomes `" cat "` here but `"cat"` in the main script |
| AnkiSearchSentences.CollapseGivesMainVariant | a/anki-search.3.py:49-54 | for each of the five fields, collapsing this script's value gives the main script's plain value; the deck names agree up to None vs "" |
| AnkiSearchSentences.PrintCard | a/anki-search.3.py:89-102 | a card prints WordSource (with " â€“ " + WordDestination), SentenceSource, SentenceDestination, WordSourceMorphologyAI, deck name without prefix, each only when non-empty |
| AnkiSearchSentences.Report | a/anki-search.3.py:87-106 | None or empty result prints "Nothing found."; otherwise the cards with a tab print between two of them only |
| AnkiSearchSentences.CardLines | a/anki-search.3.py:89-102 | definition of a card's printed lines; `DestinationNeedsSource`, `DeckLineLast` and `ReportSeparatorCount` state their shape |
| AnkiSearchSentences.DestinationNeedsSource | a/anki-search.3.py:89-94 | without WordSource, WordDestination does not affect the output |
| AnkiSearchSentences.DeckLineLast | a/anki-search.3.py:101-102 | an empty and a missing deck name both print nothing; a present one is the card's last line |
| AnkiSearchSentences.ReportSeparatorCount | a/anki-search.3.py:87-104 | when no value is a lone tab, exactly len−1 print calls print the tab separator |
| Common.Interleave | anki-search.py:114-160 | definition of the output loops "each record's block, then the separator unless it is the last record", shared by the three formatters; `InterleaveSeparatorCount`, `InterleaveLength` and `InterleaveEndsWithLast` state it, and `PrintHtml`, `PrintPlain` and the `Report` methods of the `.1` and `.3` scripts are proved equal to it |
| Common.JoinWith | anki-search.py:134 | definition of `sep.join(parts)`, used for `"<br>\n".join(lines)` and `' '.join(...)`; `WordsOfJoin` and `CollapseNormalised` state what joining words gives |
| Common.FieldText | a/anki-search.3.py:49-53 | definition of `fields.get(name, {}).get("value", "")`; `MissingFieldIsEmpty` in both card scripts states its default |
| Common.InterleaveSeparatorCount | anki-search.py:136-137 | a separator printed after every record but the last occurs len−1 times when no record line equals it |
| Common.InterleaveLength | anki-search.py:139-160 | the loop prints the lines of all records plus exactly len−1 separator lines |
| Common.InterleaveEndsWithLast | anki-search.py:159-160 | the output ends with the last record's lines, not with a separator |

## Left out

- The HTTP requests are left out. That covers `requests.post`,
  `raise_for_status`, `response.json()` and the status checks: each reply is
  an input, either `Failed` or a JSON body.
- The error messages printed when a request fails are left out. Only the
  None that follows is modelled.
- Command-line parsing with argparse is left out. The term, the mode and the
  `--html` flag are parameters.
- `get_decks_for_notes` of `anki-search.1.py` wraps a network call. The note
  normaliser takes its result as the function parameter `decksFor`.
- AnkiSearchNotes.NormaliseNotes: does not model the case where
  `get_decks_for_notes` fails. It returns None, and `get_deck_name` then
  crashes on `None.items()`.
- The driver `search_word_in_decks` of `anki-search.1.py` is left out,
  with its request payloads. It sends findNotes; then, through
  `get_decks_for_notes`, a notesInfo and a getDecks; then notesInfo for the
  notes; then a notesInfo and a getDecks for every note. Its parts are
  modelled: the query, the card-id loop, the note loop, the deck lookup and
  the formatter.
- A transport error in `anki-search.1.py` and `a/anki-search.3.py` is not
  modelled. There `requests.post` is outside any `try`, so the error ends
  the script; a `Failed` reply stands only for a status other than 200. In
  `anki-search.py` a `Failed` reply is a caught `RequestException`, which
  covers transport errors and 4xx or 5xx statuses.
- The general Python regex engine is not modelled. Only the one pattern
  `<.*?>` with `re.sub` is.
- JSON `null` where a dictionary or a string is expected is not modelled:
  a `null` `fields` object, a `null` field value, or a `null` deck name. A
  missing entry and its default are modelled.
- Printing itself is left out. Output is the sequence of print calls, not
  the terminal lines they produce.
- AnkiSearchNotes.ReportSeparatorCount: counts tab print calls, not tab
  lines on the terminal. The values are printed verbatim, so a value such as
  `"x\n\t"` still prints a line with only a tab.
- AnkiSearchSentences.ReportSeparatorCount: counts tab print calls, not tab
  lines. The values are not collapsed, so a value such as `"x\n\t"` still
  prints a line with only a tab.
- AnkiSearch.PlainSeparatorCount: counts tab print calls, not tab lines.
  The deck name is not stripped, so a deck name such as `"x\n\t"` prints
  `deck:x` and then a line with only a tab.
- AnkiSearch.StrippedLinesAvoidTab: says that no print call is a lone tab,
  not that no terminal line is. A deck name such as `"x\n\t"` still prints a
  line with only a tab.
- Terminal encoding is not modelled, and the " â€“ " of `a/anki-search.3.py`
  is kept as the characters written in the source.
