/** anki-search.1.py: search notes by their WordSource, collect the ids of
    their cards, look up each note's deck, and print the notes as plain text. */
module AnkiSearchNotes {
  import opened Common

  // ---------------------------------------------------------------------
  // The findNotes query
  // ---------------------------------------------------------------------

  const NotesPrefix: string := "WordSource:"

  /** The query of `search_word_in_decks`: the field name and the term, with
      no quoting and no filter on other fields. */
  function NotesQuery(term: string): (q: string)
    ensures Framed(q, NotesPrefix, term, "")
  {
    NotesPrefix + term
  }

  /** The query holds no quote that the term does not bring: nothing wraps
      the term, unlike the card queries of the other scripts. */
  lemma NotesQueryUnquoted(term: string)
    requires '"' !in term
    ensures '"' !in NotesQuery(term)
  {
    var q := NotesQuery(term);
    forall i | 0 <= i < |q| ensures q[i] != '"' {
      if i >= |NotesPrefix| {
        assert q[i] == term[i - |NotesPrefix|];
      }
    }
  }

  /** Distinct terms give distinct queries. */
  lemma NotesQueryInjective(a: string, b: string)
    requires NotesQuery(a) == NotesQuery(b)
    ensures a == b
  {
    assert a == NotesQuery(a)[|NotesPrefix|..];
  }

  // ---------------------------------------------------------------------
  // Card ids of notes
  // ---------------------------------------------------------------------

  /** A note object of a notesInfo reply: its id, its `cards` list (which may
      be missing) and its `fields` object. */
  datatype RawNote = RawNote(noteId: int, cards: Option<seq<int>>, fields: map<string, RawField>)

  /** The lists concatenated in order. */
  function Flatten(lists: seq<seq<int>>): seq<int> {
    if lists == [] then [] else Flatten(lists[..|lists| - 1]) + lists[|lists| - 1]
  }

  /** The `cards` list of each note, in note order. */
  function CardLists(notes: seq<RawNote>): (r: seq<seq<int>>)
    ensures |r| == |notes|
    ensures forall k :: 0 <= k < |notes| ==> r[k] == notes[k].cards.GetOr([])
  {
    seq(|notes|, k requires 0 <= k < |notes| => notes[k].cards.GetOr([]))
  }

  /** Every note of the reply has its `cards` entry (indexed directly). */
  predicate AllHaveCards(notes: seq<RawNote>) {
    forall k :: 0 <= k < |notes| ==> notes[k].cards.Some?
  }

  /** `get_card_ids_for_notes` given the notesInfo reply: None when the request
      failed, otherwise the `cards` lists of the notes concatenated in order. */
  method CardIdsForNotes(reply: Reply<seq<RawNote>>) returns (cardIds: Option<seq<int>>)
    requires reply.Answered? ==> reply.result.Present? && AllHaveCards(reply.result.value)
    ensures reply.Failed? ==> cardIds == None
    ensures reply.Answered? ==> cardIds == Some(Flatten(CardLists(reply.result.value)))
  {
    if reply.Failed? {
      return None;
    }
    var notes := reply.result.value;
    var ids: seq<int> := [];
    for k := 0 to |notes|
      invariant ids == Flatten(CardLists(notes[..k]))
    {
      assert CardLists(notes[..k + 1])[..k] == CardLists(notes[..k]);
      ids := ids + notes[k].cards.value;
    }
    assert notes[..|notes|] == notes;
    return Some(ids);
  }

  /** Concatenating two runs of lists concatenates their flattenings. */
  lemma {:induction false} FlattenAppend(a: seq<seq<int>>, b: seq<seq<int>>)
    ensures Flatten(a + b) == Flatten(a) + Flatten(b)
    decreases |b|
  {
    if b == [] {
      assert a + b == a;
    } else {
      var n := |b| - 1;
      var ab := a + b;
      assert ab[..|ab| - 1] == a + b[..n] && ab[|ab| - 1] == b[n];
      assert Flatten(ab) == Flatten(a + b[..n]) + b[n];
      FlattenAppend(a, b[..n]);
      assert Flatten(b) == Flatten(b[..n]) + b[n];
    }
  }

  /** The collected ids are as many as all the lists together. */
  lemma {:induction false} FlattenLength(lists: seq<seq<int>>)
    ensures |Flatten(lists)| == TotalLines(lists)
  {
    if lists != [] {
      FlattenLength(lists[..|lists| - 1]);
    }
  }

  /** An id is collected exactly when some note's list holds it. */
  lemma {:induction false} FlattenMembers(lists: seq<seq<int>>, x: int)
    ensures x in Flatten(lists) <==> exists k :: 0 <= k < |lists| && x in lists[k]
  {
    if lists != [] {
      var n := |lists| - 1;
      var front := lists[..n];
      FlattenMembers(front, x);
      assert Flatten(lists) == Flatten(front) + lists[n];
      assert x in Flatten(lists) <==> x in Flatten(front) || x in lists[n];
      if x in Flatten(front) {
        var k :| 0 <= k < n && x in front[k];
        assert x in lists[k];
      }
      if exists k :: 0 <= k < |lists| && x in lists[k] {
        var k :| 0 <= k < |lists| && x in lists[k];
        if k < n {
          assert x in front[k];
        }
      }
    }
  }

  /** The ids of the notes of a reply: those of the first notes, then those
      of the rest, each note's in its own order. */
  lemma CardIdsSplit(notes: seq<RawNote>, k: nat)
    requires k <= |notes|
    ensures Flatten(CardLists(notes)) == Flatten(CardLists(notes[..k])) + Flatten(CardLists(notes[k..]))
  {
    assert CardLists(notes) == CardLists(notes[..k]) + CardLists(notes[k..]);
    FlattenAppend(CardLists(notes[..k]), CardLists(notes[k..]));
  }

  // ---------------------------------------------------------------------
  // Deck lookup
  // ---------------------------------------------------------------------

  /** A `getDecks` result, in the dictionary's insertion order: each deck
      name with the ids it lists. */
  type DeckMap = seq<(string, seq<int>)>

  /** Deck `k` is the first, in mapping order, whose id list holds `id`. */
  predicate FirstHolder(id: int, decks: DeckMap, k: int) {
    0 <= k < |decks| && id in decks[k].1 && forall j :: 0 <= j < k ==> id !in decks[j].1
  }

  /** `get_deck_name`: the name of the first deck, in mapping order, whose
      id list holds `id`; None when there is none. */
  function DeckName(id: int, decks: DeckMap): (r: Option<string>)
    ensures r.None? <==> forall k :: 0 <= k < |decks| ==> id !in decks[k].1
    ensures r.Some? ==> exists k :: FirstHolder(id, decks, k) && decks[k].0 == r.value
  {
    if decks == [] then None
    else if id in decks[0].1 then Some(decks[0].0)
    else
      var r := DeckName(id, decks[1..]);
      assert forall k :: 1 <= k < |decks| ==> decks[k] == decks[1..][k - 1];
      r
  }

  /** A deck listed first wins over any later deck that lists the same id. */
  lemma DeckNameFirstMatch(id: int, decks: DeckMap, k: nat)
    requires FirstHolder(id, decks, k)
    ensures DeckName(id, decks) == Some(decks[k].0)
  {
    var r := DeckName(id, decks);
    assert r.Some?;
    var k' :| FirstHolder(id, decks, k') && decks[k'].0 == r.value;
    assert k' == k;
  }

  // ---------------------------------------------------------------------
  // Note records
  // ---------------------------------------------------------------------

  /** A record of the search result: a dictionary with exactly these four
      keys, each holding text or None. */
  datatype NoteRecord = NoteRecord(
    WordSource: Option<string>,
    WordDestination: Option<string>,
    SentenceSource: Option<string>,
    DeckName: Option<string>)

  /** `note["fields"].get(name, {}).get("value", None)`. */
  function NoteValue(note: RawNote, name: string): (v: Option<string>)
    ensures name !in note.fields ==> v == None
    ensures name in note.fields ==> v == note.fields[name].value
  {
    if name in note.fields then note.fields[name].value else None
  }

  /** The record of one note, given the deck map fetched for it: the three values
      verbatim (None when missing, never stripped) and the deck looked up
      by the note's id. */
  function NormaliseNote(note: RawNote, decks: DeckMap): NoteRecord {
    NoteRecord(NoteValue(note, "WordSource"), NoteValue(note, "WordDestination"),
      NoteValue(note, "SentenceSource"), DeckName(note.noteId, decks))
  }

  /** The records of a note list; `decksFor` is `get_decks_for_notes`, asked
      with each note's card ids. That function takes note ids: it sends the
      card ids as `notes` to notesInfo and asks `getDecks` about the cards
      of whichever notes have those numbers as ids. */
  function NoteRecords(notes: seq<RawNote>, decksFor: seq<int> -> DeckMap): seq<NoteRecord> {
    seq(|notes|, k requires 0 <= k < |notes| =>
      NormaliseNote(notes[k], decksFor(notes[k].cards.GetOr([]))))
  }

  /** The loop that appends one record per note, calling `decksFor` with the
      note's card ids (none when the note lists no `cards`). */
  method NormaliseNotes(notes: seq<RawNote>, decksFor: seq<int> -> DeckMap)
    returns (noteData: seq<NoteRecord>)
    ensures noteData == NoteRecords(notes, decksFor)
  {
    noteData := [];
    for k := 0 to |notes|
      invariant |noteData| == k
      invariant forall j :: 0 <= j < k ==>
        noteData[j] == NormaliseNote(notes[j], decksFor(notes[j].cards.GetOr([])))
    {
      var note := notes[k];
      var cardIds := note.cards.GetOr([]);
      var decks := decksFor(cardIds);
      noteData := noteData + [NormaliseNote(note, decks)];
    }
  }

  /** One record per note, in order; every value is the note's own, exactly
      as stored, and the deck is the lookup of the note's id in the map that
      `decksFor` gives for the note's card ids. */
  lemma NoteRecordsFaithful(notes: seq<RawNote>, decksFor: seq<int> -> DeckMap, k: nat, name: string)
    requires k < |notes|
    requires name in notes[k].fields && notes[k].fields[name].value.Some?
    ensures |NoteRecords(notes, decksFor)| == |notes|
    ensures name == "WordSource" ==>
      NoteRecords(notes, decksFor)[k].WordSource == Some(notes[k].fields[name].value.value)
    ensures name == "WordDestination" ==>
      NoteRecords(notes, decksFor)[k].WordDestination == Some(notes[k].fields[name].value.value)
    ensures name == "SentenceSource" ==>
      NoteRecords(notes, decksFor)[k].SentenceSource == Some(notes[k].fields[name].value.value)
    ensures NoteRecords(notes, decksFor)[k].DeckName ==
      DeckName(notes[k].noteId, decksFor(notes[k].cards.GetOr([])))
  {
    var value := notes[k].fields[name].value;
    assert value == Some(value.value);
    assert NoteRecords(notes, decksFor)[k] == NormaliseNote(notes[k], decksFor(notes[k].cards.GetOr([])));
  }

  /** A field missing from the note, or a field without a value, gives None
      rather than "". */
  lemma MissingNoteFieldIsNone(note: RawNote, decks: DeckMap)
    requires "WordSource" !in note.fields
    requires "WordDestination" in note.fields && note.fields["WordDestination"].value.None?
    ensures NormaliseNote(note, decks).WordSource == None
    ensures NormaliseNote(note, decks).WordDestination == None
  {
  }

  /** Markup is kept: a value with tags comes back with its tags. */
  lemma NoteValueNotStripped(note: RawNote, decks: DeckMap)
    requires note.fields == map["WordSource" := RawField(Some("<b>cat</b>"))]
    ensures NormaliseNote(note, decks).WordSource == Some("<b>cat</b>")
  {
  }

  /** The deck is looked up by the note's id although `getDecks` lists card
      ids: a note whose id the map does not list gets no deck, even when the
      map lists the note's own card under a deck. */
  lemma NoteIdLookupMissesDeck()
    ensures NormaliseNote(RawNote(1, Some([2]), map[]), [("Spanish", [2])]).DeckName == None
  {
    assert 1 !in [2];
  }

  // ---------------------------------------------------------------------
  // Output
  // ---------------------------------------------------------------------

  /** Printed between two notes. */
  const NoteSeparator: string := "\t"
  /** Printed instead of a listing when the search gave nothing. */
  const NothingFound: string := "Ничего не найдено."

  /** The line a value contributes: itself when it is a non-empty string,
      nothing when it is empty or None. */
  function LineOf(v: Option<string>): seq<string> {
    if Truthy(v) then [v.value] else []
  }

  /** The deck line: `deck:` and the name, when there is a non-empty name. */
  function DeckLine(v: Option<string>): seq<string> {
    if Truthy(v) then ["deck:" + v.value] else []
  }

  /** The lines of one note, in the order deck, WordSource, SentenceSource,
      WordDestination, each only when present and not empty. */
  function NoteLines(note: NoteRecord): seq<string> {
    DeckLine(note.DeckName) + LineOf(note.WordSource)
    + LineOf(note.SentenceSource) + LineOf(note.WordDestination)
  }

  function NoteBlocks(result: seq<NoteRecord>): seq<seq<string>> {
    seq(|result|, k requires 0 <= k < |result| => NoteLines(result[k]))
  }

  /** The lines one note prints, gathered one value at a time. */
  method PrintNote(note: NoteRecord) returns (printed: seq<string>)
    ensures printed == NoteLines(note)
  {
    printed := [];
    if Truthy(note.DeckName) {
      printed := printed + ["deck:" + note.DeckName.value];
    }
    ghost var p1 := printed;
    assert p1 == DeckLine(note.DeckName);
    if Truthy(note.WordSource) {
      printed := printed + [note.WordSource.value];
    }
    ghost var p2 := printed;
    assert p2 == p1 + LineOf(note.WordSource);
    if Truthy(note.SentenceSource) {
      printed := printed + [note.SentenceSource.value];
    }
    ghost var p3 := printed;
    assert p3 == p2 + LineOf(note.SentenceSource);
    if Truthy(note.WordDestination) {
      printed := printed + [note.WordDestination.value];
    }
    assert printed == p3 + LineOf(note.WordDestination);
  }

  /** The `__main__` output: the notes with a tab line between two of them,
      or the not-found message when the result is None or empty. */
  method Report(result: Option<seq<NoteRecord>>) returns (out: seq<string>)
    ensures result.Some? && result.value != [] ==> out == Interleave(NoteBlocks(result.value), NoteSeparator)
    ensures result.None? || result.value == [] ==> out == [NothingFound]
  {
    if result.None? || result.value == [] {
      return [NothingFound];
    }
    var notes := result.value;
    out := [];
    for i := 0 to |notes|
      invariant out == Interleave(NoteBlocks(notes)[..i], NoteSeparator)
                       + (if 0 < i < |notes| then [NoteSeparator] else [])
    {
      var printed := PrintNote(notes[i]);
      InterleavePrefix(NoteBlocks(notes), i, NoteSeparator);
      assert NoteBlocks(notes)[i] == printed;
      out := out + printed;
      assert out == Interleave(NoteBlocks(notes)[..i + 1], NoteSeparator);
      if i != |notes| - 1 {
        out := out + [NoteSeparator];
      }
    }
    assert NoteBlocks(notes)[..|notes|] == NoteBlocks(notes);
  }

  /** A note prints one line per present, non-empty value, none of them empty. */
  lemma NoteLinesShape(note: NoteRecord)
    ensures |NoteLines(note)| ==
      (if Truthy(note.DeckName) then 1 else 0) + (if Truthy(note.WordSource) then 1 else 0)
      + (if Truthy(note.SentenceSource) then 1 else 0) + (if Truthy(note.WordDestination) then 1 else 0)
    ensures forall line :: line in NoteLines(note) ==> line != ""
    ensures Truthy(note.DeckName) ==> NoteLines(note)[0] == "deck:" + note.DeckName.value
  {
  }

  /** Values are printed verbatim, so a tab print can occur inside a note;
      when no value is a lone tab, the listing holds exactly one tab print
      between two notes and none after the last. A value with a line break
      can still print a tab on a line of its own. */
  lemma ReportSeparatorCount(result: seq<NoteRecord>)
    requires |result| > 0
    requires forall k :: 0 <= k < |result| ==>
      result[k].WordSource != Some(NoteSeparator) && result[k].SentenceSource != Some(NoteSeparator)
      && result[k].WordDestination != Some(NoteSeparator)
    ensures Occurrences(Interleave(NoteBlocks(result), NoteSeparator), NoteSeparator) == |result| - 1
  {
    var blocks := NoteBlocks(result);
    forall k, j | 0 <= k < |blocks| && 0 <= j < |blocks[k]| ensures blocks[k][j] != NoteSeparator {
      var note := result[k];
      assert blocks[k][j] in NoteLines(note);
      assert |"deck:" + note.DeckName.GetOr("")| > 1;
    }
    InterleaveSeparatorCount(blocks, NoteSeparator);
  }

  /** A value that is a lone tab is printed as a line equal to the separator,
      so the tab lines no longer mark note boundaries by themselves. */
  lemma TabValueLooksLikeSeparator()
    ensures Occurrences(Interleave(NoteBlocks([NoteRecord(Some("\t"), None, None, None)]), NoteSeparator),
      NoteSeparator) == 1
  {
    var blocks := NoteBlocks([NoteRecord(Some("\t"), None, None, None)]);
    assert blocks[0] == ["\t"];
    assert Interleave(blocks, NoteSeparator) == ["\t"];
  }
}
