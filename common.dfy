/** Values shared by the three search scripts: optional values, replies and
    payloads of the automation API, and the string and line helpers the
    scripts build their output with. */
module Common {

  /** Python's `None` or a value. */
  datatype Option<T> = None | Some(value: T) {
    function GetOr(default: T): T {
      if Some? then value else default
    }
  }

  /** A search either fails with an error the script raises, or succeeds. */
  datatype Result<T, E> = Ok(value: T) | Err(error: E)

  /** The "result" entry of a JSON reply body: missing, `null`, or a value. */
  datatype Entry<T> = Absent | Null | Present(value: T)

  /** What came back from one HTTP request: the branch a script takes when the
      request fails, or a JSON body with its "result" entry. In anki-search.py
      a failure is a `RequestException`: a transport error, or a 4xx or 5xx
      status through `raise_for_status`. In anki-search.1.py and
      a/anki-search.3.py it is a status other than 200; a transport error
      there escapes `requests.post` uncaught. */
  datatype Reply<T> = Failed | Answered(result: Entry<T>)

  /** A findCards reply that names at least one card: what both card searches
      need before they ask for card details (`if not card_ids`). */
  predicate FoundSome(found: Reply<seq<int>>) {
    found.Answered? && found.result.Present? && found.result.value != []
  }

  /** The `params` object of a request payload. */
  datatype Params = Query(query: string) | Cards(cards: seq<int>)

  /** A request payload `{"action": .., "version": .., "params": ..}`. */
  datatype Payload = Payload(action: string, version: int, params: Params)

  /** The protocol version every payload carries. */
  const ApiVersion: int := 6

  /** One entry of a card's or note's `fields` object: `{"value": ..}`, whose
      "value" may be missing. */
  datatype RawField = RawField(value: Option<string>)

  /** A card object of a cardsInfo reply: its `fields` object and its
      `deckName`, each of which may be missing. */
  datatype RawCard = RawCard(fields: Option<map<string, RawField>>, deckName: Option<string>)

  /** `fields.get(name, {}).get("value", "")`. */
  function FieldText(fields: map<string, RawField>, name: string): string {
    if name in fields then fields[name].value.GetOr("") else ""
  }

  /** Python truthiness of a value that is a string or None. */
  predicate Truthy(v: Option<string>) {
    v.Some? && v.value != ""
  }

  /** The `n` characters of `s` starting at `i`. */
  function Window(s: string, i: nat, n: nat): string
    requires i + n <= |s|
  {
    s[i..i + n]
  }

  /** `t` occurs in `s` as a contiguous substring (Python's `t in s`). */
  predicate IsInfix(t: string, s: string) {
    exists i: nat :: i + |t| <= |s| && Window(s, i, |t|) == t
  }

  /** `q` is `prefix`, then `term` character for character, then `suffix`. */
  predicate Framed(q: string, prefix: string, term: string, suffix: string) {
    && |q| == |prefix| + |term| + |suffix|
    && q[..|prefix|] == prefix
    && q[|prefix|..|prefix| + |term|] == term
    && q[|prefix| + |term|..] == suffix
  }

  /** The line a field contributes: `line` when the field's value is not
      empty, nothing otherwise. */
  function LineIf(value: string, line: string): seq<string> {
    if value != "" then [line] else []
  }

  /** `[f(x) for x in s]`: what a loop appending `f(x)` for each `x` builds. */
  function MapSeq<A, B>(f: A -> B, s: seq<A>): seq<B> {
    if s == [] then [] else MapSeq(f, s[..|s| - 1]) + [f(s[|s| - 1])]
  }

  /** One result per element, the `i`-th being `f` of the `i`-th element. */
  lemma {:induction false} MapSeqInOrder<A, B>(f: A -> B, s: seq<A>)
    ensures |MapSeq(f, s)| == |s|
    ensures forall i :: 0 <= i < |s| ==> MapSeq(f, s)[i] == f(s[i])
  {
    if s != [] {
      var n := |s| - 1;
      MapSeqInOrder(f, s[..n]);
      assert forall i :: 0 <= i < n ==> s[..n][i] == s[i];
    }
  }

  /** `sep.join(parts)`. */
  function JoinWith(parts: seq<string>, sep: string): string {
    if |parts| == 0 then ""
    else if |parts| == 1 then parts[0]
    else parts[0] + sep + JoinWith(parts[1..], sep)
  }

  /** The lines printed by a loop over `blocks` that prints each block and then
      the separator line `sep` unless the block is the last one. */
  function Interleave(blocks: seq<seq<string>>, sep: string): seq<string> {
    if |blocks| == 0 then []
    else if |blocks| == 1 then blocks[0]
    else Interleave(blocks[..|blocks| - 1], sep) + [sep] + blocks[|blocks| - 1]
  }

  /** How many of the lines `s` are exactly `x`. */
  function Occurrences(s: seq<string>, x: string): nat {
    if |s| == 0 then 0
    else (if s[0] == x then 1 else 0) + Occurrences(s[1..], x)
  }

  /** The number of elements in all the sequences together: the lines of
      all blocks, or the ids of all lists. */
  function TotalLines<T>(blocks: seq<seq<T>>): nat {
    if |blocks| == 0 then 0
    else TotalLines(blocks[..|blocks| - 1]) + |blocks[|blocks| - 1]|
  }

  /** No line of any block is the separator itself. */
  predicate SeparatorFree(blocks: seq<seq<string>>, sep: string) {
    forall k, j :: 0 <= k < |blocks| && 0 <= j < |blocks[k]| ==> blocks[k][j] != sep
  }

  lemma {:induction false} OccurrencesAppend(a: seq<string>, b: seq<string>, x: string)
    ensures Occurrences(a + b, x) == Occurrences(a, x) + Occurrences(b, x)
  {
    if |a| == 0 {
      assert a + b == b;
    } else {
      assert (a + b)[1..] == a[1..] + b;
      OccurrencesAppend(a[1..], b, x);
    }
  }

  lemma {:induction false} OccurrencesAbsent(s: seq<string>, x: string)
    requires forall j :: 0 <= j < |s| ==> s[j] != x
    ensures Occurrences(s, x) == 0
  {
    if |s| > 0 {
      OccurrencesAbsent(s[1..], x);
    }
  }

  /** The separator is printed exactly once between consecutive blocks, and
      never after the last one: when no block line equals it, it occurs
      `|blocks| - 1` times. */
  lemma {:induction false} InterleaveSeparatorCount(blocks: seq<seq<string>>, sep: string)
    requires |blocks| > 0
    requires SeparatorFree(blocks, sep)
    ensures Occurrences(Interleave(blocks, sep), sep) == |blocks| - 1
  {
    var n := |blocks|;
    OccurrencesAbsent(blocks[n - 1], sep);
    if n > 1 {
      var front := blocks[..n - 1];
      assert SeparatorFree(front, sep) by {
        forall k, j | 0 <= k < |front| && 0 <= j < |front[k]| ensures front[k][j] != sep {
          assert front[k] == blocks[k];
        }
      }
      InterleaveSeparatorCount(front, sep);
      OccurrencesAppend(Interleave(front, sep), [sep], sep);
      OccurrencesAppend(Interleave(front, sep) + [sep], blocks[n - 1], sep);
    }
  }

  /** Every block line is printed once, plus one separator between blocks. */
  lemma {:induction false} InterleaveLength(blocks: seq<seq<string>>, sep: string)
    requires |blocks| > 0
    ensures |Interleave(blocks, sep)| == TotalLines(blocks) + |blocks| - 1
  {
    if |blocks| > 1 {
      InterleaveLength(blocks[..|blocks| - 1], sep);
    } else {
      assert blocks[..0] == [];
    }
  }

  /** The output ends with the last block: nothing, not even a separator,
      follows the last record's lines. */
  lemma InterleaveEndsWithLast(blocks: seq<seq<string>>, sep: string)
    requires |blocks| > 0
    ensures var out := Interleave(blocks, sep);
      var last := blocks[|blocks| - 1];
      |last| <= |out| && out[|out| - |last|..] == last
  {
  }

  /** The helper the output loops use: one more block appended to the output
      of the blocks before it. */
  lemma InterleaveSnoc(blocks: seq<seq<string>>, b: seq<string>, sep: string)
    ensures Interleave(blocks + [b], sep) ==
      if |blocks| == 0 then b else Interleave(blocks, sep) + [sep] + b
  {
    assert (blocks + [b])[..|blocks|] == blocks;
  }

  /** The same step on a prefix of the blocks: printing block `i` after the
      blocks before it. */
  lemma InterleavePrefix(blocks: seq<seq<string>>, i: nat, sep: string)
    requires i < |blocks|
    ensures Interleave(blocks[..i + 1], sep) ==
      if i == 0 then blocks[i] else Interleave(blocks[..i], sep) + [sep] + blocks[i]
  {
    assert blocks[..i + 1] == blocks[..i] + [blocks[i]];
    InterleaveSnoc(blocks[..i], blocks[i], sep);
  }
}
