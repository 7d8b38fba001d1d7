/**
 * The tool of anki-mcp/server.py that server.py lacks: get_cards, the notes
 * of one deck. Its other tools (list_decks, deck_stats, get_recent_cards)
 * and its bridge are the same code as server.py's and are modelled once, in
 * Tools, Recency and Bridge.
 */
module AnkiMcp {
  import opened Wrappers
  import opened Json
  import opened Bridge

  /** The search get_cards sends first: every note of the deck. */
  function DeckQuery(deckName: string): Value
  {
    Envelope("findNotes", Some(map["query" := Str("deck:" + deckName)]))
  }

  /** get_cards: ids of the deck's notes, then their records; no second call when there are none. */
  function GetCards(s: Stub, deckName: string): (out: Outcome<Value>)
    ensures Pending(s, 0).Err? ==> out.result == Pending(s, 0) && Sent(s, out.after, [DeckQuery(deckName)])
    ensures Pending(s, 0).Ok? && !Truthy(Pending(s, 0).value) ==>
      out.result == Ok(Arr([])) && Sent(s, out.after, [DeckQuery(deckName)])
    ensures Pending(s, 0).Ok? && Truthy(Pending(s, 0).value) ==>
      out.result == Pending(s, 1) &&
      Sent(s, out.after, [DeckQuery(deckName), Envelope("notesInfo", Some(map["notes" := Pending(s, 0).value]))])
  {
    var found := Invoke(s, "findNotes", Some(map["query" := Str("deck:" + deckName)]));
    if found.result.Err? then found
    else if !Truthy(found.result.value) then Outcome(Ok(Arr([])), found.after)
    else Invoke(found.after, "notesInfo", Some(map["notes" := found.result.value]))
  }

  /** The deck's query names the deck after the prefix `deck:`. */
  lemma DeckQueryNamesDeck(deckName: string)
    ensures DeckQuery(deckName).fields["params"].fields["query"].s[5..] == deckName
    ensures DeckQuery(deckName).fields["params"].fields["query"].s[..5] == "deck:"
  {
  }

  /** get_cards makes at most two calls, and the second only after a non-empty id list. */
  lemma GetCardsCallCount(s: Stub, deckName: string)
    ensures var calls := |GetCards(s, deckName).after.log| - |s.log|;
      calls == (if Pending(s, 0).Ok? && Truthy(Pending(s, 0).value) then 2 else 1)
  {
  }
}
