/**
 * The tool catalog of server.py: each tool shapes its parameters, makes at
 * most one bridge call and hands the result back, coerced to a boolean for
 * the deck and note-update tools. The recency query lives in Recency.
 */
module Tools {
  import opened Wrappers
  import opened Json
  import opened Bridge

  /** `bool(result)` applied after a call; a raised error passes through untouched. */
  function Coerce(o: Outcome<Value>): (c: Outcome<bool>)
    ensures c.after == o.after
    ensures c.result.Ok? <==> o.result.Ok?
    ensures c.result.Ok? ==> (c.result.value <==> o.result.value !in Falsy)
    ensures c.result.Err? ==> c.result.error == o.result.error
  {
    match o.result
    case Ok(v) => Outcome(Ok(Truthy(v)), o.after)
    case Err(e) => Outcome(Err(e), o.after)
  }

  // ---------- Deck management ----------

  /** list_decks: `deckNames` with no params; the remote list is returned as is. */
  function ListDecks(s: Stub): (out: Outcome<Value>)
    ensures Sent(s, out.after, [Envelope("deckNames", None)])
    ensures out.after.log[|s.log|].fields["params"] == Obj(map[])
    ensures out.result == Pending(s, 0)
  {
    Invoke(s, "deckNames")
  }

  /** create_deck: `createDeck` with {"deck": name}; answers whether the remote result is truthy. */
  function CreateDeck(s: Stub, deckName: string): (out: Outcome<bool>)
    ensures Sent(s, out.after, [Envelope("createDeck", Some(map["deck" := Str(deckName)]))])
    ensures out.result.Ok? <==> Pending(s, 0).Ok?
    ensures out.result.Ok? ==> (out.result.value <==> Pending(s, 0).value !in Falsy)
    ensures out.result.Err? ==> out.result.error == Pending(s, 0).error
  {
    Coerce(Invoke(s, "createDeck", Some(map["deck" := Str(deckName)])))
  }

  /** delete_deck: `deleteDecks` with the singleton list [name] and `cardsToo` (False unless given). */
  function DeleteDeck(s: Stub, deckName: string, cardsToo: bool := false): (out: Outcome<bool>)
    ensures Sent(s, out.after, [Envelope("deleteDecks",
      Some(map["decks" := Arr([Str(deckName)]), "cardsToo" := Bool(cardsToo)]))])
    ensures out.result.Ok? <==> Pending(s, 0).Ok?
    ensures out.result.Ok? ==> (out.result.value <==> Pending(s, 0).value !in Falsy)
    ensures out.result.Err? ==> out.result.error == Pending(s, 0).error
  {
    Coerce(Invoke(s, "deleteDecks", Some(map["decks" := Arr([Str(deckName)]), "cardsToo" := Bool(cardsToo)])))
  }

  /** rename_deck: `renameDeck` with both names; the result is NOT coerced despite the bool annotation. */
  function RenameDeck(s: Stub, oldName: string, newName: string): (out: Outcome<Value>)
    ensures Sent(s, out.after, [Envelope("renameDeck",
      Some(map["oldName" := Str(oldName), "newName" := Str(newName)]))])
    ensures out.result == Pending(s, 0)
  {
    Invoke(s, "renameDeck", Some(map["oldName" := Str(oldName), "newName" := Str(newName)]))
  }

  // ---------- Card and note management ----------

  /** The note record add_card builds. */
  function NoteSpec(deckName: string, modelName: string, fields: Params, tags: seq<string>): (note: Value)
    ensures note.Obj? && note.fields.Keys == {"deckName", "modelName", "fields", "tags"}
    ensures note.fields["deckName"] == Str(deckName) && note.fields["modelName"] == Str(modelName)
    ensures note.fields["fields"] == Obj(fields)
    ensures note.fields["tags"].Arr? && |note.fields["tags"].items| == |tags|
    ensures forall k :: 0 <= k < |tags| ==> note.fields["tags"].items[k] == Str(tags[k])
  {
    Obj(map["deckName" := Str(deckName), "modelName" := Str(modelName), "fields" := Obj(fields),
            "tags" := Arr(seq(|tags|, k requires 0 <= k < |tags| => Str(tags[k])))])
  }

  /** add_card: `addNote` with {"note": the record}; tags default to the empty list. */
  function AddCard(s: Stub, deckName: string, modelName: string, fields: Params, tags: seq<string> := [])
    : (out: Outcome<Value>)
    ensures Sent(s, out.after, [Envelope("addNote", Some(map["note" := NoteSpec(deckName, modelName, fields, tags)]))])
    ensures out.result == Pending(s, 0)
  {
    Invoke(s, "addNote", Some(map["note" := NoteSpec(deckName, modelName, fields, tags)]))
  }

  /** add_cards: `addNotes` with the note records passed through in order. */
  function AddCards(s: Stub, notes: seq<Params>): (out: Outcome<Value>)
    ensures Sent(s, out.after, [Envelope("addNotes",
      Some(map["notes" := Arr(seq(|notes|, k requires 0 <= k < |notes| => Obj(notes[k])))]))])
    ensures out.result == Pending(s, 0)
  {
    Invoke(s, "addNotes", Some(map["notes" := Arr(seq(|notes|, k requires 0 <= k < |notes| => Obj(notes[k])))]))
  }

  /** delete_cards: False without any call for no ids; otherwise one `deleteNotes` with the ids unmodified. */
  function DeleteCards(s: Stub, noteIds: seq<int>): (out: Outcome<Value>)
    ensures noteIds == [] ==> out == Outcome(Ok(Bool(false)), s)
    ensures noteIds != [] ==> Sent(s, out.after, [Envelope("deleteNotes", Some(map["notes" := Arr(Ints(noteIds))]))])
    ensures noteIds != [] ==> out.result == Pending(s, 0)
  {
    if |noteIds| == 0 then Outcome(Ok(Bool(false)), s)
    else Invoke(s, "deleteNotes", Some(map["notes" := Arr(Ints(noteIds))]))
  }

  /** update_note_fields: `updateNoteFields` with {"note": {"id", "fields"}}; answers the result's truthiness. */
  function UpdateNoteFields(s: Stub, noteId: int, fields: Params): (out: Outcome<bool>)
    ensures Sent(s, out.after, [Envelope("updateNoteFields",
      Some(map["note" := Obj(map["id" := Int(noteId), "fields" := Obj(fields)])]))])
    ensures out.result.Ok? <==> Pending(s, 0).Ok?
    ensures out.result.Ok? ==> (out.result.value <==> Pending(s, 0).value !in Falsy)
    ensures out.result.Err? ==> out.result.error == Pending(s, 0).error
  {
    Coerce(Invoke(s, "updateNoteFields", Some(map["note" := Obj(map["id" := Int(noteId), "fields" := Obj(fields)])])))
  }

  // ---------- Searching and retrieval ----------

  /** find_notes: `findNotes` with the query string passed through. */
  function FindNotes(s: Stub, query: string): (out: Outcome<Value>)
    ensures Sent(s, out.after, [Envelope("findNotes", Some(map["query" := Str(query)]))])
    ensures out.result == Pending(s, 0)
  {
    Invoke(s, "findNotes", Some(map["query" := Str(query)]))
  }

  /** get_notes_info: [] without any call for no ids; otherwise one `notesInfo` with the ids unmodified. */
  function GetNotesInfo(s: Stub, noteIds: seq<int>): (out: Outcome<Value>)
    ensures noteIds == [] ==> out == Outcome(Ok(Arr([])), s)
    ensures noteIds != [] ==> Sent(s, out.after, [Envelope("notesInfo", Some(map["notes" := Arr(Ints(noteIds))]))])
    ensures noteIds != [] ==> out.result == Pending(s, 0)
  {
    if |noteIds| == 0 then Outcome(Ok(Arr([])), s)
    else Invoke(s, "notesInfo", Some(map["notes" := Arr(Ints(noteIds))]))
  }

  // ---------- Models ----------

  /** list_models: `modelNames` with no params. */
  function ListModels(s: Stub): (out: Outcome<Value>)
    ensures Sent(s, out.after, [Envelope("modelNames", None)])
    ensures out.result == Pending(s, 0)
  {
    Invoke(s, "modelNames")
  }

  /** model_field_names: `modelFieldNames` with {"modelName": name}. */
  function ModelFieldNames(s: Stub, modelName: string): (out: Outcome<Value>)
    ensures Sent(s, out.after, [Envelope("modelFieldNames", Some(map["modelName" := Str(modelName)]))])
    ensures out.result == Pending(s, 0)
  {
    Invoke(s, "modelFieldNames", Some(map["modelName" := Str(modelName)]))
  }

  // ---------- Scheduling ----------

  /** suspend_cards: `suspendCards` with the card ids unmodified (an empty list is still sent). */
  function SuspendCards(s: Stub, cardIds: seq<int>): (out: Outcome<Value>)
    ensures Sent(s, out.after, [Envelope("suspendCards", Some(map["cards" := Arr(Ints(cardIds))]))])
    ensures out.result == Pending(s, 0)
  {
    Invoke(s, "suspendCards", Some(map["cards" := Arr(Ints(cardIds))]))
  }

  /** unsuspend_cards: `unsuspendCards` with the card ids unmodified (an empty list is still sent). */
  function UnsuspendCards(s: Stub, cardIds: seq<int>): (out: Outcome<Value>)
    ensures Sent(s, out.after, [Envelope("unsuspendCards", Some(map["cards" := Arr(Ints(cardIds))]))])
    ensures out.result == Pending(s, 0)
  {
    Invoke(s, "unsuspendCards", Some(map["cards" := Arr(Ints(cardIds))]))
  }

  /** set_due_date: `setDueDate` with the card ids and the due string passed through. */
  function SetDueDate(s: Stub, cardIds: seq<int>, due: string): (out: Outcome<Value>)
    ensures Sent(s, out.after, [Envelope("setDueDate", Some(map["cards" := Arr(Ints(cardIds)), "due" := Str(due)]))])
    ensures out.result == Pending(s, 0)
  {
    Invoke(s, "setDueDate", Some(map["cards" := Arr(Ints(cardIds)), "due" := Str(due)]))
  }

  // ---------- Statistics ----------

  /** deck_stats: `getDeckStats` with the singleton list [name]; the result is returned as is. */
  function DeckStats(s: Stub, deckName: string): (out: Outcome<Value>)
    ensures Sent(s, out.after, [Envelope("getDeckStats", Some(map["decks" := Arr([Str(deckName)])]))])
    ensures out.result == Pending(s, 0)
  {
    Invoke(s, "getDeckStats", Some(map["decks" := Arr([Str(deckName)])]))
  }

  /** get_card_stats: `cardStats` with {"cardId": id}. */
  function GetCardStats(s: Stub, cardId: int): (out: Outcome<Value>)
    ensures Sent(s, out.after, [Envelope("cardStats", Some(map["cardId" := Int(cardId)]))])
    ensures out.result == Pending(s, 0)
  {
    Invoke(s, "cardStats", Some(map["cardId" := Int(cardId)]))
  }

  // ---------- Properties across tools ----------

  /** A remote `createDeck` answer of 0 (or any falsy value) makes create_deck report false. */
  lemma CreateDeckFalsyIsFalse(s: Stub, deckName: string)
    requires Pending(s, 0).Ok? && !Truthy(Pending(s, 0).value)
    ensures CreateDeck(s, deckName).result == Ok(false)
  {
  }

  /** An endpoint answering with an error status makes create_deck and deck_stats fail with a transport error after one post. */
  lemma ErrorStatusFailsOnce(s: Stub, deckName: string)
    requires ReplyAt(s, 0).Http? && StatusRaises(ReplyAt(s, 0).status)
    ensures CreateDeck(s, deckName).result == Err(TransportError)
    ensures |CreateDeck(s, deckName).after.log| == |s.log| + 1
    ensures DeckStats(s, deckName).result == Err(TransportError)
    ensures |DeckStats(s, deckName).after.log| == |s.log| + 1
  {
  }

  /** Leaving cards_too out is the same call as passing False. */
  lemma DeleteDeckDefaultKeepsCards(s: Stub, deckName: string)
    ensures DeleteDeck(s, deckName).after.log[|s.log|].fields["params"].fields["cardsToo"] == Bool(false)
  {
  }
}
