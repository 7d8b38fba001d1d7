# anki-mcp in Dafny

A model of the tool layer that exposes a running Anki (through the AnkiConnect
add-on's local HTTP API) as named tools. Every tool goes through one request
bridge, `anki_request`. The bridge posts `{action, version: 6, params}` and
hands back the `"result"` field of the reply. The tools shape their
parameters, make zero, one or two bridge calls, and pass the result through.
Some coerce it to a boolean, and some return early on an empty id list. The
one real algorithm is `get_recent_cards`. It fetches every note id, sorts
the list in place newest first, keeps the first `n`, and resolves those ids
to note records.

The transport is a stub value, `Bridge.Stub`. It holds the log of every
envelope posted so far and a script of replies, one per call in order. A
call with no scripted reply left behaves as an unreachable endpoint. A
reply is either `Unreachable` or `Http(status, body)`, where the body is the
decoded JSON or `None` when it does not parse. Every tool is a function from
a stub to an `Outcome`: the tool's result (`Ok` value or `Err` error)
together with the stub after the tool's posts. Contracts say which envelopes
were posted, in what order, and what came back, in terms of the scripted
replies (`Bridge.Pending(s, k)` is what the k-th call from now will
receive).

Modules:
- `Wrappers`: `Option`.
- `Json`: decoded JSON values, Python truthiness, and integer-id lists.
- `Bridge`: `anki_request`, its envelope and its error taxonomy:
  - `TransportError`: no connection, or a 4xx/5xx status;
  - `ProtocolError`: an unparseable body, a non-object body, or no `"result"`;
  - `ShapeError`: a tool cannot use the result it got.
- `Tools`: the tools of server.py other than `get_recent_cards`.
- `Recency`: `get_recent_cards`. The method `GetRecentCards` copies the ids
  into an array, sorts it in place (`SortDescending`) and slices it. It is
  proved equal to the specification function `RecentCards`. The properties
  are proved about `RecentIds`: its length, its order, that it is a
  sub-multiset, that it is the top n, and that it is the prefix of every
  descending order.
- `AnkiMcp`: `get_cards`, the one tool of anki-mcp/server.py that server.py
  lacks. In that file, `anki_request` (lines 7-17), `list_decks` (22-25),
  `deck_stats` (27-30) and `get_recent_cards` (40-53) are the same code as in
  server.py. They are modelled once, in `Bridge`, `Tools` and `Recency`.

Where the code does something other than its names, annotations or docstrings suggest, the model follows the code:
- With a non-empty id list, `get_recent_cards(0)` still calls `notesInfo`, with
  an empty list (`Recency.RecentCardsZeroStillResolves`). It does not return
  without the second call.
- The ids are sorted non-increasing, not strictly descending. Duplicates are
  kept.
- `rename_deck` is annotated `-> bool` but returns the remote result without
  coercion.
- Empty card lists given to `suspend_cards`, `unsuspend_cards` and
  `set_due_date` are still sent; only `delete_cards` and `get_notes_info`
  short-circuit.

## Model

| member | source | states |
|---|---|---|
| Json.Truthy | server.py:31-33 | Python `bool(v)`: false exactly for None, False, 0, "", [] and {} |
| Json.AsIds | server.py:96 | the integer id lists the model accepts: defined exactly when the value is an array of integers, and it re-encodes to that value |
| Json.AsIdsInts | server.py:96-97 | encoding ids as a JSON array and reading them back gives the same ids |
| Bridge.OrEmpty | server.py:13 | `params or {}`: an absent mapping becomes `{}`, a given one is sent as is |
| Bridge.Envelope | server.py:10-14 | the posted body has exactly the keys action, version and params; the action is the given one, the version is 6, params is the given mapping or `{}` |
| Bridge.Answer | server.py:16-17 | no connection or a 4xx/5xx status fails with a transport error before the body is read; otherwise the result is the body's `"result"` value unchanged, and a body that is unparseable, not an object or without `"result"` fails with a protocol error |
| Bridge.Invoke | server.py:7-17 | one call posts exactly one envelope, changes nothing else, returns what the scripted reply answers, and moves the script on by one |
| Bridge.AnswerRoundTrip | server.py:17 | a 2xx reply `{"result": v, "error": e}` yields exactly v |
| Bridge.AnswerIgnoresErrorField | anki-mcp/server.py:16-17 | the reply's `"error"` field never changes the answer |
| Tools.Coerce | server.py:33 | `bool(result)` after a call: success iff the call succeeded, true iff the result is not falsy, errors passed through |
| Tools.ListDecks | server.py:24-26 | one `deckNames` post with params `{}`; the remote answer returned unchanged |
| Tools.CreateDeck | server.py:30-33 | one `createDeck` post with `{"deck": name}`; reports true iff the remote result is truthy; errors propagate |
| Tools.CreateDeckFalsyIsFalse | server.py:31-33 | a falsy remote result (0, None, ...) makes create_deck report false |
| Tools.ErrorStatusFailsOnce | server.py:16 | an error status makes create_deck and deck_stats fail with a transport error after exactly one post |
| Tools.DeleteDeck | server.py:35-41 | one `deleteDecks` post with `decks = [name]` and `cardsToo`; reports the result's truthiness |
| Tools.DeleteDeckDefaultKeepsCards | server.py:36-40 | omitting cards_too sends `cardsToo = false` |
| Tools.RenameDeck | server.py:43-47 | one `renameDeck` post with oldName and newName; the result returned uncoerced |
| Tools.NoteSpec | server.py:54-59 | the note record has exactly the keys deckName, modelName, fields and tags, holding the deck name, the model name, the fields mapping and the tags in order, all unchanged |
| Tools.AddCard | server.py:52-60 | one `addNote` post with `{"note": record}`; tags default to the empty list; the answer returned unchanged |
| Tools.AddCards | server.py:62-65 | one `addNotes` post with the note records in order; the answer returned unchanged |
| Tools.DeleteCards | server.py:67-71 | no ids: false and no post; otherwise exactly one `deleteNotes` post with the ids unmodified and the answer returned |
| Tools.UpdateNoteFields | server.py:73-76 | one `updateNoteFields` post with `{"note": {"id", "fields"}}`; reports the result's truthiness |
| Tools.FindNotes | server.py:81-83 | one `findNotes` post with the query; the answer returned unchanged |
| Tools.GetNotesInfo | server.py:85-89 | no ids: [] and no post; otherwise exactly one `notesInfo` post with the ids unmodified and the answer returned |
| Tools.ListModels | server.py:102-104 | one `modelNames` post with params `{}` |
| Tools.ModelFieldNames | server.py:106-108 | one `modelFieldNames` post with the model name |
| Tools.SuspendCards | server.py:113-115 | one `suspendCards` post with the card ids unmodified, even when empty |
| Tools.UnsuspendCards | server.py:117-119 | one `unsuspendCards` post with the card ids unmodified, even when empty |
| Tools.SetDueDate | server.py:121-124 | one `setDueDate` post with the card ids and the due string |
| Tools.DeckStats | server.py:129-131 | one `getDeckStats` post with `decks = [name]`; the answer returned unchanged |
| Tools.GetCardStats | server.py:133-135 | one `cardStats` post with `{"cardId": id}` |
| Recency.Insert | server.py:96 | inserting into a non-increasing list keeps it non-increasing and adds exactly that element |
| Recency.SortDesc | server.py:96 | the reference descending order: non-increasing and a permutation of its input |
| Recency.HeadIsMax | server.py:96 | the head of a non-increasing list is its largest element |
| Recency.SortedDescUnique | server.py:96 | two non-increasing permutations of the same ids are equal, so the sorted list is determined |
| Recency.SortDescending | anki-mcp/server.py:47 | the in-place sort leaves the array equal to the descending order of its old contents |
| Recency.RecentIds | server.py:96-97 | the requested ids: length min(n, number of ids), non-increasing, a sub-multiset of the ids, every element drawn from them |
| Recency.RecentIdsAreTopN | server.py:96-97 | no id left out is larger than any id kept |
| Recency.RecentIdsIsPrefixOfAnyDescendingOrder | anki-mcp/server.py:46-50 | the requested ids are the first min(n, number of ids) of every non-increasing permutation of the ids |
| Recency.RecentCards | server.py:91-97 | first a `findNotes` post with query ""; an error stops there; a falsy result gives [] after that one post; a non-list gives a shape error; an id list gives a second post, `notesInfo` with the top-n ids, whose answer is returned |
| Recency.GetRecentCards | anki-mcp/server.py:40-53 | the imperative query (copy, sort in place, slice) posts and returns exactly what RecentCards specifies; n defaults to 200 |
| Recency.RecentCardsRequestsTopN | server.py:92-97 | a non-empty id list leads to exactly two posts; the second requests a list of length min(n, number of ids), non-increasing, drawn from the ids, and the prefix of their descending order |
| Recency.RecentIdsExample | anki-mcp/server.py:46-50 | of the ids [5, 3, 9, 1] with n = 2, exactly [9, 5] is kept |
| Recency.RecentCardsExample | anki-mcp/server.py:40-53 | a `findNotes` answer of [5, 3, 9, 1] with n = 2 leads to a `notesInfo` request for exactly [9, 5], whose answer is returned |
| Recency.RecentCardsExampleFromStart | anki-mcp/server.py:40-53 | from a fresh stub whose first reply carries those ids, the log is the two posts with [9, 5] |
| Recency.RecentCardsZeroStillResolves | server.py:96-97 | with n = 0 and a non-empty id list, `notesInfo` is still called, with [] |
| Recency.RecentCardsTransportFailure | server.py:93 | a failed first call surfaces a transport error, and no second call is made |
| AnkiMcp.GetCards | anki-mcp/server.py:32-38 | a `findNotes` post with query `"deck:" + name`; an error stops there; a falsy id result gives [] after that one post; otherwise one `notesInfo` post with the ids as received, whose answer is returned |
| AnkiMcp.DeckQueryNamesDeck | anki-mcp/server.py:35 | the query is the prefix `deck:` followed by the deck name |
| AnkiMcp.GetCardsCallCount | anki-mcp/server.py:36-38 | two posts when the id result is truthy, otherwise one |

## Left out

- HTTP transport (`requests.post` to the fixed endpoint, its timeouts and JSON parsing) is I/O. It is reduced to the scripted `Reply` of a stub call.
- FastMCP wiring (`FastMCP(...)`, the `@mcp.tool` registration, `mcp.run()` with its transport and port) is framework plumbing.
- The remote store is not modelled. Whether `createDeck` makes a deck appear in `deckNames`, or whether note ids grow with creation time, is AnkiConnect's behaviour, not this code's. So the create-then-list round trip is not stated.
- Floats are not among the JSON values, so Python's falsy `0.0` is not modelled.
- Recency.GetRecentCards: `n` is a `nat`. Python's negative slice `note_ids[:n]`, which drops elements from the end, is not modelled.
- Recency.RecentCards: a truthy result that is not a list of integers is a `ShapeError`. In Python a non-list fails at `.sort` (AttributeError), and a mixed list fails at the comparison (TypeError). A homogeneous list of strings, however, Python would sort, and the model rejects it. A list holding `True`/`False`, which Python orders as integers, is rejected too. A one-element list of any value (such as `[null]`) needs no comparison, so Python posts it to `notesInfo` unchanged, while the model rejects it. A list of lists, which Python sorts lexicographically (`[[2], [1]]`), is rejected as well.
- Python's mutable default `tags = []` in add_card is shared between calls, but nothing ever mutates it, so the behaviour is that of an empty list.
- The reply's `"error"` field is never checked, as in the code. No check is added.
