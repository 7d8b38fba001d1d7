/**
 * The recency query get_recent_cards: fetch every note id, sort the list in
 * place newest (largest id) first, keep the first n, and resolve that prefix
 * to full records with a second call.
 */
module Recency {
  import opened Wrappers
  import opened Json
  import opened Bridge

  /** The default of `n`. */
  const DefaultCount: nat := 200

  predicate SortedDesc(s: seq<int>)
  {
    forall i, j :: 0 <= i < j < |s| ==> s[i] >= s[j]
  }

  function Min(a: nat, b: nat): nat
  {
    if a <= b then a else b
  }

  /** `x` placed into a non-increasing list before the first element it is not below. */
  function Insert(x: int, s: seq<int>): (r: seq<int>)
    ensures |r| == |s| + 1
    ensures r[0] == x || (s != [] && r[0] == s[0])
    ensures multiset(r) == multiset(s) + multiset{x}
    ensures SortedDesc(s) ==> SortedDesc(r)
  {
    if s == [] || x >= s[0] then
      [x] + s
    else
      assert s == [s[0]] + s[1..];
      [s[0]] + Insert(x, s[1..])
  }

  /** The descending order of a list of ids: the reference `sort(reverse=True)` is proved against. */
  function SortDesc(s: seq<int>): (r: seq<int>)
    ensures |r| == |s|
    ensures SortedDesc(r)
    ensures multiset(r) == multiset(s)
  {
    if s == [] then []
    else
      assert s == [s[0]] + s[1..];
      Insert(s[0], SortDesc(s[1..]))
  }

  /** The head of a non-increasing list is at least each of its elements. */
  lemma HeadIsMax(p: seq<int>, x: int)
    requires SortedDesc(p) && x in p
    ensures x <= p[0]
  {
    var j :| 0 <= j < |p| && p[j] == x;
  }

  /** Two non-increasing orderings of the same ids are the same list. */
  lemma {:induction false} SortedDescUnique(p: seq<int>, q: seq<int>)
    requires SortedDesc(p) && SortedDesc(q)
    requires multiset(p) == multiset(q)
    ensures p == q
  {
    assert |p| == |multiset(p)| == |multiset(q)| == |q|;
    if p != [] {
      assert p[0] in multiset(q) && q[0] in multiset(p);
      HeadIsMax(q, p[0]);
      HeadIsMax(p, q[0]);
      assert p[0] == q[0];
      assert p == [p[0]] + p[1..] && q == [q[0]] + q[1..];
      assert multiset(p) == multiset{p[0]} + multiset(p[1..]);
      assert multiset(q) == multiset{p[0]} + multiset(q[1..]);
      assert multiset(p[1..]) == multiset(p) - multiset{p[0]};
      assert multiset(q[1..]) == multiset(q) - multiset{p[0]};
      SortedDescUnique(p[1..], q[1..]);
    }
  }

  /** The ids get_recent_cards requests: the first n of the descending order. */
  function RecentIds(ids: seq<int>, n: nat): (r: seq<int>)
    ensures |r| == Min(n, |ids|)
    ensures SortedDesc(r)
    ensures multiset(r) <= multiset(ids)
    ensures forall x :: x in r ==> x in ids
  {
    var sorted := SortDesc(ids);
    var m := Min(n, |ids|);
    assert sorted == sorted[..m] + sorted[m..];
    assert forall x :: x in sorted[..m] ==> x in multiset(ids) by {
      forall x | x in sorted[..m] ensures x in multiset(ids) {
        assert x in multiset(sorted[..m]);
      }
    }
    sorted[..m]
  }

  /** Nothing left out of RecentIds exceeds anything kept: it is the top n of ids. */
  lemma RecentIdsAreTopN(ids: seq<int>, n: nat, x: int, y: int)
    requires x in multiset(ids) - multiset(RecentIds(ids, n))
    requires y in RecentIds(ids, n)
    ensures x <= y
  {
    var sorted := SortDesc(ids);
    var m := Min(n, |ids|);
    assert sorted == sorted[..m] + sorted[m..];
    assert multiset(ids) - multiset(sorted[..m]) == multiset(sorted[m..]);
    assert x in sorted[m..];
    var k :| m <= k < |sorted| && sorted[k] == x;
    var j :| 0 <= j < m && sorted[j] == y;
  }

  /** RecentIds is the prefix of every non-increasing permutation of ids. */
  lemma RecentIdsIsPrefixOfAnyDescendingOrder(ids: seq<int>, n: nat, p: seq<int>)
    requires SortedDesc(p) && multiset(p) == multiset(ids)
    ensures RecentIds(ids, n) == p[..Min(n, |p|)]
  {
    SortedDescUnique(p, SortDesc(ids));
  }

  /** Exchanges two cells of `a`, keeping its elements. */
  method Exchange(a: array<int>, i: int, j: int)
    requires 0 <= i < a.Length && 0 <= j < a.Length
    modifies a
    ensures a[..] == old(a[..])[i := old(a[j])][j := old(a[i])]
    ensures multiset(a[..]) == multiset(old(a[..]))
  {
    a[i], a[j] := a[j], a[i];
  }

  /** The index of a largest element of a[lo..]. */
  method MaxFrom(a: array<int>, lo: int) returns (m: int)
    requires 0 <= lo < a.Length
    ensures lo <= m < a.Length
    ensures forall l :: lo <= l < a.Length ==> a[m] >= a[l]
  {
    m := lo;
    var j := lo + 1;
    while j < a.Length
      invariant lo <= m < j <= a.Length
      invariant forall l :: lo <= l < j ==> a[m] >= a[l]
    {
      if a[j] > a[m] {
        m := j;
      }
      j := j + 1;
    }
  }

  /** `note_ids.sort(reverse=True)`: a selection sort in place, newest first. */
  method SortDescending(a: array<int>)
    modifies a
    ensures a[..] == SortDesc(old(a[..]))
  {
    var i := 0;
    while i < a.Length
      invariant 0 <= i <= a.Length
      invariant multiset(a[..]) == multiset(old(a[..]))
      invariant forall k, l :: 0 <= k < l < i ==> a[k] >= a[l]
      invariant forall k, l :: 0 <= k < i <= l < a.Length ==> a[k] >= a[l]
    {
      var m := MaxFrom(a, i);
      Exchange(a, i, m);
      i := i + 1;
    }
    assert SortedDesc(a[..]);
    SortedDescUnique(a[..], SortDesc(old(a[..])));
  }

  /** The query get_recent_cards sends first: every note. */
  function FindAll(): Value
  {
    Envelope("findNotes", Some(map["query" := Str("")]))
  }

  /** The second envelope: `notesInfo` with the chosen ids. */
  function ResolveIds(ids: seq<int>): Value
  {
    Envelope("notesInfo", Some(map["notes" := Arr(Ints(ids))]))
  }

  /** What get_recent_cards(n) returns and posts, for every script of replies. */
  function RecentCards(s: Stub, n: nat): (out: Outcome<Value>)
    ensures Pending(s, 0).Err? ==> out.result == Pending(s, 0) && Sent(s, out.after, [FindAll()])
    ensures Pending(s, 0).Ok? && !Truthy(Pending(s, 0).value) ==>
      out.result == Ok(Arr([])) && Sent(s, out.after, [FindAll()])
    ensures Pending(s, 0).Ok? && Truthy(Pending(s, 0).value) && AsIds(Pending(s, 0).value).None? ==>
      out.result == Err(ShapeError) && Sent(s, out.after, [FindAll()])
    ensures Pending(s, 0).Ok? && Truthy(Pending(s, 0).value) && AsIds(Pending(s, 0).value).Some? ==>
      var ids := AsIds(Pending(s, 0).value).value;
      out.result == Pending(s, 1) && Sent(s, out.after, [FindAll(), ResolveIds(RecentIds(ids, n))])
  {
    var found := Invoke(s, "findNotes", Some(map["query" := Str("")]));
    if found.result.Err? then found
    else if !Truthy(found.result.value) then Outcome(Ok(Arr([])), found.after)
    else match AsIds(found.result.value)
      case None => Outcome(Err(ShapeError), found.after)
      case Some(ids) => Invoke(found.after, "notesInfo", Some(map["notes" := Arr(Ints(RecentIds(ids, n)))]))
  }

  /** get_recent_cards(n): the note ids are copied into an array, sorted in place and sliced. */
  method GetRecentCards(s: Stub, n: nat := DefaultCount) returns (out: Outcome<Value>)
    ensures out == RecentCards(s, n)
  {
    var found := Invoke(s, "findNotes", Some(map["query" := Str("")]));
    if found.result.Err? {
      return found;
    }
    if !Truthy(found.result.value) {
      return Outcome(Ok(Arr([])), found.after);
    }
    var ids := AsIds(found.result.value);
    if ids.None? {
      return Outcome(Err(ShapeError), found.after);
    }
    var noteIds := new int[|ids.value|](k requires 0 <= k < |ids.value| => ids.value[k]);
    assert noteIds[..] == ids.value;
    SortDescending(noteIds);
    var recentIds := noteIds[..Min(n, noteIds.Length)];
    out := Invoke(found.after, "notesInfo", Some(map["notes" := Arr(Ints(recentIds))]));
  }

  /** Of the ids [5, 3, 9, 1], the two most recent are [9, 5], in that order. */
  lemma RecentIdsExample(ids: seq<int>, n: nat)
    requires ids == [5, 3, 9, 1] && n == 2
    ensures RecentIds(ids, n) == [9, 5]
  {
    var p := [ids[2], ids[0], ids[1], ids[3]];
    assert multiset(p) == multiset(ids);
    RecentIdsIsPrefixOfAnyDescendingOrder(ids, n, p);
  }

  /** Remote ids [5, 3, 9, 1] and n = 2: exactly [9, 5] is requested, in that order. */
  lemma RecentCardsExample(s: Stub)
    requires Pending(s, 0) == Ok(Arr([Int(5), Int(3), Int(9), Int(1)]))
    ensures Sent(s, RecentCards(s, 2).after, [FindAll(), ResolveIds([9, 5])])
    ensures RecentCards(s, 2).result == Pending(s, 1)
  {
    var ids := [5, 3, 9, 1];
    assert Pending(s, 0).value == Arr(Ints(ids));
    AsIdsInts(ids);
    RecentIdsExample(ids, 2);
    assert AsIds(Pending(s, 0).value) == Some(ids);
    assert Truthy(Pending(s, 0).value);
  }

  /** The same scenario from a fresh stub whose endpoint answers the first call with those ids. */
  lemma RecentCardsExampleFromStart(second: Reply)
    ensures
      var s := Stub([], [Http(200, Some(Obj(map["result" := Arr([Int(5), Int(3), Int(9), Int(1)]), "error" := Null]))), second]);
      RecentCards(s, 2).after.log == [FindAll(), ResolveIds([9, 5])]
  {
    var found := Arr([Int(5), Int(3), Int(9), Int(1)]);
    var s := Stub([], [Http(200, Some(Obj(map["result" := found, "error" := Null]))), second]);
    AnswerRoundTrip(found, 200, Null);
    RecentCardsExample(s);
  }

  /** A non-empty id list leads to exactly one `notesInfo` call, for the top n ids newest first. */
  lemma RecentCardsRequestsTopN(s: Stub, n: nat, ids: seq<int>)
    requires Pending(s, 0) == Ok(Arr(Ints(ids))) && ids != []
    ensures var r := RecentIds(ids, n);
      && Sent(s, RecentCards(s, n).after, [FindAll(), ResolveIds(r)])
      && RecentCards(s, n).result == Pending(s, 1)
      && |r| == Min(n, |ids|)
      && SortedDesc(r)
      && multiset(r) <= multiset(ids)
      && r == SortDesc(ids)[..|r|]
  {
    AsIdsInts(ids);
    assert Truthy(Arr(Ints(ids)));
  }

  /** n = 0 still resolves: one `notesInfo` call with the empty list follows a non-empty id list. */
  lemma RecentCardsZeroStillResolves(s: Stub)
    requires Pending(s, 0).Ok? && Truthy(Pending(s, 0).value) && AsIds(Pending(s, 0).value).Some?
    ensures Sent(s, RecentCards(s, 0).after, [FindAll(), ResolveIds([])])
  {
  }

  /** An unreachable endpoint or an error status stops the query after the first post. */
  lemma RecentCardsTransportFailure(s: Stub, n: nat)
    requires TransportFails(ReplyAt(s, 0))
    ensures RecentCards(s, n).result == Err(TransportError)
    ensures |RecentCards(s, n).after.log| == |s.log| + 1
  {
  }
}
