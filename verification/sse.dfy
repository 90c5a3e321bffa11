/** `_process_payload` of events.py: leaving out repeats does not change what a client sees. */
module SseModel {
  import opened Domain

  /** The six fields that are compared. */
  datatype Fields = Fields(phase: Option<string>, operation: Option<string>, errorReason: Option<string>,
                           name: Option<string>, description: Option<string>, memo: Option<string>)

  /** A payload: not JSON at all, or a document, whose id may be missing like any other field.
      `rest` is everything else in it. */
  datatype Payload = Garbage | Document(id: Option<string>, deletedAt: Option<string>, fields: Fields, rest: string)

  type Views = map<Option<string>, Fields>

  predicate IsDeletion(payload: Payload) {
    payload.Document? && Given(payload.deletedAt)
  }

  /** What a client that keeps the six fields per workspace makes of one document. */
  function See(views: Views, payload: Payload): Views {
    if payload.Garbage? then views
    else if IsDeletion(payload) then views - {payload.id}
    else views[payload.id := payload.fields]
  }

  function SeeAll(payloads: seq<Payload>): Views {
    if payloads == [] then map[] else See(SeeAll(payloads[..|payloads| - 1]), payloads[|payloads| - 1])
  }

  /** A payload that would tell the client nothing. */
  predicate Repeats(views: Views, payload: Payload) {
    payload.Garbage? || (!IsDeletion(payload) && payload.id in views && views[payload.id] == payload.fields)
  }

  /** What is left out is exactly what neither deletes nor changes the view. */
  lemma RepeatsIff(views: Views, payload: Payload)
    ensures Repeats(views, payload) <==> !IsDeletion(payload) && See(views, payload) == views
  {
    if !payload.Garbage? && !IsDeletion(payload) && views[payload.id := payload.fields] == views {
      assert payload.id in views[payload.id := payload.fields];
    }
  }

  /** The last document about a workspace. */
  function LastAbout(payloads: seq<Payload>, id: Option<string>): Option<Payload> {
    if payloads == [] then None
    else
      var last := payloads[|payloads| - 1];
      if last.Document? && last.id == id then Some(last) else LastAbout(payloads[..|payloads| - 1], id)
  }

  /** A view shows of each workspace the fields of the last document about it, and nothing if that
      was a deletion or there was none. */
  lemma {:induction false} ViewIsLast(payloads: seq<Payload>, id: Option<string>)
    ensures var views, last := SeeAll(payloads), LastAbout(payloads, id);
            && (last.Some? ==> last.value.Document? && last.value.id == id && last.value in payloads)
            && (id in views <==> last.Some? && (last.value.deletedAt.None? || last.value.deletedAt.value == ""))
            && (id in views ==> views[id] == last.value.fields)
  {
    if payloads != [] {
      ViewIsLast(payloads[..|payloads| - 1], id);
    }
  }

  class Connection {
    var lastSent: Views

    constructor ()
      ensures lastSent == map[]
    {
      lastSent := map[];
    }

    method ProcessPayload(payload: Payload) returns (event: Option<Payload>)
      modifies this
      ensures event == if Repeats(old(lastSent), payload) then None else Some(payload)
      ensures lastSent == See(old(lastSent), payload)
      ensures payload.Document? && payload.deletedAt.Some? && payload.deletedAt.value != "" ==>
                event == Some(payload) && lastSent == old(lastSent) - {payload.id}
      ensures payload.Document? && (payload.deletedAt.None? || payload.deletedAt.value == "") ==>
                && (event == Some(payload) <==> lastSent != old(lastSent))
                && lastSent == old(lastSent)[payload.id := payload.fields]
      ensures event.None? ==> lastSent == old(lastSent)
    {
      if payload.Garbage? {
        return None;
      }
      if Given(payload.deletedAt) {
        lastSent := lastSent - {payload.id};
        return Some(payload);
      }
      if payload.id in lastSent && lastSent[payload.id] == payload.fields {
        return None;
      }
      lastSent := lastSent[payload.id := payload.fields];
      return Some(payload);
    }

    /** The generator's loop, on a new connection. */
    method Stream(payloads: seq<Payload>) returns (events: seq<Payload>)
      requires lastSent == map[]
      modifies this
      ensures events == Sent(payloads)
      ensures lastSent == SeeAll(events) == SeeAll(payloads)
    {
      events := [];
      for i := 0 to |payloads|
        invariant events == Sent(payloads[..i]) && lastSent == SeeAll(payloads[..i])
      {
        assert payloads[..i + 1][..i] == payloads[..i];
        var event := ProcessPayload(payloads[i]);
        if event.Some? {
          events := events + [event.value];
        }
      }
      assert payloads[..|payloads|] == payloads;
      DedupIsInvisible(payloads);
    }
  }

  /** What goes out: all but the payloads that repeat the view of everything before them,
      sent or not. The cache plays no part in this. */
  function Sent(payloads: seq<Payload>): seq<Payload> {
    if payloads == [] then []
    else
      var init, last := payloads[..|payloads| - 1], payloads[|payloads| - 1];
      Sent(init) + (if Repeats(SeeAll(init), last) then [] else [last])
  }

  /** The client ends up with the same view as if everything had been sent. */
  lemma {:induction false} DedupIsInvisible(payloads: seq<Payload>)
    ensures SeeAll(Sent(payloads)) == SeeAll(payloads)
  {
    if payloads != [] {
      var init, last := payloads[..|payloads| - 1], payloads[|payloads| - 1];
      DedupIsInvisible(init);
      if Repeats(SeeAll(init), last) {
        assert Sent(payloads) == Sent(init);
      } else {
        assert Sent(payloads)[..|Sent(init)|] == Sent(init);
      }
    }
  }

  /** Nothing that goes out repeats what went out before it, and all of it was received. */
  lemma {:induction false} NothingRepeats(payloads: seq<Payload>, k: nat)
    requires k < |Sent(payloads)|
    ensures !Repeats(SeeAll(Sent(payloads)[..k]), Sent(payloads)[k]) && Sent(payloads)[k] in payloads
  {
    var init, last := payloads[..|payloads| - 1], payloads[|payloads| - 1];
    if k < |Sent(init)| {
      NothingRepeats(init, k);
      assert Sent(payloads)[..k] == Sent(init)[..k];
    } else {
      assert Sent(payloads)[..k] == Sent(init);
      DedupIsInvisible(init);
    }
  }

  function Deletions(payloads: seq<Payload>): seq<Payload> {
    if payloads == [] then []
    else
      var last := payloads[|payloads| - 1];
      Deletions(payloads[..|payloads| - 1]) + (if IsDeletion(last) then [last] else [])
  }

  /** Every deletion goes out, as often and in the order it came in. */
  lemma {:induction false} DeletionsAllSent(payloads: seq<Payload>)
    ensures Deletions(Sent(payloads)) == Deletions(payloads)
  {
    if payloads != [] {
      var init, last := payloads[..|payloads| - 1], payloads[|payloads| - 1];
      DeletionsAllSent(init);
      if Repeats(SeeAll(init), last) {
        assert Sent(payloads) == Sent(init);
      } else {
        assert Sent(payloads)[..|Sent(init)|] == Sent(init);
      }
    }
  }
}
