/**
  * How the app, project and user handlers turn a data-service reply into
  * calls of `next`: the single-document reply of `get`, and the list reply
  * that fans an `@graph` out item by item.
  */
module Replies {
  import opened Js

  /** the `jsonld` document of a reply, when the reply and its document are both truthy */
  predicate HasDocument(reply: Reply) {
    Truthy(reply.res) && Truthy(Get(reply.res, "jsonld"))
  }

  /** the reply handling of `get`: relay the error, report `notFound` when
    * there is no document, else hand the document on */
  function DocumentReply(reply: Reply, notFound: string): (e: Event)
    ensures Truthy(reply.err) ==> e == Next([reply.err])
    ensures !Truthy(reply.err) && !HasDocument(reply) ==> e == Fail(notFound)
    ensures !Truthy(reply.err) && HasDocument(reply) ==> e == Next([Null, Get(reply.res, "jsonld")])
  {
    if Truthy(reply.err) then Next([reply.err])
    else if !Truthy(reply.res) || !Truthy(Get(reply.res, "jsonld")) then Fail(notFound)
    else Next([Null, Get(reply.res, "jsonld")])
  }

  /** the reply handling of `list`, as a relation between the reply and the
    * events: relay the error, report a missing document, fan an `@graph` out
    * item by item and close with `next(null, null)` (a non-array `@graph`
    * has no `forEach`), or hand on the single document */
  predicate ListOutcome(reply: Reply, events: seq<Event>) {
    && (Truthy(reply.err) ==> events == [Next([reply.err])])
    && (!Truthy(reply.err) && !HasDocument(reply) ==> events == [Fail("No jsonld document.")])
    && (!Truthy(reply.err) && HasDocument(reply) ==>
          var doc := Get(reply.res, "jsonld");
          && (Has(doc, "@graph") && Get(doc, "@graph").Arr? ==> events == GraphEvents(Get(doc, "@graph").items))
          && (Has(doc, "@graph") && !Get(doc, "@graph").Arr? ==> events == [Throw("TypeError")])
          && (!Has(doc, "@graph") ==> events == [Next([Null, doc])]))
  }

  /** the callback `list` hands to the service */
  method ListReply(reply: Reply) returns (events: seq<Event>)
    ensures ListOutcome(reply, events)
  {
    if Truthy(reply.err) {
      return [Next([reply.err])];
    }
    if !Truthy(reply.res) || !Truthy(Get(reply.res, "jsonld")) {
      return [Fail("No jsonld document.")];
    }
    var doc := Get(reply.res, "jsonld");
    if Has(doc, "@graph") {
      var graph := Get(doc, "@graph");
      if graph.Arr? {
        events := EmitGraph(graph.items);
      } else {
        // `forEach` is not a function of a non-array
        events := [Throw("TypeError")];
      }
    } else {
      events := [Next([Null, doc])];
    }
  }

  /** Every reply leads to exactly one outcome. */
  lemma ListOutcomeUnique(reply: Reply, e1: seq<Event>, e2: seq<Event>)
    requires ListOutcome(reply, e1) && ListOutcome(reply, e2)
    ensures e1 == e2
  {
  }

  /** The list reply handling only calls `next` (or throws); it never calls
    * the service again. */
  lemma ListOutcomeCallsNothing(reply: Reply, events: seq<Event>)
    requires ListOutcome(reply, events)
    ensures ServiceOps(events) == [] && |events| >= 1
  {
    var doc := Get(reply.res, "jsonld");
    if !Truthy(reply.err) && HasDocument(reply) && Has(doc, "@graph") && Get(doc, "@graph").Arr? {
      GraphEventsOnlyNext(Get(doc, "@graph").items);
    } else {
      assert |events| == 1 && (events[0].Next? || events[0].Throw?);
    }
    assert forall i :: 0 <= i < |events| ==> events[i].Next? || events[i].Throw?;
  }

  lemma GraphEventsOnlyNext(items: seq<Value>)
    ensures forall i :: 0 <= i < |GraphEvents(items)| ==> GraphEvents(items)[i].Next?
  {
    var events := GraphEvents(items);
    forall i | 0 <= i < |events| ensures events[i].Next? {
      if i < |items| { assert events[i] == Next([items[i], Bool(true)]); }
    }
  }

  /** A fanned-out `@graph` ends with `next(null, null)`, after one
    * `next(item, true)` per item. */
  lemma ListOutcomeGraphEnds(reply: Reply, events: seq<Event>)
    requires ListOutcome(reply, events)
    requires !Truthy(reply.err) && HasDocument(reply)
    requires Has(Get(reply.res, "jsonld"), "@graph") && Get(Get(reply.res, "jsonld"), "@graph").Arr?
    ensures |events| == |Get(Get(reply.res, "jsonld"), "@graph").items| + 1
    ensures events[|events| - 1] == Next([Null, Null])
  {
  }
}
