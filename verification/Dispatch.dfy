/**
  What routing a sequence of requests does, as the sequence of handler calls it makes,
  and what a handler table built by registrations contains. Packets are seen here only
  through their id.
 */
module Dispatch {
  import opened Containers
  import opened Wire

  datatype Phase = Pre | Main | Post

  /** A packet together with the id routing reads from it */
  datatype Request<P> = Request(id: U32, packet: P)

  /** One call of a handler on a packet */
  datatype Call<H, P> = Call(phase: Phase, handler: H, packet: P)

  function Route<H, P>(table: map<U32, H>, r: Request<P>): seq<Call<H, P>> {
    if r.id !in table then []
    else
      var h := table[r.id];
      [Call(Pre, h, r.packet), Call(Main, h, r.packet), Call(Post, h, r.packet)]
  }

  function RouteAll<H, P>(table: map<U32, H>, requests: seq<Request<P>>): seq<Call<H, P>> {
    if requests == [] then []
    else
      var n := |requests| - 1;
      RouteAll(table, requests[..n]) + Route(table, requests[n])
  }

  lemma RouteAllNext<H, P>(table: map<U32, H>, requests: seq<Request<P>>, r: Request<P>)
    ensures RouteAll(table, requests + [r]) == RouteAll(table, requests) + Route(table, r)
  {
    assert (requests + [r])[..|requests|] == requests;
  }

  lemma {:induction false} RouteAllAppend<H, P>(table: map<U32, H>, a: seq<Request<P>>, b: seq<Request<P>>)
    ensures RouteAll(table, a + b) == RouteAll(table, a) + RouteAll(table, b)
  {
    if b == [] {
      assert a + b == a;
    } else {
      var c, r := b[..|b| - 1], b[|b| - 1];
      assert b == c + [r];
      RouteAllAppend(table, a, c);
      Associate(a, c, [r]);
      RouteAllNext(table, a + c, r);
      RouteAllNext(table, c, r);
      Associate(RouteAll(table, a), RouteAll(table, c), Route(table, r));
    }
  }

  /** How many of the requests have an id with a handler */
  function Registered<H, P>(table: map<U32, H>, requests: seq<Request<P>>): nat {
    if requests == [] then 0
    else
      var n := |requests| - 1;
      Registered(table, requests[..n]) + if requests[n].id in table then 1 else 0
  }

  /** The three calls from position `at` are the three phases on requests[hit], by its handler. */
  ghost predicate PhasesAt<H, P>(table: map<U32, H>, requests: seq<Request<P>>, hit: nat,
                                 calls: seq<Call<H, P>>, at: nat)
  {
    && hit < |requests| && requests[hit].id in table
    && at + 3 <= |calls|
    && var r := requests[hit];
       var h := table[r.id];
       && calls[at] == Call(Pre, h, r.packet)
       && calls[at + 1] == Call(Main, h, r.packet)
       && calls[at + 2] == Call(Post, h, r.packet)
  }

  lemma PhasesKept<H, P>(table: map<U32, H>, requests: seq<Request<P>>, r: Request<P>, hit: nat,
                         calls: seq<Call<H, P>>, more: seq<Call<H, P>>, at: nat)
    requires PhasesAt(table, requests, hit, calls, at)
    ensures PhasesAt(table, requests + [r], hit, calls + more, at)
  {
  }

  lemma PhasesAdded<H, P>(table: map<U32, H>, requests: seq<Request<P>>, r: Request<P>, calls: seq<Call<H, P>>)
    requires r.id in table
    ensures PhasesAt(table, requests + [r], |requests|, calls + Route(table, r), |calls|)
  {
  }

  /** Nothing is called beyond three phases for each request with a registered id. */
  lemma {:induction false} ThreeCallsEach<H, P>(table: map<U32, H>, requests: seq<Request<P>>)
    ensures |RouteAll(table, requests)| == 3 * Registered(table, requests)
  {
    if requests != [] {
      ThreeCallsEach(table, requests[..|requests| - 1]);
    }
  }

  /**
    A request with a registered id is handled by PreHandle, Handle and PostHandle of its
    handler, after the calls for the registered requests before it and before all others.
   */
  lemma {:induction false} HandledInOrder<H, P>(table: map<U32, H>, requests: seq<Request<P>>, i: nat)
    requires i < |requests| && requests[i].id in table
    ensures PhasesAt(table, requests, i, RouteAll(table, requests), 3 * Registered(table, requests[..i]))
    decreases |requests|
  {
    var before, r := requests[..|requests| - 1], requests[|requests| - 1];
    assert requests == before + [r];
    if i == |before| {
      ThreeCallsEach(table, before);
      PhasesAdded(table, before, r, RouteAll(table, before));
    } else {
      HandledInOrder(table, before, i);
      assert before[..i] == requests[..i];
      PhasesKept(table, before, r, i, RouteAll(table, before), Route(table, r), 3 * Registered(table, requests[..i]));
    }
  }

  // ---- The handler table ----

  datatype Registration<H> = Registration(id: U32, handler: H)

  /** The table after registrations made in this order, from an empty one */
  function TableOf<H>(registrations: seq<Registration<H>>): map<U32, H> {
    if registrations == [] then map[]
    else
      var n := |registrations| - 1;
      TableOf(registrations[..n])[registrations[n].id := registrations[n].handler]
  }

  predicate IsRegistered<H>(registrations: seq<Registration<H>>, id: U32) {
    exists i :: 0 <= i < |registrations| && registrations[i].id == id
  }

  /** An id maps to the handler of its last registration, and to nothing without one. */
  lemma {:induction false} LastRegistrationWins<H>(registrations: seq<Registration<H>>, id: U32)
    ensures id in TableOf(registrations) <==> IsRegistered(registrations, id)
    ensures forall i :: 0 <= i < |registrations| && registrations[i].id == id
              && (forall j :: i < j < |registrations| ==> registrations[j].id != id)
              ==> TableOf(registrations)[id] == registrations[i].handler
  {
    if registrations != [] {
      var n := |registrations| - 1;
      LastRegistrationWins(registrations[..n], id);
      assert forall i :: 0 <= i < n ==> registrations[i] == registrations[..n][i];
    }
  }
}
