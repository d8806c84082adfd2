/** Declaring the broker topology. All three services declare it when they start; a queue
    that exists with other arguments refuses a declaration. */
module Topologies {
  import opened Media
  import opened Amqp
  import Pipeline

  /** quorum: a quorum queue; dlx: where its dead letters go; ttl: of its messages, ms. */
  datatype QueueArgs = QueueArgs(quorum: bool, dlx: Option<Exchange>, ttl: Option<int>)

  function ArgsOf(q: Queue, ttl: int): QueueArgs {
    match q
    case RetryQueue => QueueArgs(false, Some(JobsExchange), Some(ttl))
    case ParkingQueue => QueueArgs(false, None, None)
    case _ => QueueArgs(true, Some(RetryExchange), None)
  }

  type Binding = (Queue, Exchange, string)

  const EXCHANGES: seq<Exchange> := [JobsExchange, EventsExchange, RetryExchange, ParkingExchange]
  const QUEUES: seq<Queue> := [ImageQueue, OcrQueue, RetryQueue, ParkingQueue]

  function AllExchanges(): set<Exchange> { set x | x in EXCHANGES }

  function BindingOf(q: Queue): Binding { (q, BoundTo(q), Pattern(q)) }

  /** The delays RabbitMQ takes: not negative, at most 32 bits unsigned. */
  predicate ValidTtl(ttl: int) { 0 <= ttl <= 0xFFFF_FFFF }

  predicate ValidArgs(args: QueueArgs) { args.ttl.Some? ==> ValidTtl(args.ttl.value) }

  /** The broker refuses the declaration: invalid arguments, or other ones than declared. */
  predicate Clashes(queues: map<Queue, QueueArgs>, q: Queue, ttl: int) {
    !ValidArgs(ArgsOf(q, ttl)) || (q in queues && queues[q] != ArgsOf(q, ttl))
  }

  datatype Declared = Declared(exchanges: set<Exchange>, queues: map<Queue, QueueArgs>, bindings: set<Binding>)

  /** The n first queues declared and bound. */
  function WithQueues(d: Declared, ttl: int, n: nat): Declared
    requires n <= |QUEUES|
  {
    if n == 0 then d
    else
      var e := WithQueues(d, ttl, n - 1);
      e.(queues := e.queues[QUEUES[n - 1] := ArgsOf(QUEUES[n - 1], ttl)],
         bindings := e.bindings + {BindingOf(QUEUES[n - 1])})
  }

  /** The first queue whose declaration is refused, or the number of queues. */
  function FirstClash(queues: map<Queue, QueueArgs>, ttl: int, from: nat): (n: nat)
    requires from <= |QUEUES|
    ensures from <= n <= |QUEUES| && (n < |QUEUES| ==> Clashes(queues, QUEUES[n], ttl))
    ensures forall k :: from <= k < n ==> !Clashes(queues, QUEUES[k], ttl)
    decreases |QUEUES| - from
  {
    if from == |QUEUES| || Clashes(queues, QUEUES[from], ttl) then from else FirstClash(queues, ttl, from + 1)
  }

  /** What one service's start leaves behind: it stops at the first refusal. */
  function Declare(d: Declared, ttl: int): Declared {
    WithQueues(d.(exchanges := d.exchanges + AllExchanges()), ttl, FirstClash(d.queues, ttl, 0))
  }

  predicate Starts(d: Declared, ttl: int) { FirstClash(d.queues, ttl, 0) == |QUEUES| }

  class Broker {
    var exchanges: set<Exchange>
    var queues: map<Queue, QueueArgs>
    var bindings: set<Binding>

    function State(): Declared
      reads this
    {
      Declared(exchanges, queues, bindings)
    }

    constructor ()
      ensures State() == Declared({}, map[], {})
    {
      exchanges, queues, bindings := {}, map[], {};
    }

    method QueueDeclare(q: Queue, args: QueueArgs) returns (ok: bool)
      modifies this`queues
      ensures ok <==> ValidArgs(args) && !(q in old(queues) && old(queues)[q] != args)
      ensures queues == if ok then old(queues)[q := args] else old(queues)
    {
      if !ValidArgs(args) {
        return false;
      }
      if q in queues {
        assert queues[q] == args ==> queues == queues[q := args];
        return queues[q] == args;
      }
      queues := queues[q := args];
      return true;
    }

    method DeclareTopology(ttl: int) returns (ok: bool)
      modifies this
      ensures State() == Declare(old(State()), ttl)
      ensures ok <==> Starts(old(State()), ttl)
      ensures old(State()) == EMPTY && 0 <= ttl <= 4294967295 ==> ok && State() == AllDeclared(ttl)
    {
      if State() == EMPTY && ValidTtl(ttl) {
        FirstStart(EMPTY, ttl);
        FullIsAll(ttl);
      }
      for i := 0 to |EXCHANGES|
        invariant exchanges == old(exchanges) + set k | 0 <= k < i :: EXCHANGES[k]
        invariant queues == old(queues) && bindings == old(bindings)
      {
        exchanges := exchanges + {EXCHANGES[i]};
      }
      assert AllExchanges() == set k | 0 <= k < |EXCHANGES| :: EXCHANGES[k];
      ghost var d := State();
      for i := 0 to |QUEUES|
        invariant State() == WithQueues(d, ttl, i)
        invariant forall k :: 0 <= k < i ==> !Clashes(d.queues, QUEUES[k], ttl)
      {
        QueuesSoFar(d, ttl, i);
        var declared := QueueDeclare(QUEUES[i], ArgsOf(QUEUES[i], ttl));
        if !declared {
          return false;
        }
        bindings := bindings + {BindingOf(QUEUES[i])};
      }
      return true;
    }
  }

  lemma {:induction false} QueuesSoFar(d: Declared, ttl: int, n: nat)
    requires n <= |QUEUES|
    ensures forall k :: n <= k < |QUEUES| ==>
      Clashes(WithQueues(d, ttl, n).queues, QUEUES[k], ttl) == Clashes(d.queues, QUEUES[k], ttl)
    ensures forall k :: 0 <= k < n ==>
      QUEUES[k] in WithQueues(d, ttl, n).queues && WithQueues(d, ttl, n).queues[QUEUES[k]] == ArgsOf(QUEUES[k], ttl)
      && BindingOf(QUEUES[k]) in WithQueues(d, ttl, n).bindings
  {
    if n > 0 {
      QueuesSoFar(d, ttl, n - 1);
    }
  }

  // ---- any number of services starting ----

  function StartAll(ttls: seq<int>): Declared {
    if ttls == [] then Declared({}, map[], {}) else Declare(StartAll(ttls[..|ttls| - 1]), ttls[|ttls| - 1])
  }

  const EMPTY: Declared := Declared({}, map[], {})

  /** The topology the protocol routes by, with the given retry delay. */
  function Full(ttl: int): Declared {
    Declared(AllExchanges(), map q | q in QUEUES :: ArgsOf(q, ttl), set q | q in QUEUES :: BindingOf(q))
  }

  /** What starts with invalid delays leave: everything up to the retry queue. */
  function WorkOnly(): Declared {
    Declared(AllExchanges(), map q | q in QUEUES[..2] :: ArgsOf(q, 0), set q | q in QUEUES[..2] :: BindingOf(q))
  }

  lemma Unrolled(d: Declared, ttl: int)
    ensures var two := WithQueues(d, ttl, 2);
      && two == d.(queues := d.queues[ImageQueue := ArgsOf(ImageQueue, ttl)][OcrQueue := ArgsOf(OcrQueue, ttl)],
                   bindings := d.bindings + {BindingOf(ImageQueue)} + {BindingOf(OcrQueue)})
      && WithQueues(d, ttl, 4) ==
           two.(queues := two.queues[RetryQueue := ArgsOf(RetryQueue, ttl)][ParkingQueue := ArgsOf(ParkingQueue, ttl)],
                bindings := two.bindings + {BindingOf(RetryQueue)} + {BindingOf(ParkingQueue)})
  {
    assert WithQueues(d, ttl, 0) == d;
    assert WithQueues(d, ttl, 1).queues == d.queues[QUEUES[0] := ArgsOf(QUEUES[0], ttl)];
    assert WithQueues(d, ttl, 3).queues == WithQueues(d, ttl, 2).queues[QUEUES[2] := ArgsOf(QUEUES[2], ttl)];
  }

  lemma ClashAt(d: Declared, ttl: int)
    requires !Clashes(d.queues, ImageQueue, ttl) && !Clashes(d.queues, OcrQueue, ttl)
    requires !Clashes(d.queues, ParkingQueue, ttl)
    ensures FirstClash(d.queues, ttl, 0) == if Clashes(d.queues, RetryQueue, ttl) then 2 else 4
  {
    assert QUEUES[0] == ImageQueue && QUEUES[1] == OcrQueue && QUEUES[2] == RetryQueue && QUEUES[3] == ParkingQueue;
  }

  /** A start before any retry queue was declared: with a valid delay it yields the full
      topology, and with an invalid one it fails at the retry queue. */
  lemma FirstStart(d: Declared, ttl: int)
    requires d == EMPTY || d == WorkOnly()
    ensures Starts(d, ttl) <==> 0 <= ttl <= 4294967295
    ensures Declare(d, ttl) == if 0 <= ttl <= 4294967295 then Full(ttl) else WorkOnly()
  {
    ClashAt(d, ttl);
    if ValidTtl(ttl) {
      FullOnce(d, ttl);
    } else {
      WorkOnce(d, ttl);
    }
  }

  lemma FullOnce(d: Declared, ttl: int)
    requires d == EMPTY || d == WorkOnly()
    ensures WithQueues(d.(exchanges := d.exchanges + AllExchanges()), ttl, 4) == Full(ttl)
  {
    var e := d.(exchanges := d.exchanges + AllExchanges());
    Unrolled(e, ttl);
    assert WithQueues(e, ttl, 4).queues == Full(ttl).queues;
    assert WithQueues(e, ttl, 4).bindings == Full(ttl).bindings;
  }

  lemma WorkOnce(d: Declared, ttl: int)
    requires d == EMPTY || d == WorkOnly()
    ensures WithQueues(d.(exchanges := d.exchanges + AllExchanges()), ttl, 2) == WorkOnly()
  {
    var e := d.(exchanges := d.exchanges + AllExchanges());
    assert QUEUES[..2] == [ImageQueue, OcrQueue];
    Unrolled(e, ttl);
    assert WithQueues(e, ttl, 2).queues == WorkOnly().queues;
    assert WithQueues(e, ttl, 2).bindings == WorkOnly().bindings;
  }

  /** On the full topology a start with the same delay changes nothing, and one with
      another delay is refused at the retry queue, also changing nothing. */
  lemma LaterStart(first: int, ttl: int)
    requires ValidTtl(first)
    ensures Starts(Full(first), ttl) <==> ttl == first
    ensures Declare(Full(first), ttl) == Full(first)
  {
    var f := Full(first);
    assert f.exchanges + AllExchanges() == f.exchanges;
    ClashAt(f, ttl);
    Unrolled(f, ttl);
    assert Declare(f, ttl).queues == f.queues;
    assert Declare(f, ttl).bindings == f.bindings;
  }

  function FirstValid(ttls: seq<int>): Option<int> {
    if ttls == [] then None
    else
      var before := FirstValid(ttls[..|ttls| - 1]);
      if before.None? && ValidTtl(ttls[|ttls| - 1]) then Some(ttls[|ttls| - 1]) else before
  }

  /** The services may start in any order and any number of times: the first valid delay
      fixes the topology for good, and from then on a service starts exactly if it has
      that delay. */
  lemma {:induction false} StartOrderIsImmaterial(ttls: seq<int>, ttl: int)
    ensures FirstValid(ttls).Some? ==> ValidTtl(FirstValid(ttls).value)
    ensures StartAll(ttls) ==
      match FirstValid(ttls)
      case Some(first) => Full(first)
      case None => if ttls == [] then EMPTY else WorkOnly()
    ensures Starts(StartAll(ttls), ttl) <==> ValidTtl(ttl) && (FirstValid(ttls).None? || ttl == FirstValid(ttls).value)
  {
    if ttls != [] {
      var n := |ttls| - 1;
      StartOrderIsImmaterial(ttls[..n], ttl);
      if FirstValid(ttls[..n]).Some? {
        LaterStart(FirstValid(ttls[..n]).value, ttls[n]);
      } else {
        FirstStart(StartAll(ttls[..n]), ttls[n]);
      }
    }
    if FirstValid(ttls).Some? {
      LaterStart(FirstValid(ttls).value, ttl);
    } else {
      FirstStart(StartAll(ttls), ttl);
    }
  }

  /** Every one of these starts succeeds, in this order. */
  ghost predicate AllStart(ttls: seq<int>) {
    ttls == [] || (AllStart(ttls[..|ttls| - 1]) && Starts(StartAll(ttls[..|ttls| - 1]), ttls[|ttls| - 1]))
  }

  lemma {:induction false} AllStartIff(ttls: seq<int>)
    ensures AllStart(ttls) <==> forall k :: 0 <= k < |ttls| ==> 0 <= ttls[k] <= 4294967295 && ttls[k] == ttls[0]
    ensures AllStart(ttls) && ttls != [] ==> FirstValid(ttls) == Some(ttls[0])
  {
    if ttls != [] {
      var n := |ttls| - 1;
      AllStartIff(ttls[..n]);
      StartOrderIsImmaterial(ttls[..n], ttls[n]);
      assert ttls == ttls[..n] + [ttls[n]];
    }
  }

  /** The Go services' delay is a constant of ten seconds. So among services of which at
      least one is a Go service, all start, in whatever order, if and only if every OCR
      worker is configured with ten seconds as well. */
  lemma StartBesideGo(ttls: seq<int>)
    requires 10_000 in ttls
    ensures AllStart(ttls) <==> forall ttl :: ttl in ttls ==> ttl == 10_000
  {
    AllStartIff(ttls);
    var k :| 0 <= k < |ttls| && ttls[k] == 10_000;
    assert forall i :: 0 <= i < |ttls| ==> ttls[i] in ttls;
    if AllStart(ttls) {
      assert ttls[0] == ttls[k];
    }
  }

  // ---- the topology, in full, and where it takes a message ----

  /** Everything the declarations name. */
  function AllDeclared(ttl: int): Declared {
    Declared(
      {JobsExchange, EventsExchange, RetryExchange, ParkingExchange},
      map[ImageQueue := QueueArgs(true, Some(RetryExchange), None),
          OcrQueue := QueueArgs(true, Some(RetryExchange), None),
          RetryQueue := QueueArgs(false, Some(JobsExchange), Some(ttl)),
          ParkingQueue := QueueArgs(false, None, None)],
      {(ImageQueue, JobsExchange, "image.process"), (OcrQueue, JobsExchange, "ocr.extract"),
       (RetryQueue, RetryExchange, "#"), (ParkingQueue, ParkingExchange, "#")})
  }

  lemma FullIsAll(ttl: int)
    ensures Full(ttl) == AllDeclared(ttl)
  {
    assert QUEUES == [ImageQueue, OcrQueue, RetryQueue, ParkingQueue];
    assert EXCHANGES == [JobsExchange, EventsExchange, RetryExchange, ParkingExchange];
    assert Full(ttl).exchanges == AllDeclared(ttl).exchanges;
    assert Full(ttl).queues == AllDeclared(ttl).queues;
    SameBindings(ttl);
  }

  lemma SameBindings(ttl: int)
    ensures Full(ttl).bindings == AllDeclared(ttl).bindings
  {
    assert QUEUES == [ImageQueue, OcrQueue, RetryQueue, ParkingQueue];
    forall b: Binding | b in AllDeclared(ttl).bindings ensures b in Full(ttl).bindings {
      assert b.0 in QUEUES && b == BindingOf(b.0);
    }
  }

  /** The queues a message published to x reaches by the bindings declared. */
  function RouteIn(d: Declared, x: Exchange, key: string): set<Queue> {
    set b | b in d.bindings && b.1 == x && Matches(Words(b.2), Words(key)) :: b.0
  }

  /** The queues a message that dies in q reaches along the dead-letter exchange declared
      for q. */
  function DeadLetterRoute(d: Declared, q: Queue, key: string): set<Queue>
    requires q in d.queues
  {
    match d.queues[q].dlx
    case None => {}
    case Some(x) => RouteIn(d, x, key)
  }

  lemma EveryQueue(q: Queue)
    ensures q in QUEUES
  {
    match q
    case ImageQueue => assert QUEUES[0] == q;
    case OcrQueue => assert QUEUES[1] == q;
    case RetryQueue => assert QUEUES[2] == q;
    case ParkingQueue => assert QUEUES[3] == q;
  }

  lemma BindingsAre(ttl: int, b: Binding)
    ensures b in Full(ttl).bindings <==> b == BindingOf(b.0)
  {
    EveryQueue(b.0);
  }

  lemma RouteInIs(ttl: int, x: Exchange, key: string)
    ensures RouteIn(Full(ttl), x, key) == Route(x, key)
  {
    var d := Full(ttl);
    forall q: Queue ensures q in RouteIn(d, x, key) <==> q in Route(x, key) {
      var own := BindingOf(q);
      BindingsAre(ttl, own);
      if q in RouteIn(d, x, key) {
        var b :| b in d.bindings && b.1 == x && Matches(Words(b.2), Words(key)) && b.0 == q;
        BindingsAre(ttl, b);
      }
    }
  }

  lemma DeclaredRoute(ttl: int, q: Queue, key: string)
    ensures q in Full(ttl).queues && Full(ttl).queues[q].dlx == DeadLetterExchange(q)
    ensures DeadLetterRoute(Full(ttl), q, key) ==
      match DeadLetterExchange(q) case None => {} case Some(x) => Route(x, key)
  {
    EveryQueue(q);
    if DeadLetterExchange(q).Some? {
      RouteInIs(ttl, DeadLetterExchange(q).value, key);
    }
  }

  /** The retry loop, by what is declared: whatever services started, in whatever order, as
      soon as one had a valid delay a message that dies in its work queue reaches the retry
      queue and no other, whatever its key; and when it dies there, exactly the work queue
      it came from. One that dies in the parking queue is gone. */
  lemma DeadLettersLoop(ttls: seq<int>, key: string)
    requires FirstValid(ttls).Some?
    ensures var d := StartAll(ttls);
      && d.queues.Keys == {ImageQueue, OcrQueue, RetryQueue, ParkingQueue}
      && DeadLetterRoute(d, ImageQueue, key) == {RetryQueue} && DeadLetterRoute(d, OcrQueue, key) == {RetryQueue}
      && DeadLetterRoute(d, RetryQueue, "image.process") == {ImageQueue}
      && DeadLetterRoute(d, RetryQueue, "ocr.extract") == {OcrQueue}
      && DeadLetterRoute(d, ParkingQueue, key) == {}
  {
    StartOrderIsImmaterial(ttls, 0);
    var ttl := FirstValid(ttls).value;
    AllQueues(ttl);
    LoopRoutes(ttl, key);
  }

  lemma AllQueues(ttl: int)
    ensures Full(ttl).queues.Keys == {ImageQueue, OcrQueue, RetryQueue, ParkingQueue}
  {
    FullIsAll(ttl);
    assert AllDeclared(ttl).queues.Keys == {ImageQueue, OcrQueue, RetryQueue, ParkingQueue};
  }

  lemma LoopRoutes(ttl: int, key: string)
    requires Full(ttl).queues.Keys == {ImageQueue, OcrQueue, RetryQueue, ParkingQueue}
    ensures var d := Full(ttl);
      && DeadLetterRoute(d, ImageQueue, key) == {RetryQueue} && DeadLetterRoute(d, OcrQueue, key) == {RetryQueue}
      && DeadLetterRoute(d, RetryQueue, "image.process") == {ImageQueue}
      && DeadLetterRoute(d, RetryQueue, "ocr.extract") == {OcrQueue}
      && DeadLetterRoute(d, ParkingQueue, key) == {}
  {
    DeclaredRoute(ttl, ImageQueue, key);
    DeclaredRoute(ttl, OcrQueue, key);
    DeclaredRoute(ttl, RetryQueue, "image.process");
    DeclaredRoute(ttl, RetryQueue, "ocr.extract");
    DeclaredRoute(ttl, ParkingQueue, key);
    HopRouting(RetryExchange, key);
    JobsRouting("image.process", Image);
    JobsRouting("ocr.extract", Ocr);
  }

  /** Nothing points nowhere: every exchange a queue is bound to or dead-letters into is
      declared, and every queue bound is, even after starts with invalid delays only. */
  lemma DeclaredClosed(ttls: seq<int>)
    ensures var d := StartAll(ttls);
      && (forall b :: b in d.bindings ==> b.0 in d.queues && b.1 in d.exchanges)
      && (forall q :: q in d.queues && d.queues[q].dlx.Some? ==> d.queues[q].dlx.value in d.exchanges)
  {
    StartOrderIsImmaterial(ttls, 0);
    if FirstValid(ttls).Some? {
      FullIsAll(FirstValid(ttls).value);
    } else if ttls != [] {
      assert QUEUES[..2] == [ImageQueue, OcrQueue] && RetryExchange in EXCHANGES && JobsExchange in EXCHANGES;
    }
  }

  /** Copies of a message that died in q, along the route declared. */
  function Reappearing(d: Declared, m: Pipeline.Message, q: Queue, r: Reason): multiset<Pipeline.Copy>
    requires q in d.queues
  {
    multiset(set q' | q' in DeadLetterRoute(d, q, m.key) :: Pipeline.Copy(q', m.(deaths := Die(m.deaths, q, r))))
  }

  lemma DiesAsDeclared(ttls: seq<int>, m: Pipeline.Message, q: Queue, r: Reason)
    requires FirstValid(ttls).Some?
    ensures q in StartAll(ttls).queues
    ensures Pipeline.DeadLettered(m, q, r) == Reappearing(StartAll(ttls), m, q, r)
  {
    StartOrderIsImmaterial(ttls, 0);
    DeclaredRoute(FirstValid(ttls).value, q, m.key);
  }

  /** The protocol's rejections and expiries follow the topology declared: a rejected
      delivery reappears along the declared route of its work queue, an expired copy along
      that of the retry queue, and no other copy changes. */
  lemma RejectFollowsTopology(ttls: seq<int>, cfg: Pipeline.Config, s: Pipeline.State, slot: nat, q: Queue)
    requires FirstValid(ttls).Some? && slot in s.workers && s.workers[slot].linked && s.workers[slot].pc.Reject?
    requires q == if s.workers[slot].worker.Image? then ImageQueue else OcrQueue
    ensures q in StartAll(ttls).queues
    ensures Pipeline.Step(cfg, s, Pipeline.Work(slot, Pipeline.Done)).copies ==
      s.copies + Reappearing(StartAll(ttls), s.workers[slot].msg, q, Rejected)
  {
    RejectCopies(cfg, s, slot, q);
    DiesAsDeclared(ttls, s.workers[slot].msg, q, Rejected);
  }

  lemma RejectCopies(cfg: Pipeline.Config, s: Pipeline.State, slot: nat, q: Queue)
    requires slot in s.workers && s.workers[slot].linked && s.workers[slot].pc.Reject?
    requires q == WorkQueue(s.workers[slot].worker)
    ensures Pipeline.Step(cfg, s, Pipeline.Work(slot, Pipeline.Done)).copies ==
      s.copies + Pipeline.DeadLettered(s.workers[slot].msg, q, Rejected)
  {
    assert Pipeline.Step(cfg, s, Pipeline.Work(slot, Pipeline.Done)) == Pipeline.Settle(s, slot);
  }

  lemma ExpiryFollowsTopology(ttls: seq<int>, cfg: Pipeline.Config, s: Pipeline.State, c: Pipeline.Copy)
    requires FirstValid(ttls).Some? && c in s.copies && c.queue.RetryQueue?
    ensures RetryQueue in StartAll(ttls).queues
    ensures Pipeline.Step(cfg, s, Pipeline.Expire(c)).copies ==
      s.copies - multiset{c} + Reappearing(StartAll(ttls), c.msg, RetryQueue, Expired)
  {
    ExpireCopies(cfg, s, c);
    DiesAsDeclared(ttls, c.msg, RetryQueue, Expired);
  }

  lemma ExpireCopies(cfg: Pipeline.Config, s: Pipeline.State, c: Pipeline.Copy)
    requires c in s.copies && c.queue.RetryQueue?
    ensures Pipeline.Step(cfg, s, Pipeline.Expire(c)).copies ==
      s.copies - multiset{c} + Pipeline.DeadLettered(c.msg, RetryQueue, Expired)
  {
  }
}
