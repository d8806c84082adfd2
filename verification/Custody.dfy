/** Conservation of messages: from publish to settlement every message has exactly one
    live token, which sits in its own work queue, in the retry queue, or with one
    worker. The token's path is a function of the run, so later modules can follow it. */
module Custody {
  import opened Media
  import opened Amqp
  import opened Pipeline
  import opened Integrity

  datatype Location = Unpublished | Ready(copy: Copy) | Held(slot: nat) | Gone

  predicate Live(c: Copy, id: JobId) { c.msg.id == id && c.queue != ParkingQueue }

  predicate Holds(s: State, k: nat, id: JobId) {
    k in s.workers && s.workers[k].linked && s.workers[k].msg.id == id
  }

  /** The token of message id is at loc and nowhere else. */
  ghost predicate At(s: State, id: JobId, loc: Location) {
    && (forall c :: c in s.copies && Live(c, id) ==> loc == Ready(c) && s.copies[c] == 1)
    && (forall k :: k in s.workers && Holds(s, k, id) ==> loc == Held(k))
    && (id in s.settled <==> loc.Gone?)
    && (id in s.enqueued <==> !loc.Unpublished?)
    && (loc.Ready? ==> loc.copy in s.copies && Live(loc.copy, id))
    && (loc.Held? ==> Holds(s, loc.slot, id))
  }

  /** The message a request publishes. */
  function FirstMessage(id: JobId, r: Request): Message {
    match r
    case Submission(job, _, _) => Message(id, Wire(job), RoutingKey(job.kind), [])
    case Foreign(kind, raw) => Message(id, Garbage(raw), RoutingKey(kind), [])
  }

  /** Where an action takes the token. */
  function NextLoc(s: State, a: Action, id: JobId, loc: Location): Location {
    if !Enabled(s, a) then loc
    else
      match a
      case Gateway(i, reply) =>
        if i == id && s.requests[i].pc.PublishJob? && reply.Applied()
        then Ready(Copy(WorkQueue(s.requests[i].job.kind), FirstMessage(i, s.requests[i])))
        else loc
      case Inject(i, kind, raw) =>
        if i == id then Ready(Copy(WorkQueue(kind), FirstMessage(i, Foreign(kind, raw)))) else loc
      case Deliver(c, slot) => if loc == Ready(c) then Held(slot) else loc
      case Expire(c) =>
        if loc == Ready(c) && c.msg.id in s.requests
        then Ready(Copy(WorkQueue(KindOf(s.requests[c.msg.id])), Died(c.msg, RetryQueue, Expired)))
        else loc
      case Work(slot, _) =>
        var h := s.workers[slot];
        if loc != Held(slot) || !Settling(h.pc) then loc
        else if h.pc.Reject? then Ready(Copy(RetryQueue, Died(h.msg, WorkQueue(h.worker), Rejected)))
        else Gone
      case Crash(slot) =>
        if loc == Held(slot) then Ready(Copy(WorkQueue(s.workers[slot].worker), s.workers[slot].msg)) else loc
      case Disconnect(slot) =>
        if loc == Held(slot) then Ready(Copy(WorkQueue(s.workers[slot].worker), s.workers[slot].msg)) else loc
      case Submit(_, _, _, _, _, _) => loc
  }

  /** The token's place after a run. */
  function Where(cfg: Config, run: seq<Action>, id: JobId): Location {
    if run == [] then Unpublished
    else
      var n := |run| - 1;
      NextLoc(Exec(cfg, run[..n]), run[n], id, Where(cfg, run[..n], id))
  }

  /** The run takes the token of message id to loc; stated like Reaches. */
  ghost predicate Located(cfg: Config, run: seq<Action>, id: JobId, loc: Location) {
    forall r: seq<Action> :: r == run ==> Where(cfg, r, id) == loc
  }

  // ---- every action moves the token as said ----

  /** Neither copies, holders nor settlements of id change. */
  lemma Untouched(s: State, t: State, id: JobId, loc: Location)
    requires At(s, id, loc)
    requires forall c :: Live(c, id) ==> t.copies[c] == s.copies[c]
    requires forall k :: Holds(t, k, id) <==> Holds(s, k, id)
    requires id in t.settled <==> id in s.settled
    requires id in t.enqueued <==> id in s.enqueued
    ensures At(t, id, loc)
  {
    forall c | c in t.copies && Live(c, id) ensures loc == Ready(c) && t.copies[c] == 1 {
      assert c in s.copies;
    }
  }

  /** The token becomes a fresh copy in a queue: no one else holds it. */
  lemma BecomesReady(s: State, t: State, id: JobId, c: Copy)
    requires Live(c, id) && t.copies[c] == 1
    requires forall d :: Live(d, id) && d != c ==> t.copies[d] == 0
    requires forall k :: !Holds(t, k, id)
    requires id !in t.settled && id in t.enqueued
    ensures At(t, id, Ready(c))
  {
  }

  lemma NoCopies(s: State, id: JobId, loc: Location)
    requires At(s, id, loc) && !loc.Ready?
    ensures forall c :: Live(c, id) ==> s.copies[c] == 0
  {
    forall c | Live(c, id) ensures s.copies[c] == 0 {
      if c in s.copies {
        assert false;
      }
    }
  }

  lemma EnqueueMoves(s: State, id: JobId, loc: Location, m: Message, kind: Kind, t: State)
    requires At(s, id, loc) && m.key == RoutingKey(kind) && m.id !in s.enqueued
    requires t.copies == s.copies + Published(JobsExchange, m) && t.workers == s.workers
    requires t.settled == s.settled && t.enqueued == s.enqueued + {m.id}
    ensures At(t, id, if m.id == id then Ready(Copy(WorkQueue(kind), m)) else loc)
  {
    PublishedToWork(m, kind);
    if m.id == id {
      NoCopies(s, id, loc);
      BecomesReady(s, t, id, Copy(WorkQueue(kind), m));
    } else {
      Untouched(s, t, id, loc);
    }
  }

  lemma DeliverMoves(s: State, id: JobId, loc: Location, c: Copy, slot: nat, t: State)
    requires At(s, id, loc) && c in s.copies && slot !in s.workers && c.queue != ParkingQueue
    requires t.copies == s.copies - multiset{c}
    requires slot in t.workers && t.workers == s.workers[slot := t.workers[slot]]
    requires t.workers[slot].linked && t.workers[slot].msg == c.msg
    requires t.settled == s.settled && t.enqueued == s.enqueued
    ensures At(t, id, if loc == Ready(c) then Held(slot) else loc)
  {
    if c.msg.id == id {
      assert Live(c, id);
    } else {
      Untouched(s, t, id, loc);
    }
  }

  /** A ready copy c is exchanged for another, d. */
  lemma ExchangeMoves(s: State, id: JobId, loc: Location, c: Copy, d: Copy, t: State)
    requires At(s, id, loc) && c in s.copies && d.msg.id == c.msg.id
    requires c.queue != ParkingQueue && d.queue != ParkingQueue
    requires t.copies == s.copies - multiset{c} + multiset{d} && t.workers == s.workers
    requires t.settled == s.settled && t.enqueued == s.enqueued
    ensures At(t, id, if loc == Ready(c) then Ready(d) else loc)
  {
    if c.msg.id == id {
      assert Live(c, id) && loc == Ready(c);
      forall e | Live(e, id) && e != d ensures t.copies[e] == 0 {
        if e in s.copies {
          assert e == c;
        }
      }
      BecomesReady(s, t, id, d);
    } else {
      Untouched(s, t, id, loc);
    }
  }

  /** Handler slot gives the delivery up, to copy d if it was linked. */
  lemma GiveUpMoves(s: State, id: JobId, loc: Location, slot: nat, d: Copy, t: State)
    requires At(s, id, loc) && slot in s.workers
    requires d.msg.id == s.workers[slot].msg.id && d.queue != ParkingQueue
    requires t.copies == if s.workers[slot].linked then s.copies + multiset{d} else s.copies
    requires forall k :: k != slot ==> (k in t.workers <==> k in s.workers)
    requires forall k :: k in t.workers && k != slot ==> t.workers[k] == s.workers[k]
    requires slot in t.workers ==> !t.workers[slot].linked
    requires t.settled == s.settled && t.enqueued == s.enqueued
    ensures At(t, id, if loc == Held(slot) then Ready(d) else loc)
  {
    if loc == Held(slot) {
      assert Holds(s, slot, id);
      NoCopies(s, id, loc);
      BecomesReady(s, t, id, d);
    } else {
      assert !Holds(s, slot, id);
      Untouched(s, t, id, loc);
    }
  }

  lemma SettleMoves(s: State, id: JobId, loc: Location, slot: nat)
    requires At(s, id, loc) && slot in s.workers && Settling(s.workers[slot].pc)
    ensures At(Settle(s, slot), id, NextLoc(s, Work(slot, Done), id, loc))
  {
    var t := Settle(s, slot);
    var h := s.workers[slot];
    if h.pc.Reject? {
      var m := Died(h.msg, WorkQueue(h.worker), Rejected);
      PublishedToHop(RetryExchange, m);
      GiveUpMoves(s, id, loc, slot, Copy(RetryQueue, m), t);
    } else if loc == Held(slot) {
      assert Holds(s, slot, id);
      NoCopies(s, id, loc);
    } else {
      assert !Holds(s, slot, id);
      Untouched(s, t, id, loc);
    }
  }

  /** Effects short of settling leave every token where it is: parking adds a copy to
      the parking queue only. */
  lemma EffectStays(cfg: Config, s: State, id: JobId, loc: Location, slot: nat, reply: Reply)
    requires At(s, id, loc) && slot in s.workers && !Settling(s.workers[slot].pc) && !s.workers[slot].pc.Raised?
    ensures At(Effect(cfg, s, slot, reply), id, loc)
  {
    var t := Effect(cfg, s, slot, reply);
    var h := s.workers[slot];
    NextMoves(cfg, h, SeenOk(s, h, reply), StatusRead(s, h), DataRead(s, h), Advance(cfg, s, h, reply));
    EffectFrame(s, h, reply);
    Untouched(s, t, id, loc);
  }

  lemma PerformStoreFrame(s: State, h: Handler, t: State)
    requires h.msg.body.Wire? && t == PerformStore(s, h)
    ensures t.copies == s.copies && t.requests == s.requests && t.workers == s.workers && t.events == s.events
    ensures t.enqueued == s.enqueued && t.settled == s.settled && t.ledger == s.ledger && t.finished == s.finished
  {
    if Written(h.pc).Some? {
      PerformWrite(s, h);
    } else {
      StoredFrame(s, h, t);
    }
  }

  lemma StoredFrame(s: State, h: Handler, t: State)
    requires h.msg.body.Wire? && t == PerformStore(s, h) && Written(h.pc).None?
    ensures t.copies == s.copies && t.requests == s.requests && t.workers == s.workers && t.events == s.events
    ensures t.enqueued == s.enqueued && t.settled == s.settled && t.ledger == s.ledger && t.finished == s.finished
  {
    if h.pc.Put? {
      assert t == s.(objects := t.objects);
    } else if h.pc.Record? {
      assert t == s.(artifacts := t.artifacts);
    } else {
      assert t == s;
    }
  }

  lemma EffectFrame(s: State, h: Handler, reply: Reply)
    ensures var t := Effected(s, h, reply);
      && t.workers == s.workers && t.settled == s.settled && t.enqueued == s.enqueued
      && t.requests == s.requests && t.finished == s.finished
      && (forall c: Copy :: c.queue != ParkingQueue ==> t.copies[c] == s.copies[c])
      && (t.ledger == s.ledger || (h.pc.Parking? && h.linked))
  {
    if h.pc.Parking? {
      PublishedToHop(ParkingExchange, h.msg.(deaths := []));
    } else if h.msg.body.Wire? && !Telling(h.pc) && reply.Applied() {
      assert s == s.(ledger := s.ledger);
      PerformStoreFrame(s, h, PerformStore(s, h));
    }
  }

  /** What serving a request can change at all. */
  lemma ServeFrame(s: State, i: JobId, reply: Reply, t: State)
    requires i in s.requests && s.requests[i].Submission? && t == Serve(s, i, reply)
    ensures t.artifacts == s.artifacts && t.workers == s.workers && t.events == s.events
    ensures t.settled == s.settled && t.everCompleted == s.everCompleted && t.finished == s.finished
    ensures SameBroker(s, i, reply, t)
  {
    ServeBroker(s, i, reply, t);
    if s.requests[i].pc.PublishJob? {
      PublishFrame(s, i, reply, t);
    } else {
      StoreFrame(s, i, reply, t);
    }
  }

  lemma PublishFrame(s: State, i: JobId, reply: Reply, t: State)
    requires i in s.requests && s.requests[i].Submission? && s.requests[i].pc.PublishJob? && t == Serve(s, i, reply)
    ensures t.artifacts == s.artifacts && t.workers == s.workers && t.events == s.events
    ensures t.settled == s.settled && t.everCompleted == s.everCompleted && t.finished == s.finished
  {
  }

  lemma StoreFrame(s: State, i: JobId, reply: Reply, t: State)
    requires i in s.requests && s.requests[i].Submission? && !s.requests[i].pc.PublishJob? && t == Serve(s, i, reply)
    ensures t.artifacts == s.artifacts && t.workers == s.workers && t.events == s.events
    ensures t.settled == s.settled && t.everCompleted == s.everCompleted && t.finished == s.finished
  {
    match s.requests[i].pc
    case StoreUpload =>
    case InsertRow =>
    case Answered(_) =>
  }

  /** Only a publish that takes effect touches the queues and the books. */
  predicate SameBroker(s: State, i: JobId, reply: Reply, t: State)
    requires i in s.requests && s.requests[i].Submission?
  {
    if s.requests[i].pc.PublishJob? && reply.Applied() then t.ledger == s.ledger[i := Ledger(0, 0, 0, 0, 0)]
    else t.ledger == s.ledger && t.copies == s.copies && t.enqueued == s.enqueued
  }

  lemma ServeBroker(s: State, i: JobId, reply: Reply, t: State)
    requires i in s.requests && s.requests[i].Submission? && t == Serve(s, i, reply)
    ensures SameBroker(s, i, reply, t)
  {
    if !s.requests[i].pc.PublishJob? {
      ServeStores(s, i, reply, t);
    }
  }

  lemma ServeStores(s: State, i: JobId, reply: Reply, t: State)
    requires i in s.requests && s.requests[i].Submission? && !s.requests[i].pc.PublishJob? && t == Serve(s, i, reply)
    ensures t.ledger == s.ledger && t.copies == s.copies && t.enqueued == s.enqueued
  {
  }

  lemma GatewayMoves(cfg: Config, s: State, i: JobId, reply: Reply, id: JobId, loc: Location)
    requires Inv(cfg, s) && At(s, id, loc) && Enabled(s, Gateway(i, reply))
    ensures At(Serve(s, i, reply), id, NextLoc(s, Gateway(i, reply), id, loc))
  {
    var t := Serve(s, i, reply);
    ServeFrame(s, i, reply, t);
    if s.requests[i].pc.PublishJob? && reply.Applied() {
      assert SubmissionOk(s, i, s.requests[i]);
      EnqueueMoves(s, id, loc, FirstMessage(i, s.requests[i]), s.requests[i].job.kind, t);
    } else {
      Untouched(s, t, id, loc);
    }
  }

  lemma WorkMoves(cfg: Config, s: State, slot: nat, reply: Reply, id: JobId, loc: Location)
    requires Inv(cfg, s) && At(s, id, loc) && Enabled(s, Work(slot, reply))
    ensures At(Apply(cfg, s, Work(slot, reply)), id, NextLoc(s, Work(slot, reply), id, loc))
  {
    if Settling(s.workers[slot].pc) {
      SettleMoves(s, id, loc, slot);
    } else {
      EffectStays(cfg, s, id, loc, slot, reply);
    }
  }

  lemma LossMoves(cfg: Config, s: State, a: Action, slot: nat, id: JobId, loc: Location)
    requires At(s, id, loc) && Enabled(s, a) && (a == Crash(slot) || a == Disconnect(slot))
    ensures At(Apply(cfg, s, a), id, NextLoc(s, a, id, loc))
  {
    var h := s.workers[slot];
    var t := Apply(cfg, s, a);
    assert slot in t.workers ==> !t.workers[slot].linked;
    GiveUpMoves(s, id, loc, slot, Copy(WorkQueue(h.worker), h.msg), t);
  }

  lemma ExpireMoves(cfg: Config, s: State, c: Copy, id: JobId, loc: Location)
    requires Inv(cfg, s) && At(s, id, loc) && Enabled(s, Expire(c))
    ensures At(Apply(cfg, s, Expire(c)), id, NextLoc(s, Expire(c), id, loc))
  {
    assert CopyOk(s, c);
    var m := Died(c.msg, RetryQueue, Expired);
    PublishedToWork(m, KindOf(s.requests[m.id]));
    ExchangeMoves(s, id, loc, c, Copy(WorkQueue(KindOf(s.requests[m.id])), m), Apply(cfg, s, Expire(c)));
  }

  lemma InjectMoves(cfg: Config, s: State, i: JobId, kind: Kind, raw: Bytes, id: JobId, loc: Location)
    requires Inv(cfg, s) && At(s, id, loc) && Enabled(s, Inject(i, kind, raw))
    ensures At(Apply(cfg, s, Inject(i, kind, raw)), id, NextLoc(s, Inject(i, kind, raw), id, loc))
  {
    EnqueueMoves(s, id, loc, FirstMessage(i, Foreign(kind, raw)), kind, Apply(cfg, s, Inject(i, kind, raw)));
  }

  lemma StepMoves(cfg: Config, s: State, a: Action, id: JobId, loc: Location)
    requires Inv(cfg, s) && At(s, id, loc)
    ensures At(Step(cfg, s, a), id, NextLoc(s, a, id, loc))
  {
    if Enabled(s, a) {
      match a
      case Submit(_, _, _, _, _, _) => Untouched(s, Apply(cfg, s, a), id, loc);
      case Gateway(i, reply) => GatewayMoves(cfg, s, i, reply, id, loc);
      case Inject(i, kind, raw) => InjectMoves(cfg, s, i, kind, raw, id, loc);
      case Deliver(c, slot) => DeliverMoves(s, id, loc, c, slot, Apply(cfg, s, a));
      case Work(slot, reply) => WorkMoves(cfg, s, slot, reply, id, loc);
      case Crash(slot) => LossMoves(cfg, s, a, slot, id, loc);
      case Disconnect(slot) => LossMoves(cfg, s, a, slot, id, loc);
      case Expire(c) => ExpireMoves(cfg, s, c, id, loc);
    }
  }

  /** After every run the token of every message is where its path leads. */
  lemma {:induction false} TokenIsThere(cfg: Config, run: seq<Action>, id: JobId)
    ensures At(Exec(cfg, run), id, Where(cfg, run, id))
  {
    if run != [] {
      var n := |run| - 1;
      TokenIsThere(cfg, run[..n], id);
      Reachable(cfg, run[..n]);
      StepMoves(cfg, Exec(cfg, run[..n]), run[n], id, Where(cfg, run[..n], id));
    }
  }

  // ---- conservation, counted ----

  /** Number of copies of message id outside the parking queue. */
  function LiveCopies(s: State, id: JobId): multiset<Copy> {
    s.copies * multiset(set c | c in s.copies && Live(c, id))
  }

  function Holders(s: State, id: JobId): set<nat> { set k | k in s.workers && Holds(s, k, id) }

  /** Conservation: the live copies in the queues, the deliveries held by workers and
      the settlements of a published message always add up to one, and a live copy sits
      in the work queue of its own kind or in the retry queue. */
  lemma Conservation(cfg: Config, run: seq<Action>, id: JobId, s: State)
    requires Reaches(cfg, run, s)
    ensures |LiveCopies(s, id)| <= 1
    ensures |LiveCopies(s, id)| + |Holders(s, id)| + (if id in s.settled then 1 else 0)
      == (if id in s.enqueued then 1 else 0)
    ensures forall c :: c in LiveCopies(s, id) ==>
      id in s.requests && (c.queue == RetryQueue || c.queue == WorkQueue(KindOf(s.requests[id])))
  {
    var loc := Where(cfg, run, id);
    assert Exec(cfg, run) == s;
    TokenIsThere(cfg, run, id);
    Reachable(cfg, run);
    forall c | c in LiveCopies(s, id)
      ensures id in s.requests && (c.queue == RetryQueue || c.queue == WorkQueue(KindOf(s.requests[id])))
    {
      assert CopyOk(s, c);
    }
    CountedAt(s, id, loc);
  }

  lemma CountedAt(s: State, id: JobId, loc: Location)
    requires At(s, id, loc)
    ensures |LiveCopies(s, id)| == (if loc.Ready? then 1 else 0) && |Holders(s, id)| == (if loc.Held? then 1 else 0)
  {
    var live := set c | c in s.copies && Live(c, id);
    if loc.Ready? {
      assert live == {loc.copy};
      assert LiveCopies(s, id) == multiset{loc.copy};
    } else {
      assert live == {};
      assert LiveCopies(s, id) == multiset{};
    }
    assert Holders(s, id) == if loc.Held? then {loc.slot} else {};
  }
}
