/** Bounded retries: attempt numbers, the budget of trips through the retry queue, and
    what a settlement means, over every run. */
module Retries {
  import opened Media
  import opened Amqp
  import opened Processor
  import opened Pipeline
  import opened Integrity
  import opened Custody

  /** The number of attempts a message gets: at least one, whatever is configured. */
  function Attempts(cfg: Config, worker: Kind): nat {
    if Limit(cfg, worker) < 1 then 1 else Limit(cfg, worker)
  }

  // ---- one delivery attempt ----

  /** A handler's cause of failure agrees with its program point and with the verdict:
      it parks a permanent or malformed failure and the last attempt, and rejects only
      a transient failure with attempts to spare. */
  ghost predicate VerdictOk(cfg: Config, s: State, h: Handler) {
    && h.attempt >= 1
    && (h.cause.Permanent? ==> Expected(cfg, s, h.msg.id).None?)
    && match h.pc
       case SetFailed => h.msg.body.Wire? && (h.cause.Transient? || h.cause.Permanent?)
       case TellFailed => h.msg.body.Wire? && (h.cause.Transient? || h.cause.Permanent?)
       case Reject => h.msg.body.Wire? && h.cause.Transient? && h.attempt < Limit(cfg, h.worker)
       case Parking => ParkingCause(cfg, h)
       case AckParked => ParkingCause(cfg, h)
       case Raised => ParkingCause(cfg, h)
       case _ => h.cause.NoCause?
  }

  predicate ParkingCause(cfg: Config, h: Handler) {
    && !h.cause.NoCause?
    && (h.cause.Malformed? <==> h.msg.body.Garbage?)
    && (h.cause.Transient? ==> h.attempt >= Limit(cfg, h.worker))
  }

  /** Its message went attempt - 1 times around the loop, and no oftener than counted. */
  ghost predicate NumberOk(s: State, h: Handler) {
    && h.attempt >= 1
    && h.msg.deaths == LoopDeaths(WorkQueue(h.worker), h.attempt - 1)
    && h.attempt - 1 <= Tally(s, h.msg.id).trips
  }

  /** About to settle: a success was a completion; an OCR park, and a linked image park
      attempt, is on the books. */
  ghost predicate SettleOk(s: State, h: Handler) {
    && (h.pc.AckDone? ==> h.msg.id in s.everCompleted)
    && (h.pc.TellCompleted? ==> h.msg.id in s.everCompleted)
    && (h.pc.AckParked? && h.worker.Ocr? ==> Tally(s, h.msg.id).parked >= 1)
    && (h.pc.AckParked? && h.linked ==> Tally(s, h.msg.id).parkTries >= 1)
  }

  ghost predicate AttemptOk(cfg: Config, s: State, h: Handler) {
    VerdictOk(cfg, s, h) && NumberOk(s, h) && SettleOk(s, h)
  }

  ghost predicate AttemptsOk(cfg: Config, s: State) {
    forall k :: k in s.workers ==> AttemptOk(cfg, s, s.workers[k])
  }

  /** Counters of a message only go up. */
  ghost predicate Counts(s: State, t: State) {
    forall id :: Tally(s, id).trips <= Tally(t, id).trips && Tally(s, id).parked <= Tally(t, id).parked &&
      Tally(s, id).parkTries <= Tally(t, id).parkTries
  }

  lemma AttemptStable(cfg: Config, s: State, t: State, h: Handler)
    requires Grows(s, t) && Counts(s, t) && HandlerOk(cfg, s, h) && AttemptOk(cfg, s, h)
    ensures AttemptOk(cfg, t, h)
  {
    assert Expected(cfg, s, h.msg.id) == Expected(cfg, t, h.msg.id);
  }

  lemma OthersStable(cfg: Config, s: State, t: State, slot: nat)
    requires Grows(s, t) && Counts(s, t) && WorkersOk(cfg, s) && AttemptsOk(cfg, s)
    requires forall k :: k in t.workers && k != slot ==> k in s.workers && t.workers[k] == s.workers[k]
    requires slot in t.workers ==> AttemptOk(cfg, t, t.workers[slot])
    ensures AttemptsOk(cfg, t)
  {
    forall k | k in t.workers ensures AttemptOk(cfg, t, t.workers[k]) {
      if k != slot {
        AttemptStable(cfg, s, t, s.workers[k]);
      }
    }
  }

  lemma GoVerdict(cfg: Config, s: State, h: Handler, ok: bool, status: Option<Status>, data: Bytes)
    requires HandlerOk(cfg, s, h) && VerdictOk(cfg, s, h) && h.msg.body.Wire?
    requires !Settling(h.pc) && !h.pc.Raised? && !h.pc.Begin? && h.worker.Image?
    ensures VerdictOk(cfg, s, GoNext(cfg, h, ok, status, data))
  {
    assert h.pc.Transform? ==> Expected(cfg, s, h.msg.id) == Run(cfg.codec, JobOf(h), h.source);
  }

  lemma PyVerdict(cfg: Config, s: State, h: Handler, ok: bool, status: Option<Status>, data: Bytes)
    requires HandlerOk(cfg, s, h) && VerdictOk(cfg, s, h) && h.msg.body.Wire?
    requires !Settling(h.pc) && !h.pc.Raised? && !h.pc.Begin? && h.worker.Ocr?
    ensures VerdictOk(cfg, s, PyNext(cfg, h, ok, status, data))
  {
    assert h.pc.Transform? ==> Expected(cfg, s, h.msg.id) == Run(cfg.codec, JobOf(h), h.source);
  }

  lemma NextVerdict(cfg: Config, s: State, h: Handler, ok: bool, status: Option<Status>, data: Bytes)
    requires HandlerOk(cfg, s, h) && VerdictOk(cfg, s, h) && !Settling(h.pc) && !h.pc.Raised?
    ensures VerdictOk(cfg, s, Next(cfg, h, ok, status, data))
  {
    if h.msg.body.Wire? && !h.pc.Begin? {
      if h.worker.Image? {
        GoVerdict(cfg, s, h, ok, status, data);
      } else {
        PyVerdict(cfg, s, h, ok, status, data);
      }
    }
  }

  /** Where a success or a parked outcome can come from. */
  ghost predicate Origin(h: Handler, ok: bool, status: Option<Status>, h': Handler) {
    && (h'.pc.AckDone? ==> (h.pc.CheckStatus? && ok && status == Some(Completed)) || h.pc.TellCompleted?)
    && (h'.pc.TellCompleted? ==> h.pc.SetCompleted? && ok)
    && (h'.pc.AckParked? ==> h.pc.Parking? && (h.worker.Ocr? ==> ok))
  }

  lemma GoOrigin(cfg: Config, h: Handler, ok: bool, status: Option<Status>, data: Bytes, h': Handler)
    requires h.msg.body.Wire? && !Settling(h.pc) && h.worker.Image? && h' == GoNext(cfg, h, ok, status, data)
    requires !h.pc.Begin?
    ensures Origin(h, ok, status, h')
  {
  }

  lemma PyOrigin(cfg: Config, h: Handler, ok: bool, status: Option<Status>, data: Bytes, h': Handler)
    requires h.msg.body.Wire? && !Settling(h.pc) && h.worker.Ocr? && h' == PyNext(cfg, h, ok, status, data)
    requires !h.pc.Begin?
    ensures Origin(h, ok, status, h')
  {
  }

  lemma NextOrigin(cfg: Config, h: Handler, ok: bool, status: Option<Status>, data: Bytes, h': Handler)
    requires !Settling(h.pc) && !h.pc.Raised? && h' == Next(cfg, h, ok, status, data)
    requires h.msg.body.Garbage? ==> h.pc.Begin? || h.pc.Parking?
    ensures Origin(h, ok, status, h')
  {
    if h.msg.body.Wire? && !h.pc.Begin? {
      if h.worker.Image? {
        GoOrigin(cfg, h, ok, status, data, GoNext(cfg, h, ok, status, data));
      } else {
        PyOrigin(cfg, h, ok, status, data, PyNext(cfg, h, ok, status, data));
      }
    }
  }

  /** The books after an effect: only parking touches them. */
  lemma EffectCounts(s: State, h: Handler, reply: Reply)
    ensures Counts(s, Effected(s, h, reply))
    ensures forall id :: Tally(Effected(s, h, reply), id).trips == Tally(s, id).trips
    ensures h.pc.Parking? && h.linked ==> Tally(Effected(s, h, reply), h.msg.id).parkTries >= 1
    ensures h.pc.Parking? && SeenOk(s, h, reply) ==> Tally(Effected(s, h, reply), h.msg.id).parked >= 1
  {
    EffectFrame(s, h, reply);
  }

  lemma EffectCompletes(s: State, h: Handler, reply: Reply)
    requires h.msg.body.Wire? && h.pc.SetCompleted? && reply.Applied() && JobOf(h).id == h.msg.id && h.msg.id in s.jobs
    ensures h.msg.id in Effected(s, h, reply).everCompleted
  {
  }

  /** The handler's books are in order after its effect and move. */
  lemma MovedSettleOk(cfg: Config, s: State, h: Handler, reply: Reply, h': Handler, t: State)
    requires Inv(cfg, s) && HandlerOk(cfg, s, h) && AttemptOk(cfg, s, h) && !Settling(h.pc) && !h.pc.Raised?
    requires h' == Advance(cfg, s, h, reply) && t == Effected(s, h, reply)
    ensures SettleOk(t, h')
  {
    var ok := SeenOk(s, h, reply);
    EffectCounts(s, h, reply);
    NextMoves(cfg, h, ok, StatusRead(s, h), DataRead(s, h), h');
    NextOrigin(cfg, h, ok, StatusRead(s, h), DataRead(s, h), h');
    EffectedKeeps(cfg, s, h, reply, t);
    if h.msg.body.Wire? {
      assert SubmissionOk(s, h.msg.id, s.requests[h.msg.id]);
      if h'.pc.TellCompleted? {
        EffectCompletes(s, h, reply);
      }
    }
  }

  lemma EffectAttempts(cfg: Config, s: State, slot: nat, reply: Reply, u: State)
    requires Inv(cfg, s) && AttemptsOk(cfg, s) && Enabled(s, Work(slot, reply)) && !Settling(s.workers[slot].pc)
    requires u == Effect(cfg, s, slot, reply)
    ensures AttemptsOk(cfg, u)
  {
    var h := s.workers[slot];
    assert HandlerOk(cfg, s, h) && AttemptOk(cfg, s, h);
    var t := Effected(s, h, reply);
    var h' := Advance(cfg, s, h, reply);
    var ok := SeenOk(s, h, reply);
    EffectCounts(s, h, reply);
    EffectKeeps(cfg, s, slot, reply);
    NextMoves(cfg, h, ok, StatusRead(s, h), DataRead(s, h), h');
    NextVerdict(cfg, s, h, ok, StatusRead(s, h), DataRead(s, h));
    MovedSettleOk(cfg, s, h, reply, h', t);
    EffectFrame(s, h, reply);
    EffectAttemptsEnd(cfg, s, slot, h', t, u);
  }

  lemma EffectAttemptsEnd(cfg: Config, s: State, slot: nat, h': Handler, t: State, u: State)
    requires Grows(s, u) && Counts(s, t) && WorkersOk(cfg, s) && AttemptsOk(cfg, s) && t.workers == s.workers
    requires slot in s.workers && h'.msg == s.workers[slot].msg && h'.attempt == s.workers[slot].attempt
    requires h'.worker == s.workers[slot].worker
    requires VerdictOk(cfg, s, h') && SettleOk(t, h')
    requires u == t.(workers := t.workers[slot := h'], finished := u.finished)
    ensures AttemptsOk(cfg, u)
  {
    assert HandlerOk(cfg, s, s.workers[slot]) && AttemptOk(cfg, s, s.workers[slot]);
    SameBooks(t, u);
    MovedAttempt(cfg, s, s.workers[slot], h', t, u);
    OthersStable(cfg, s, u, slot);
  }

  lemma SameBooks(t: State, u: State)
    requires u.ledger == t.ledger
    ensures forall id :: Tally(u, id) == Tally(t, id)
  {
  }

  lemma MovedAttempt(cfg: Config, s: State, h: Handler, h': Handler, t: State, u: State)
    requires Grows(s, u) && Counts(s, t) && HandlerOk(cfg, s, h) && AttemptOk(cfg, s, h)
    requires h'.msg == h.msg && h'.attempt == h.attempt && h'.worker == h.worker
    requires VerdictOk(cfg, s, h') && SettleOk(t, h')
    requires u.ledger == t.ledger && u.everCompleted == t.everCompleted
    ensures AttemptOk(cfg, u, h')
  {
    assert Expected(cfg, u, h'.msg.id) == Expected(cfg, s, h'.msg.id);
  }

  // ---- one message ----

  /** What the books say about message id with its token at loc. In particular each
      start is paid for by the publish, a requeue or a trip, and trips are bounded. */
  ghost predicate TokenOk(cfg: Config, s: State, id: JobId, loc: Location) {
    var l := Tally(s, id);
    if loc.Unpublished? then l == Ledger(0, 0, 0, 0, 0)
    else
      && id in s.requests
      && var kind := KindOf(s.requests[id]);
         && l.trips <= Attempts(cfg, kind) - 1
         && l.starts + (if loc.Ready? then 1 else 0) == 1 + l.requeues + l.trips
         && match loc
            case Ready(c) =>
              if c.queue == RetryQueue
              then l.trips >= 1 && c.msg.deaths == WaitDeaths(WorkQueue(kind), l.trips)
              else c.msg.deaths == LoopDeaths(WorkQueue(kind), l.trips)
            case Held(k) => k in s.workers && s.workers[k].attempt == l.trips + 1
            case Gone =>
              id in s.settled &&
              if s.settled[id].Succeeded? then id in s.everCompleted
              else l.parkTries >= 1 && (kind.Ocr? ==> l.parked >= 1)
            case Unpublished => true
  }

  lemma TokenStable(cfg: Config, s: State, t: State, id: JobId, loc: Location)
    requires TokenOk(cfg, s, id, loc) && Grows(s, t) && At(s, id, loc)
    requires var l, m := Tally(s, id), Tally(t, id);
      l.starts == m.starts && l.trips == m.trips && l.requeues == m.requeues &&
      l.parked <= m.parked && l.parkTries <= m.parkTries && (loc.Unpublished? ==> l == m)
    requires loc.Held? ==> loc.slot in t.workers && t.workers[loc.slot].attempt == s.workers[loc.slot].attempt
    requires loc.Gone? ==> id in t.settled && t.settled[id] == s.settled[id]
    ensures TokenOk(cfg, t, id, loc)
  {
  }

  lemma EffectToken(cfg: Config, s: State, slot: nat, reply: Reply, id: JobId, loc: Location, u: State)
    requires Inv(cfg, s) && Enabled(s, Work(slot, reply)) && !Settling(s.workers[slot].pc)
    requires At(s, id, loc) && TokenOk(cfg, s, id, loc) && u == Effect(cfg, s, slot, reply)
    ensures TokenOk(cfg, u, id, loc)
  {
    var h := s.workers[slot];
    assert HandlerOk(cfg, s, h);
    EffectFrame(s, h, reply);
    EffectLedger(s, h, reply, id);
    NextMoves(cfg, h, SeenOk(s, h, reply), StatusRead(s, h), DataRead(s, h), Advance(cfg, s, h, reply));
    EffectKeeps(cfg, s, slot, reply);
    TokenStable(cfg, s, u, id, loc);
  }

  lemma EffectLedger(s: State, h: Handler, reply: Reply, id: JobId)
    ensures var l, m := Tally(s, id), Tally(Effected(s, h, reply), id);
      && l.starts == m.starts && l.trips == m.trips && l.requeues == m.requeues
      && l.parked <= m.parked && l.parkTries <= m.parkTries
      && (id != h.msg.id ==> l == m)
  {
    EffectFrame(s, h, reply);
  }

  lemma RejectBudget(cfg: Config, s: State, slot: nat, id: JobId, loc: Location)
    requires WorkersOk(cfg, s) && AttemptsOk(cfg, s) && At(s, id, loc) && TokenOk(cfg, s, id, loc)
    requires loc == Held(slot) && s.workers[slot].pc.Reject?
    ensures Tally(s, id).trips + 1 <= Attempts(cfg, KindOf(s.requests[id])) - 1
    ensures Died(s.workers[slot].msg, WorkQueue(s.workers[slot].worker), Rejected).deaths
      == WaitDeaths(WorkQueue(KindOf(s.requests[id])), Tally(s, id).trips + 1)
  {
    var h := s.workers[slot];
    HeldAttempt(cfg, s, slot, id, loc);
    TwoHops(WorkQueue(h.worker), Tally(s, id).trips);
  }

  lemma HeldAttempt(cfg: Config, s: State, slot: nat, id: JobId, loc: Location)
    requires WorkersOk(cfg, s) && AttemptsOk(cfg, s) && At(s, id, loc) && TokenOk(cfg, s, id, loc)
    requires loc == Held(slot) && s.workers[slot].pc.Reject?
    ensures var h, n := s.workers[slot], Tally(s, id).trips;
      && h.msg.id == id && h.worker == KindOf(s.requests[id])
      && n + 1 == h.attempt < Limit(cfg, h.worker) && h.msg.deaths == LoopDeaths(WorkQueue(h.worker), n)
  {
    var h := s.workers[slot];
    assert HandlerOk(cfg, s, h) && AttemptOk(cfg, s, h) && Holds(s, slot, id);
  }

  lemma RejectToken(cfg: Config, s: State, slot: nat, id: JobId, loc: Location, t: State)
    requires WorkersOk(cfg, s) && AttemptsOk(cfg, s) && At(s, id, loc) && TokenOk(cfg, s, id, loc)
    requires loc == Held(slot) && s.workers[slot].pc.Reject?
    requires t == Settle(s, slot)
    ensures TokenOk(cfg, t, id, NextLoc(s, Work(slot, Done), id, loc))
  {
    var h := s.workers[slot];
    var m := Died(h.msg, WorkQueue(h.worker), Rejected);
    RejectBudget(cfg, s, slot, id, loc);
    RejectBooks(s, slot, id, t);
    WaitingToken(cfg, s, t, id, m);
    assert NextLoc(s, Work(slot, Done), id, loc) == Ready(Copy(RetryQueue, m));
  }

  lemma RejectBooks(s: State, slot: nat, id: JobId, t: State)
    requires slot in s.workers && s.workers[slot].linked && s.workers[slot].msg.id == id && s.workers[slot].pc.Reject?
    requires t == Settle(s, slot)
    ensures t.requests == s.requests && Tally(t, id) == Tally(s, id).(trips := Tally(s, id).trips + 1)
  {
  }

  lemma WaitingToken(cfg: Config, s: State, t: State, id: JobId, m: Message)
    requires id in s.requests && t.requests == s.requests
    requires Tally(t, id) == Tally(s, id).(trips := Tally(s, id).trips + 1)
    requires Tally(s, id).starts == 1 + Tally(s, id).requeues + Tally(s, id).trips
    requires Tally(s, id).trips + 1 <= Attempts(cfg, KindOf(s.requests[id])) - 1
    requires m.deaths == WaitDeaths(WorkQueue(KindOf(s.requests[id])), Tally(s, id).trips + 1)
    ensures TokenOk(cfg, t, id, Ready(Copy(RetryQueue, m)))
  {
  }

  lemma AckToken(cfg: Config, s: State, slot: nat, id: JobId, loc: Location, t: State)
    requires Inv(cfg, s) && AttemptsOk(cfg, s) && At(s, id, loc) && TokenOk(cfg, s, id, loc)
    requires loc == Held(slot) && (s.workers[slot].pc.AckDone? || s.workers[slot].pc.AckParked?)
    requires t == Settle(s, slot)
    ensures TokenOk(cfg, t, id, Gone)
  {
    var h := s.workers[slot];
    assert HandlerOk(cfg, s, h) && AttemptOk(cfg, s, h) && Holds(s, slot, id);
    assert t.requests == s.requests && t.ledger == s.ledger && t.everCompleted == s.everCompleted;
  }

  lemma SettleToken(cfg: Config, s: State, slot: nat, id: JobId, loc: Location, t: State, next: Location)
    requires Inv(cfg, s) && AttemptsOk(cfg, s) && slot in s.workers && Settling(s.workers[slot].pc)
    requires At(s, id, loc) && TokenOk(cfg, s, id, loc)
    requires t == Settle(s, slot) && next == NextLoc(s, Work(slot, Done), id, loc)
    ensures TokenOk(cfg, t, id, next)
  {
    if loc == Held(slot) {
      if s.workers[slot].pc.Reject? {
        RejectToken(cfg, s, slot, id, loc, t);
      } else {
        AckToken(cfg, s, slot, id, loc, t);
      }
    } else {
      SettleElsewhere(cfg, s, slot, id, loc, t);
    }
  }

  lemma SettleElsewhere(cfg: Config, s: State, slot: nat, id: JobId, loc: Location, t: State)
    requires Inv(cfg, s) && slot in s.workers && Settling(s.workers[slot].pc) && loc != Held(slot)
    requires At(s, id, loc) && TokenOk(cfg, s, id, loc) && t == Settle(s, slot)
    ensures TokenOk(cfg, t, id, loc)
  {
    SettleKeeps(cfg, s, slot);
    assert !Holds(s, slot, id);
    TokenStable(cfg, s, t, id, loc);
  }

  lemma DeliverToken(cfg: Config, s: State, c: Copy, slot: nat, id: JobId, loc: Location, t: State, next: Location)
    requires Inv(cfg, s) && Enabled(s, Deliver(c, slot)) && At(s, id, loc) && TokenOk(cfg, s, id, loc)
    requires t == Apply(cfg, s, Deliver(c, slot)) && next == NextLoc(s, Deliver(c, slot), id, loc)
    ensures TokenOk(cfg, t, id, next)
  {
    DeliverKeeps(cfg, s, c, slot);
    assert CopyOk(s, c);
    if loc == Ready(c) {
      AttemptNumbering(c.queue, Tally(s, id).trips);
    } else {
      assert c.msg.id == id ==> Live(c, id);
      TokenStable(cfg, s, t, id, loc);
    }
  }

  lemma ExpireToken(cfg: Config, s: State, c: Copy, id: JobId, loc: Location, t: State, next: Location)
    requires Inv(cfg, s) && Enabled(s, Expire(c)) && At(s, id, loc) && TokenOk(cfg, s, id, loc)
    requires t == Apply(cfg, s, Expire(c)) && next == NextLoc(s, Expire(c), id, loc)
    ensures TokenOk(cfg, t, id, next)
  {
    ExpireKeeps(cfg, s, c);
    assert CopyOk(s, c);
    assert t.ledger == s.ledger && t.workers == s.workers && t.settled == s.settled && t.requests == s.requests;
    if loc == Ready(c) {
      TwoHops(WorkQueue(KindOf(s.requests[id])), Tally(s, id).trips - 1);
    } else {
      TokenStable(cfg, s, t, id, loc);
    }
  }

  lemma LossToken(cfg: Config, s: State, a: Action, slot: nat, id: JobId, loc: Location, t: State)
    requires WorkersOk(cfg, s) && AttemptsOk(cfg, s) && Enabled(s, a) && (a == Crash(slot) || a == Disconnect(slot))
    requires At(s, id, loc) && TokenOk(cfg, s, id, loc)
    requires Grows(s, t) && t == Requeue(s, s.workers[slot]).(workers := t.workers)
    requires forall k :: k != slot && k in s.workers ==> k in t.workers && t.workers[k] == s.workers[k]
    ensures TokenOk(cfg, t, id, NextLoc(s, a, id, loc))
  {
    var h := s.workers[slot];
    assert HandlerOk(cfg, s, h) && AttemptOk(cfg, s, h);
    if loc == Held(slot) {
      assert Holds(s, slot, id);
    } else {
      assert !Holds(s, slot, id);
      TokenStable(cfg, s, t, id, loc);
    }
  }

  lemma EnqueueToken(cfg: Config, s: State, id: JobId, m: Message, t: State)
    requires id == m.id && id in t.requests && m.deaths == []
    requires t.ledger == s.ledger[id := Ledger(0, 0, 0, 0, 0)]
    ensures TokenOk(cfg, t, id, Ready(Copy(WorkQueue(KindOf(t.requests[id])), m)))
  {
  }

  lemma GatewayToken(cfg: Config, s: State, i: JobId, reply: Reply, id: JobId, loc: Location, t: State, next: Location)
    requires Inv(cfg, s) && Enabled(s, Gateway(i, reply)) && At(s, id, loc) && TokenOk(cfg, s, id, loc)
    requires t == Serve(s, i, reply) && next == NextLoc(s, Gateway(i, reply), id, loc)
    ensures TokenOk(cfg, t, id, next)
  {
    assert SubmissionOk(s, i, s.requests[i]);
    if s.requests[i].pc.PublishJob? && reply.Applied() && i == id {
      EnqueueToken(cfg, s, id, FirstMessage(i, s.requests[i]), t);
    } else {
      GatewayKeeps(cfg, s, i, reply);
      ServeBooks(s, i, reply, id, t);
      TokenStable(cfg, s, t, id, loc);
    }
  }

  /** Serving a request leaves the books of every message it does not publish alone. */
  lemma ServeBooks(s: State, i: JobId, reply: Reply, id: JobId, t: State)
    requires i in s.requests && s.requests[i].Submission? && t == Serve(s, i, reply)
    requires i == id ==> !(s.requests[i].pc.PublishJob? && reply.Applied())
    ensures Tally(t, id) == Tally(s, id) && t.workers == s.workers && t.settled == s.settled
  {
    ServeFrame(s, i, reply, t);
  }

  lemma InjectToken(cfg: Config, s: State, i: JobId, kind: Kind, raw: Bytes, id: JobId, loc: Location, t: State,
                    next: Location)
    requires Inv(cfg, s) && Enabled(s, Inject(i, kind, raw)) && At(s, id, loc) && TokenOk(cfg, s, id, loc)
    requires t == Apply(cfg, s, Inject(i, kind, raw)) && next == NextLoc(s, Inject(i, kind, raw), id, loc)
    ensures TokenOk(cfg, t, id, next)
  {
    if i == id {
      EnqueueToken(cfg, s, id, FirstMessage(i, Foreign(kind, raw)), t);
    } else {
      InjectKeeps(cfg, s, i, kind, raw);
      TokenStable(cfg, s, t, id, loc);
    }
  }

  lemma WorkToken(cfg: Config, s: State, slot: nat, reply: Reply, id: JobId, loc: Location, t: State, next: Location)
    requires Inv(cfg, s) && AttemptsOk(cfg, s) && Enabled(s, Work(slot, reply))
    requires At(s, id, loc) && TokenOk(cfg, s, id, loc)
    requires t == Apply(cfg, s, Work(slot, reply)) && next == NextLoc(s, Work(slot, reply), id, loc)
    ensures TokenOk(cfg, t, id, next)
  {
    if Settling(s.workers[slot].pc) {
      SettleToken(cfg, s, slot, id, loc, t, next);
    } else {
      EffectToken(cfg, s, slot, reply, id, loc, t);
    }
  }

  lemma SubmitToken(cfg: Config, s: State, a: Action, id: JobId, loc: Location, t: State)
    requires Inv(cfg, s) && a.Submit? && Enabled(s, a) && At(s, id, loc) && TokenOk(cfg, s, id, loc)
    requires t == Apply(cfg, s, a)
    ensures TokenOk(cfg, t, id, loc)
  {
    SubmitKeeps(cfg, s, a);
    TokenStable(cfg, s, t, id, loc);
  }

  lemma StepToken(cfg: Config, s: State, a: Action, id: JobId, loc: Location, t: State, next: Location)
    requires Inv(cfg, s) && AttemptsOk(cfg, s) && At(s, id, loc) && TokenOk(cfg, s, id, loc)
    requires t == Step(cfg, s, a) && next == NextLoc(s, a, id, loc)
    ensures TokenOk(cfg, t, id, next)
  {
    if Enabled(s, a) {
      match a
      case Submit(_, _, _, _, _, _) => SubmitToken(cfg, s, a, id, loc, t);
      case Gateway(i, reply) => GatewayToken(cfg, s, i, reply, id, loc, t, next);
      case Inject(i, kind, raw) => InjectToken(cfg, s, i, kind, raw, id, loc, t, next);
      case Deliver(c, slot) => DeliverToken(cfg, s, c, slot, id, loc, t, next);
      case Expire(c) => ExpireToken(cfg, s, c, id, loc, t, next);
      case Work(slot, reply) => WorkToken(cfg, s, slot, reply, id, loc, t, next);
      case Crash(slot) => LostToken(cfg, s, a, slot, id, loc, t);
      case Disconnect(slot) => LostToken(cfg, s, a, slot, id, loc, t);
    }
  }

  lemma LostToken(cfg: Config, s: State, a: Action, slot: nat, id: JobId, loc: Location, t: State)
    requires Inv(cfg, s) && AttemptsOk(cfg, s) && Enabled(s, a) && (a == Crash(slot) || a == Disconnect(slot))
    requires At(s, id, loc) && TokenOk(cfg, s, id, loc) && t == Apply(cfg, s, a)
    ensures TokenOk(cfg, t, id, NextLoc(s, a, id, loc))
  {
    StepKeeps(cfg, s, a);
    LossIs(cfg, s, a, slot, t);
    LossToken(cfg, s, a, slot, id, loc, t);
  }

  lemma LossIs(cfg: Config, s: State, a: Action, slot: nat, t: State)
    requires Enabled(s, a) && (a == Crash(slot) || a == Disconnect(slot)) && t == Apply(cfg, s, a)
    ensures t == Requeue(s, s.workers[slot]).(workers := t.workers)
    ensures forall k :: k != slot && k in s.workers ==> k in t.workers && t.workers[k] == s.workers[k]
  {
  }

  // ---- every handler, every action ----

  lemma NewAttempt(cfg: Config, s: State, h: Handler)
    requires NumberOk(s, h) && h.pc.Begin? && h.cause.NoCause?
    ensures AttemptOk(cfg, s, h)
  {
  }

  lemma DeliverFrame(cfg: Config, s: State, c: Copy, slot: nat, t: State)
    requires Enabled(s, Deliver(c, slot)) && t == Apply(cfg, s, Deliver(c, slot))
    ensures Counts(s, t) && t.workers == s.workers[slot := t.workers[slot]]
    ensures forall id :: Tally(t, id).trips == Tally(s, id).trips
    ensures t.workers[slot] ==
      Handler(WorkerOf(c.queue), c.msg, AttemptOf(c.msg.deaths), true, Begin, NoCause, [], [], [])
  {
  }

  lemma DeliverAttempts(cfg: Config, s: State, c: Copy, slot: nat, t: State)
    requires Inv(cfg, s) && AttemptsOk(cfg, s) && Enabled(s, Deliver(c, slot))
    requires TokenOk(cfg, s, c.msg.id, Ready(c)) && t == Apply(cfg, s, Deliver(c, slot))
    ensures AttemptsOk(cfg, t)
  {
    DeliverKeeps(cfg, s, c, slot);
    DeliverFrame(cfg, s, c, slot, t);
    assert CopyOk(s, c);
    AttemptNumbering(c.queue, Tally(s, c.msg.id).trips);
    assert NumberOk(t, t.workers[slot]);
    NewAttempt(cfg, t, t.workers[slot]);
    OthersStable(cfg, s, t, slot);
  }

  lemma NotYetPublished(s: State, i: JobId)
    requires RequestsOk(s) && i in s.requests && s.requests[i].Submission? && !s.requests[i].pc.Answered?
    ensures i !in s.enqueued
  {
    assert SubmissionOk(s, i, s.requests[i]);
  }

  lemma SameHandlers(cfg: Config, s: State, t: State)
    requires WorkersOk(cfg, s) && AttemptsOk(cfg, s) && Grows(s, t) && Counts(s, t) && t.workers == s.workers
    ensures AttemptsOk(cfg, t)
  {
    forall k | k in t.workers ensures AttemptOk(cfg, t, t.workers[k]) {
      AttemptStable(cfg, s, t, s.workers[k]);
    }
  }

  lemma GatewayAttempts(cfg: Config, s: State, i: JobId, reply: Reply, t: State)
    requires Inv(cfg, s) && AttemptsOk(cfg, s) && Enabled(s, Gateway(i, reply)) && t == Serve(s, i, reply)
    requires i !in s.enqueued ==> Tally(s, i) == Ledger(0, 0, 0, 0, 0)
    ensures AttemptsOk(cfg, t)
  {
    GatewayKeeps(cfg, s, i, reply);
    NotYetPublished(s, i);
    ServeFrame(s, i, reply, t);
    SameHandlers(cfg, s, t);
  }

  lemma UnlinkedAttempt(cfg: Config, s: State, h: Handler, h': Handler)
    requires AttemptOk(cfg, s, h) && (h' == h || h' == h.(linked := false))
    ensures AttemptOk(cfg, s, h')
  {
  }

  lemma NoHandlerChange(cfg: Config, s: State, t: State)
    requires Inv(cfg, s) && AttemptsOk(cfg, s) && Grows(s, t) && Counts(s, t)
    requires forall k :: k in t.workers ==> k in s.workers
    requires forall k :: k in t.workers ==>
      t.workers[k] == s.workers[k] || t.workers[k] == s.workers[k].(linked := false)
    ensures AttemptsOk(cfg, t)
  {
    forall k | k in t.workers ensures AttemptOk(cfg, t, t.workers[k]) {
      AttemptStable(cfg, s, t, s.workers[k]);
      UnlinkedAttempt(cfg, t, s.workers[k], t.workers[k]);
    }
  }

  lemma SettleFrame(s: State, slot: nat, t: State)
    requires slot in s.workers && t == Settle(s, slot)
    ensures t.workers == s.workers - {slot} && Counts(s, t)
  {
  }

  lemma WorkAttempts(cfg: Config, s: State, slot: nat, reply: Reply, t: State)
    requires Inv(cfg, s) && AttemptsOk(cfg, s) && Enabled(s, Work(slot, reply))
    requires t == Apply(cfg, s, Work(slot, reply))
    ensures AttemptsOk(cfg, t)
  {
    if Settling(s.workers[slot].pc) {
      SettleKeeps(cfg, s, slot);
      SettleFrame(s, slot, t);
      NoHandlerChange(cfg, s, t);
    } else {
      EffectAttempts(cfg, s, slot, reply, t);
    }
  }

  lemma OtherWorkers(cfg: Config, s: State, a: Action, t: State)
    requires Enabled(s, a) && !a.Work? && !a.Deliver? && t == Apply(cfg, s, a)
    ensures forall k :: k in t.workers ==>
      k in s.workers && (t.workers[k] == s.workers[k] || t.workers[k] == s.workers[k].(linked := false))
  {
    if a.Gateway? {
      ServeFrame(s, a.id, a.reply, t);
    }
  }

  lemma OtherCounts(cfg: Config, s: State, a: Action, t: State)
    requires RequestsOk(s) && Enabled(s, a) && !a.Work? && !a.Deliver? && !a.Gateway? && t == Apply(cfg, s, a)
    requires forall id :: id !in s.enqueued ==> Tally(s, id) == Ledger(0, 0, 0, 0, 0)
    ensures Counts(s, t)
  {
    if a.Inject? {
      InjectCounts(cfg, s, a, t);
    } else if a.Crash? || a.Disconnect? {
      LossCounts(cfg, s, a, t);
    } else {
      SameLedger(cfg, s, a, t);
    }
  }

  lemma BookCounts(s: State, t: State, id: JobId, l: Ledger)
    requires t.ledger == s.ledger[id := l]
    requires var k := Tally(s, id); k.trips <= l.trips && k.parked <= l.parked && k.parkTries <= l.parkTries
    ensures Counts(s, t)
  {
  }

  lemma InjectCounts(cfg: Config, s: State, a: Action, t: State)
    requires RequestsOk(s) && Enabled(s, a) && a.Inject? && t == Apply(cfg, s, a)
    requires forall id :: id !in s.enqueued ==> Tally(s, id) == Ledger(0, 0, 0, 0, 0)
    ensures Counts(s, t)
  {
    assert a.id !in s.enqueued;
    BookCounts(s, t, a.id, Ledger(0, 0, 0, 0, 0));
  }

  lemma LossCounts(cfg: Config, s: State, a: Action, t: State)
    requires Enabled(s, a) && (a.Crash? || a.Disconnect?) && t == Apply(cfg, s, a)
    ensures Counts(s, t)
  {
    var h := s.workers[a.slot];
    if h.linked {
      var l := Tally(s, h.msg.id);
      BookCounts(s, t, h.msg.id, l.(requeues := l.requeues + 1));
    } else {
      assert t.ledger == s.ledger;
    }
  }

  lemma SameLedger(cfg: Config, s: State, a: Action, t: State)
    requires Enabled(s, a) && (a.Submit? || a.Expire?) && t == Apply(cfg, s, a)
    ensures Counts(s, t)
  {
    assert t.ledger == s.ledger;
  }

  lemma GatewayCounts(s: State, i: JobId, reply: Reply, t: State)
    requires RequestsOk(s) && i in s.requests && s.requests[i].Submission? && t == Serve(s, i, reply)
    requires i !in s.enqueued ==> Tally(s, i) == Ledger(0, 0, 0, 0, 0)
    ensures Counts(s, t)
  {
    ServeFrame(s, i, reply, t);
    assert SubmissionOk(s, i, s.requests[i]);
    if s.requests[i].pc.PublishJob? && reply.Applied() {
      BookCounts(s, t, i, Ledger(0, 0, 0, 0, 0));
    }
  }

  /** No action takes a count back. */
  lemma StepCounts(cfg: Config, s: State, a: Action, t: State)
    requires RequestsOk(s) && t == Step(cfg, s, a)
    requires forall id :: id !in s.enqueued ==> Tally(s, id) == Ledger(0, 0, 0, 0, 0)
    ensures Counts(s, t)
  {
    if Enabled(s, a) {
      if a.Gateway? {
        GatewayCounts(s, a.id, a.reply, t);
      } else if a.Deliver? {
        DeliverFrame(cfg, s, a.copy, a.slot, t);
      } else if a.Work? {
        WorkCounts(cfg, s, a.slot, a.reply, t);
      } else {
        OtherCounts(cfg, s, a, t);
      }
    }
  }

  lemma WorkCounts(cfg: Config, s: State, slot: nat, reply: Reply, t: State)
    requires Enabled(s, Work(slot, reply)) && t == Apply(cfg, s, Work(slot, reply))
    ensures Counts(s, t)
  {
    if Settling(s.workers[slot].pc) {
      SettleFrame(s, slot, t);
    } else {
      EffectCounts(s, s.workers[slot], reply);
    }
  }

  lemma StepAttempts(cfg: Config, s: State, a: Action, t: State)
    requires Inv(cfg, s) && AttemptsOk(cfg, s) && t == Step(cfg, s, a)
    requires a.Deliver? && Enabled(s, a) ==> TokenOk(cfg, s, a.copy.msg.id, Ready(a.copy))
    requires forall id :: id !in s.enqueued ==> Tally(s, id) == Ledger(0, 0, 0, 0, 0)
    ensures AttemptsOk(cfg, t)
  {
    if Enabled(s, a) {
      if a.Gateway? {
        GatewayAttempts(cfg, s, a.id, a.reply, t);
      } else if a.Deliver? {
        DeliverAttempts(cfg, s, a.copy, a.slot, t);
      } else if a.Work? {
        WorkAttempts(cfg, s, a.slot, a.reply, t);
      } else {
        StepKeeps(cfg, s, a);
        OtherWorkers(cfg, s, a, t);
        OtherCounts(cfg, s, a, t);
        NoHandlerChange(cfg, s, t);
      }
    }
  }

  /** All of the above, after every run. */
  lemma {:induction false} BooksBalance(cfg: Config, run: seq<Action>)
    ensures AttemptsOk(cfg, Exec(cfg, run))
    ensures forall id :: TokenOk(cfg, Exec(cfg, run), id, Where(cfg, run, id))
  {
    if run != [] {
      var n := |run| - 1;
      var s, a, t := Exec(cfg, run[..n]), run[n], Exec(cfg, run);
      BooksBalance(cfg, run[..n]);
      Reachable(cfg, run[..n]);
      forall id
        ensures TokenOk(cfg, t, id, Where(cfg, run, id))
        ensures id !in s.enqueued ==> Tally(s, id) == Ledger(0, 0, 0, 0, 0)
      {
        var loc := Where(cfg, run[..n], id);
        TokenIsThere(cfg, run[..n], id);
        StepToken(cfg, s, a, id, loc, t, NextLoc(s, a, id, loc));
      }
      if a.Deliver? && Enabled(s, a) {
        TokenIsThere(cfg, run[..n], a.copy.msg.id);
        assert Live(a.copy, a.copy.msg.id);
      }
      StepAttempts(cfg, s, a, t);
    }
  }
}
