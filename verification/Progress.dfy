/** Every message is settled: each run has only so many steps to spend on a message
    before it is settled, apart from crashes and lost connections, and as long as it is
    not settled some step for it can be taken. */
module Progress {
  import opened Media
  import opened Amqp
  import opened Processor
  import opened Pipeline
  import opened Integrity
  import opened Custody
  import opened Retries

  /** Upper bound on the outputs of one attempt. */
  function Width(r: Request): nat {
    match r
    case Submission(job, _, _) => if |job.operations| == 0 then 1 else |job.operations|
    case Foreign(_, _) => 1
  }

  /** Upper bound on the steps of one delivery attempt. */
  function AttemptSteps(r: Request): nat { 13 + 3 * Width(r) }

  /** Steps a handler can still take, at most. */
  function Rank(h: Handler, width: nat): nat {
    match h.pc
    case Begin => 13 + 3 * width
    case CheckStatus => 12 + 3 * width
    case SetProcessing => 11 + 3 * width
    case TellStart => 10 + 3 * width
    case Fetch => 9 + 3 * width
    case TellFetched => 8 + 3 * width
    case Transform => 7 + 3 * width
    case Put(i) => 6 + 3 * (if i < |h.outputs| then |h.outputs| - i else 0)
    case Record(i) => 5 + 3 * (if i < |h.outputs| then |h.outputs| - i else 0)
    case TellArtifact(i) => 4 + 3 * (if i < |h.outputs| then |h.outputs| - i else 0)
    case SetCompleted => 6
    case TellCompleted => 5
    case SetFailed => 4
    case TellFailed => 3
    case Parking => 2
    case Raised => 0
    case _ => 1
  }

  lemma GoRankDrops(cfg: Config, h: Handler, ok: bool, status: Option<Status>, data: Bytes, width: nat)
    requires h.msg.body.Wire? && !Settling(h.pc) && !h.pc.Begin? && !h.pc.Raised?
    requires h.pc.Put? || h.pc.Record? || h.pc.TellArtifact? ==> h.pc.i < |h.outputs| <= width
    requires h.pc.Transform? && Run(cfg.codec, JobOf(h), h.source).Some? ==>
      |Run(cfg.codec, JobOf(h), h.source).value| <= width
    ensures Rank(GoNext(cfg, h, ok, status, data), width) < Rank(h, width)
  {
  }

  lemma PyRankDrops(cfg: Config, h: Handler, ok: bool, status: Option<Status>, data: Bytes, width: nat)
    requires h.msg.body.Wire? && !Settling(h.pc) && !h.pc.Begin? && !h.pc.Raised?
    requires h.pc.Put? || h.pc.Record? || h.pc.TellArtifact? ==> h.pc.i < |h.outputs| <= width
    requires h.pc.Transform? && Run(cfg.codec, JobOf(h), h.source).Some? ==>
      |Run(cfg.codec, JobOf(h), h.source).value| <= width
    ensures Rank(PyNext(cfg, h, ok, status, data), width) < Rank(h, width)
  {
  }

  lemma OutputsFit(cfg: Config, s: State, h: Handler)
    requires HandlerOk(cfg, s, h) && h.msg.body.Wire?
    ensures HasOutputs(h.pc) ==> |h.outputs| <= Width(s.requests[h.msg.id])
    ensures h.pc.Put? || h.pc.Record? || h.pc.TellArtifact? ==> h.pc.i < |h.outputs|
    ensures h.pc.Transform? && Run(cfg.codec, JobOf(h), h.source).Some? ==>
      |Run(cfg.codec, JobOf(h), h.source).value| <= Width(s.requests[h.msg.id])
  {
    var r := s.requests[h.msg.id];
    RunIsBounded(cfg.codec, r.job, r.upload);
  }

  lemma RankDrops(cfg: Config, s: State, h: Handler, reply: Reply)
    requires HandlerOk(cfg, s, h) && !Settling(h.pc) && !h.pc.Raised?
    ensures var r := s.requests[h.msg.id];
      Rank(Advance(cfg, s, h, reply), Width(r)) < Rank(h, Width(r))
  {
    var width := Width(s.requests[h.msg.id]);
    var ok, status, data := SeenOk(s, h, reply), StatusRead(s, h), DataRead(s, h);
    if h.msg.body.Wire? && !h.pc.Begin? {
      OutputsFit(cfg, s, h);
      var go := if h.worker.Image? then GoNext(cfg, h, ok, status, data) else PyNext(cfg, h, ok, status, data);
      if h.worker.Image? {
        GoRankDrops(cfg, h, ok, status, data, width);
      } else {
        PyRankDrops(cfg, h, ok, status, data, width);
      }
      SameRank(go, Next(cfg, h, ok, status, data), width);
    }
  }

  lemma SameRank(h: Handler, h': Handler, width: nat)
    requires h'.pc == h.pc && h'.outputs == h.outputs
    ensures Rank(h', width) == Rank(h, width)
  {
  }

  // ---- the measure ----

  /** Steps still to be spent on message id with its token at loc, at most. A trip costs
      an attempt, a delivery and an expiry. */
  function Weight(cfg: Config, s: State, id: JobId, loc: Location): int {
    if id !in s.requests then 0
    else
      var r := s.requests[id];
      var steps := AttemptSteps(r);
      var left := Attempts(cfg, KindOf(r)) - 1 - Tally(s, id).trips;
      match loc
      case Ready(c) => left * (steps + 2) + steps + (if c.queue == RetryQueue then 2 else 1)
      case Held(k) => left * (steps + 2) + if k in s.workers then Rank(s.workers[k], Width(r)) else 0
      case _ => 0
  }

  /** An enabled action that takes the message one step towards its settlement. */
  predicate Advances(s: State, a: Action, loc: Location) {
    Enabled(s, a) &&
    match a
    case Deliver(c, _) => loc == Ready(c)
    case Expire(c) => loc == Ready(c)
    case Work(slot, _) => loc == Held(slot)
    case _ => false
  }

  predicate Loses(s: State, a: Action, loc: Location) {
    Enabled(s, a) && (a.Crash? || a.Disconnect?) && loc == Held(a.slot)
  }

  /** Steps a run spent on message id. */
  function StepsSpent(cfg: Config, run: seq<Action>, id: JobId): nat {
    if run == [] then 0
    else
      var n := |run| - 1;
      StepsSpent(cfg, run[..n], id) +
      (if Advances(Exec(cfg, run[..n]), run[n], Where(cfg, run[..n], id)) then 1 else 0)
  }

  lemma SplitProduct(x: int, c: int)
    ensures (x - 1) * c == x * c - c
  {
  }

  lemma WeightNonNegative(cfg: Config, s: State, id: JobId, loc: Location)
    requires TokenOk(cfg, s, id, loc)
    ensures Weight(cfg, s, id, loc) >= 0
  {
    if id in s.requests && !loc.Unpublished? {
      var left := Attempts(cfg, KindOf(s.requests[id])) - 1 - Tally(s, id).trips;
      assert left * (AttemptSteps(s.requests[id]) + 2) >= 0;
    }
  }

  lemma DeliverPays(cfg: Config, s: State, c: Copy, slot: nat, id: JobId, t: State)
    requires Enabled(s, Deliver(c, slot)) && At(s, id, Ready(c)) && TokenOk(cfg, s, id, Ready(c))
    requires t == Apply(cfg, s, Deliver(c, slot))
    ensures Weight(cfg, t, id, Held(slot)) < Weight(cfg, s, id, Ready(c))
  {
    DeliverFrame(cfg, s, c, slot, t);
    assert t.requests == s.requests;
  }

  lemma ExpirePays(cfg: Config, s: State, c: Copy, id: JobId, t: State, next: Location)
    requires Inv(cfg, s) && Enabled(s, Expire(c)) && At(s, id, Ready(c)) && TokenOk(cfg, s, id, Ready(c))
    requires t == Apply(cfg, s, Expire(c)) && next == NextLoc(s, Expire(c), id, Ready(c))
    ensures Weight(cfg, t, id, next) < Weight(cfg, s, id, Ready(c))
  {
    assert CopyOk(s, c);
    assert t.ledger == s.ledger && t.requests == s.requests;
    BackInQueue(cfg, s, id, c, t, next);
  }

  lemma BackInQueue(cfg: Config, s: State, id: JobId, c: Copy, t: State, next: Location)
    requires t.requests == s.requests && t.ledger == s.ledger && id in s.requests && c.queue == RetryQueue
    requires next.Ready? && next.copy.queue == WorkQueue(KindOf(s.requests[id]))
    ensures Weight(cfg, t, id, next) < Weight(cfg, s, id, Ready(c))
  {
  }

  lemma AdvanceKeepsRequeues(cfg: Config, s: State, a: Action, id: JobId, loc: Location, t: State)
    requires At(s, id, loc) && Advances(s, a, loc) && t == Step(cfg, s, a)
    ensures Tally(t, id).requeues == Tally(s, id).requeues && t.requests == s.requests
  {
    match a
    case Deliver(c, slot) =>
    case Expire(c) => assert t.ledger == s.ledger;
    case Work(slot, reply) =>
      if Settling(s.workers[slot].pc) {
        SettleKeepsRequeues(s, slot, id, t);
      } else {
        EffectFrame(s, s.workers[slot], reply);
        EffectLedger(s, s.workers[slot], reply, id);
      }
  }

  lemma SettleKeepsRequeues(s: State, slot: nat, id: JobId, t: State)
    requires slot in s.workers && t == Settle(s, slot)
    ensures Tally(t, id).requeues == Tally(s, id).requeues && t.requests == s.requests
  {
  }

  /** A step for the message costs at least one. */
  lemma AdvancePays(cfg: Config, s: State, a: Action, id: JobId, loc: Location, t: State, next: Location)
    requires Inv(cfg, s) && At(s, id, loc) && TokenOk(cfg, s, id, loc)
    requires Advances(s, a, loc) && t == Step(cfg, s, a) && next == NextLoc(s, a, id, loc)
    ensures Weight(cfg, t, id, next) < Weight(cfg, s, id, loc)
    ensures t.requests == s.requests && Tally(t, id).requeues == Tally(s, id).requeues
  {
    AdvanceKeepsRequeues(cfg, s, a, id, loc, t);
    match a
    case Deliver(c, slot) => DeliverPays(cfg, s, c, slot, id, t);
    case Expire(c) => ExpirePays(cfg, s, c, id, t, next);
    case Work(slot, reply) =>
      assert HandlerOk(cfg, s, s.workers[slot]);
      if Settling(s.workers[slot].pc) {
        SettlePays(cfg, s, slot, id, loc, t, next);
      } else {
        assert Holds(s, slot, id);
        EffectPays(cfg, s, slot, reply, id, t);
      }
  }

  lemma SettlePays(cfg: Config, s: State, slot: nat, id: JobId, loc: Location, t: State, next: Location)
    requires At(s, id, loc) && TokenOk(cfg, s, id, loc) && loc == Held(slot) && Settling(s.workers[slot].pc)
    requires t == Settle(s, slot) && next == NextLoc(s, Work(slot, Done), id, loc)
    ensures Weight(cfg, t, id, next) < Weight(cfg, s, id, loc)
  {
    var r := s.requests[id];
    var left := Attempts(cfg, KindOf(r)) - 1 - Tally(s, id).trips;
    var c := AttemptSteps(r) + 2;
    HeldWeight(cfg, s, id, slot);
    if s.workers[slot].pc.Reject? {
      RejectBooks(s, slot, id, t);
      SplitProduct(left, c);
      assert Weight(cfg, t, id, next) == (left - 1) * c + AttemptSteps(r) + 2;
    } else {
      NonNegativeProduct(left, c);
      assert Weight(cfg, t, id, next) == 0;
    }
  }

  lemma HeldWeight(cfg: Config, s: State, id: JobId, slot: nat)
    requires id in s.requests && slot in s.workers && Settling(s.workers[slot].pc)
    ensures var r := s.requests[id];
      Weight(cfg, s, id, Held(slot)) ==
      (Attempts(cfg, KindOf(r)) - 1 - Tally(s, id).trips) * (AttemptSteps(r) + 2) + 1
  {
  }

  lemma LowerRankLowerWeight(cfg: Config, s: State, id: JobId, slot: nat, t: State)
    requires id in s.requests && t.requests == s.requests && Tally(t, id).trips == Tally(s, id).trips
    requires slot in s.workers && slot in t.workers
    requires Rank(t.workers[slot], Width(s.requests[id])) < Rank(s.workers[slot], Width(s.requests[id]))
    ensures Weight(cfg, t, id, Held(slot)) < Weight(cfg, s, id, Held(slot))
  {
  }

  lemma EffectPays(cfg: Config, s: State, slot: nat, reply: Reply, id: JobId, t: State)
    requires slot in s.workers && HandlerOk(cfg, s, s.workers[slot]) && s.workers[slot].msg.id == id
    requires !Settling(s.workers[slot].pc) && !s.workers[slot].pc.Raised?
    requires t == Effect(cfg, s, slot, reply)
    ensures Weight(cfg, t, id, Held(slot)) < Weight(cfg, s, id, Held(slot))
  {
    var h := s.workers[slot];
    EffectFrame(s, h, reply);
    EffectLedger(s, h, reply, id);
    RankDrops(cfg, s, h, reply);
    LowerRankLowerWeight(cfg, s, id, slot, t);
  }

  /** A crash or a lost connection gives back at most one attempt and its delivery. */
  lemma LossCosts(cfg: Config, s: State, a: Action, id: JobId, loc: Location, t: State, next: Location)
    requires Inv(cfg, s) && At(s, id, loc) && TokenOk(cfg, s, id, loc)
    requires Loses(s, a, loc) && t == Step(cfg, s, a) && next == NextLoc(s, a, id, loc)
    ensures Weight(cfg, t, id, next) <= Weight(cfg, s, id, loc) + AttemptSteps(s.requests[id]) + 2
    ensures Tally(t, id).requeues == Tally(s, id).requeues + 1 && t.requests == s.requests
  {
    var h := s.workers[a.slot];
    assert Holds(s, a.slot, id);
    assert t.requests == s.requests;
    assert Tally(t, id) == Tally(s, id).(requeues := Tally(s, id).requeues + 1);
    GivenBack(cfg, s, id, a.slot, t, next);
  }

  lemma GivenBack(cfg: Config, s: State, id: JobId, slot: nat, t: State, next: Location)
    requires id in s.requests && t.requests == s.requests && Tally(t, id).trips == Tally(s, id).trips
    requires slot in s.workers && next.Ready? && next.copy.queue != RetryQueue
    ensures Weight(cfg, t, id, next) <= Weight(cfg, s, id, Held(slot)) + AttemptSteps(s.requests[id]) + 2
  {
    var r := s.requests[id];
    var left := Attempts(cfg, KindOf(r)) - 1 - Tally(s, id).trips;
    assert Weight(cfg, t, id, next) == left * (AttemptSteps(r) + 2) + AttemptSteps(r) + 1;
    assert Weight(cfg, s, id, Held(slot)) == left * (AttemptSteps(r) + 2) + Rank(s.workers[slot], Width(r));
  }

  /** Nothing the measure looks at differs. */
  ghost predicate SameAccount(s: State, t: State, id: JobId, loc: Location) {
    && id in s.requests && id in t.requests && SameRequest(s.requests[id], t.requests[id])
    && Tally(t, id).trips == Tally(s, id).trips && Tally(t, id).requeues == Tally(s, id).requeues
    && (loc.Held? ==> loc.slot in s.workers && loc.slot in t.workers && t.workers[loc.slot] == s.workers[loc.slot])
  }

  lemma SameAccountSameWeight(cfg: Config, s: State, t: State, id: JobId, loc: Location)
    requires SameAccount(s, t, id, loc)
    ensures Weight(cfg, t, id, loc) == Weight(cfg, s, id, loc)
  {
  }

  lemma OtherGateway(cfg: Config, s: State, a: Action, id: JobId, loc: Location, t: State)
    requires Inv(cfg, s) && At(s, id, loc) && TokenOk(cfg, s, id, loc) && !loc.Unpublished?
    requires Enabled(s, a) && (a.Submit? || a.Gateway? || a.Inject?) && t == Apply(cfg, s, a)
    ensures SameAccount(s, t, id, loc)
  {
    if a.Gateway? {
      assert SubmissionOk(s, a.id, s.requests[a.id]);
      ServeBooks(s, a.id, a.reply, id, t);
    }
    StepKeeps(cfg, s, a);
    assert t.workers == s.workers && Tally(t, id) == Tally(s, id);
  }

  lemma OtherMove(cfg: Config, s: State, a: Action, id: JobId, loc: Location, t: State)
    requires At(s, id, loc) && TokenOk(cfg, s, id, loc) && !loc.Unpublished?
    requires Enabled(s, a) && (a.Deliver? || a.Expire?) && loc != Ready(a.copy) && t == Apply(cfg, s, a)
    ensures SameAccount(s, t, id, loc)
  {
    assert !Live(a.copy, id);
    assert t.requests == s.requests;
  }

  lemma OtherLoss(cfg: Config, s: State, a: Action, id: JobId, loc: Location, t: State)
    requires At(s, id, loc) && TokenOk(cfg, s, id, loc) && !loc.Unpublished?
    requires Enabled(s, a) && (a.Crash? || a.Disconnect?) && loc != Held(a.slot) && t == Apply(cfg, s, a)
    ensures SameAccount(s, t, id, loc)
  {
    assert !Holds(s, a.slot, id);
    assert t.requests == s.requests && Tally(t, id) == Tally(s, id);
  }

  lemma OtherWork(cfg: Config, s: State, slot: nat, reply: Reply, id: JobId, loc: Location, t: State)
    requires At(s, id, loc) && TokenOk(cfg, s, id, loc) && !loc.Unpublished?
    requires Enabled(s, Work(slot, reply)) && loc != Held(slot) && t == Apply(cfg, s, Work(slot, reply))
    ensures SameAccount(s, t, id, loc)
  {
    assert !Holds(s, slot, id);
    if Settling(s.workers[slot].pc) {
      SettledAccount(s, slot, id, loc, t);
    } else {
      EffectFrame(s, s.workers[slot], reply);
      EffectLedger(s, s.workers[slot], reply, id);
    }
  }

  lemma SettledAccount(s: State, slot: nat, id: JobId, loc: Location, t: State)
    requires slot in s.workers && loc != Held(slot) && t == Settle(s, slot) && !Holds(s, slot, id)
    requires id in s.requests && (loc.Held? ==> loc.slot in s.workers)
    ensures SameAccount(s, t, id, loc)
  {
  }

  /** Other workers, other messages and the gateway leave the measure alone. */
  lemma OthersDoNot(cfg: Config, s: State, a: Action, id: JobId, loc: Location, t: State)
    requires Inv(cfg, s) && At(s, id, loc) && TokenOk(cfg, s, id, loc) && !loc.Unpublished?
    requires !Advances(s, a, loc) && !Loses(s, a, loc) && t == Step(cfg, s, a)
    ensures SameAccount(s, t, id, loc)
  {
    if Enabled(s, a) {
      match a
      case Deliver(_, _) => OtherMove(cfg, s, a, id, loc, t);
      case Expire(_) => OtherMove(cfg, s, a, id, loc, t);
      case Work(slot, reply) => OtherWork(cfg, s, slot, reply, id, loc, t);
      case Crash(_) => OtherLoss(cfg, s, a, id, loc, t);
      case Disconnect(_) => OtherLoss(cfg, s, a, id, loc, t);
      case _ => OtherGateway(cfg, s, a, id, loc, t);
    }
  }

  // ---- main results ----

  /** The most steps a message may cost: N attempts and one more per requeue, each with
      its delivery and expiry. */
  function Allowance(cfg: Config, s: State, id: JobId): int {
    if id !in s.requests then 0
    else (Attempts(cfg, KindOf(s.requests[id])) + Tally(s, id).requeues) * (AttemptSteps(s.requests[id]) + 2)
  }

  lemma LossWithinAllowance(cfg: Config, s: State, id: JobId, loc: Location, t: State, next: Location)
    requires id in s.requests && t.requests == s.requests && Tally(t, id).requeues == Tally(s, id).requeues + 1
    requires Weight(cfg, t, id, next) <= Weight(cfg, s, id, loc) + AttemptSteps(s.requests[id]) + 2
    ensures Weight(cfg, t, id, next) - Weight(cfg, s, id, loc) <= Allowance(cfg, t, id) - Allowance(cfg, s, id)
  {
    SplitProduct(Attempts(cfg, KindOf(s.requests[id])) + Tally(t, id).requeues, AttemptSteps(s.requests[id]) + 2);
  }

  lemma OtherWithinAllowance(cfg: Config, s: State, a: Action, id: JobId, loc: Location, t: State)
    requires Inv(cfg, s) && At(s, id, loc) && TokenOk(cfg, s, id, loc) && !loc.Unpublished?
    requires !Advances(s, a, loc) && !Loses(s, a, loc) && t == Step(cfg, s, a)
    ensures NextLoc(s, a, id, loc) == loc
    ensures Weight(cfg, t, id, loc) == Weight(cfg, s, id, loc) && Allowance(cfg, t, id) == Allowance(cfg, s, id)
  {
    OthersDoNot(cfg, s, a, id, loc, t);
    SameAccountSameWeight(cfg, s, t, id, loc);
    SameAccountSameAllowance(cfg, s, t, id, loc);
    OtherStays(cfg, s, a, id, loc);
  }

  lemma SameAccountSameAllowance(cfg: Config, s: State, t: State, id: JobId, loc: Location)
    requires SameAccount(s, t, id, loc)
    ensures Allowance(cfg, t, id) == Allowance(cfg, s, id)
  {
  }

  lemma SameAllowance(cfg: Config, s: State, t: State, id: JobId)
    requires t.requests == s.requests && Tally(t, id).requeues == Tally(s, id).requeues
    ensures Allowance(cfg, t, id) == Allowance(cfg, s, id)
  {
  }

  lemma StepWithinAllowance(cfg: Config, s: State, a: Action, id: JobId, loc: Location, t: State, next: Location,
                            spent: nat)
    requires Inv(cfg, s) && At(s, id, loc) && TokenOk(cfg, s, id, loc) && TokenOk(cfg, t, id, next)
    requires t == Step(cfg, s, a) && next == NextLoc(s, a, id, loc)
    requires spent + Weight(cfg, s, id, loc) <= Allowance(cfg, s, id) && (loc.Unpublished? ==> spent == 0)
    ensures spent + (if Advances(s, a, loc) then 1 else 0) + Weight(cfg, t, id, next) <= Allowance(cfg, t, id)
  {
    if loc.Unpublished? {
      PublishWithinAllowance(cfg, s, a, id, t, next);
    } else if Advances(s, a, loc) {
      AdvancePays(cfg, s, a, id, loc, t, next);
      SameAllowance(cfg, s, t, id);
    } else if Loses(s, a, loc) {
      LossCosts(cfg, s, a, id, loc, t, next);
      LossWithinAllowance(cfg, s, id, loc, t, next);
    } else {
      OtherWithinAllowance(cfg, s, a, id, loc, t);
    }
  }

  /** A published token moves only by a step for it or by losing its worker. */
  lemma OtherStays(cfg: Config, s: State, a: Action, id: JobId, loc: Location)
    requires Inv(cfg, s) && At(s, id, loc) && !loc.Unpublished? && !Advances(s, a, loc) && !Loses(s, a, loc)
    ensures NextLoc(s, a, id, loc) == loc
  {
    if a.Gateway? && Enabled(s, a) {
      assert SubmissionOk(s, a.id, s.requests[a.id]);
    }
  }

  lemma PublishWithinAllowance(cfg: Config, s: State, a: Action, id: JobId, t: State, next: Location)
    requires TokenOk(cfg, t, id, next) && next == NextLoc(s, a, id, Unpublished)
    ensures Weight(cfg, t, id, next) <= Allowance(cfg, t, id)
  {
    if id in t.requests {
      var n, c := Attempts(cfg, KindOf(t.requests[id])), AttemptSteps(t.requests[id]) + 2;
      NonNegativeProduct(n + Tally(t, id).requeues, c);
      if next.Ready? {
        ReadyWeight(cfg, t, id, next);
        MoreTimes(n - Tally(t, id).trips, n + Tally(t, id).requeues, c);
      } else {
        FromUnpublished(s, a, id);
      }
    }
  }

  lemma FromUnpublished(s: State, a: Action, id: JobId)
    ensures NextLoc(s, a, id, Unpublished).Unpublished? || NextLoc(s, a, id, Unpublished).Ready?
  {
  }

  lemma ReadyWeight(cfg: Config, s: State, id: JobId, loc: Location)
    requires id in s.requests && loc.Ready?
    ensures var r := s.requests[id];
      Weight(cfg, s, id, loc) <= (Attempts(cfg, KindOf(r)) - Tally(s, id).trips) * (AttemptSteps(r) + 2)
  {
    var r := s.requests[id];
    SplitProduct(Attempts(cfg, KindOf(r)) - Tally(s, id).trips, AttemptSteps(r) + 2);
  }

  lemma MoreTimes(x: int, y: int, c: nat)
    requires x <= y
    ensures x * c <= y * c
  {
    NonNegativeProduct(y - x, c);
    assert y * c == x * c + (y - x) * c;
  }

  lemma NonNegativeProduct(x: nat, y: nat)
    ensures x * y >= 0
  {
  }

  lemma {:induction false} WithinBudget(cfg: Config, run: seq<Action>, id: JobId, t: State, next: Location)
    requires t == Exec(cfg, run) && next == Where(cfg, run, id)
    ensures StepsSpent(cfg, run, id) + Weight(cfg, t, id, next) <= Allowance(cfg, t, id)
    ensures Weight(cfg, t, id, next) >= 0
    ensures next.Unpublished? ==> StepsSpent(cfg, run, id) == 0
  {
    BooksBalance(cfg, run);
    WeightNonNegative(cfg, t, id, next);
    if run != [] {
      var n := |run| - 1;
      var s, a, loc := Exec(cfg, run[..n]), run[n], Where(cfg, run[..n], id);
      WithinBudget(cfg, run[..n], id, s, loc);
      BooksBalance(cfg, run[..n]);
      Reachable(cfg, run[..n]);
      TokenIsThere(cfg, run[..n], id);
      StepWithinAllowance(cfg, s, a, id, loc, t, next, StepsSpent(cfg, run[..n], id));
      StaysPublished(s, a, id, loc);
    }
  }

  /** The run spends so many steps on message id; stated like Reaches. */
  ghost predicate Spends(cfg: Config, run: seq<Action>, id: JobId, spent: nat) {
    forall r: seq<Action> :: r == run ==> StepsSpent(cfg, r, id) == spent
  }

  /** The budget: in every run the steps spent on a message stay within those of N
      attempts and one more for each crash or lost connection, at 15 steps each and three
      more for every operation asked for. With SettledIffNothingLeft:
      with finitely many of these, and steps taken as long as there are any, it is settled. */
  lemma StepsAreBounded(cfg: Config, run: seq<Action>, id: JobId, s: State, spent: nat, attempts: nat, cost: nat)
    requires Reaches(cfg, run, s) && Spends(cfg, run, id, spent)
    requires id in s.requests ==>
      var r := s.requests[id];
      var max := if KindOf(r).Image? then cfg.imageRetries else cfg.ocrRetries;
      && attempts == (if max < 1 then 1 else max) + Tally(s, id).requeues
      && cost == 15 + 3 * (if r.Submission? && r.job.operations != [] then |r.job.operations| else 1)
    ensures if id in s.requests then spent <= attempts * cost else spent == 0
  {
    assert Exec(cfg, run) == s && StepsSpent(cfg, run, id) == spent;
    WithinBudget(cfg, run, id, s, Where(cfg, run, id));
    if id in s.requests {
      AllowanceIs(cfg, s, id, attempts, cost);
    }
  }

  lemma AllowanceIs(cfg: Config, s: State, id: JobId, attempts: nat, cost: nat)
    requires id in s.requests && attempts == Attempts(cfg, KindOf(s.requests[id])) + Tally(s, id).requeues
    requires cost == AttemptSteps(s.requests[id]) + 2
    ensures Allowance(cfg, s, id) == attempts * cost
  {
  }

  lemma StaysPublished(s: State, a: Action, id: JobId, loc: Location)
    ensures NextLoc(s, a, id, loc).Unpublished? ==> loc.Unpublished?
  {
  }

  // ---- no message is ever stuck ----

  lemma Above(used: set<nat>) returns (b: nat)
    ensures forall k :: k in used ==> k < b
  {
    if used == {} {
      b := 0;
    } else {
      var x :| x in used;
      var c := Above(used - {x});
      b := c + x + 1;
      forall k | k in used ensures k < b {
        if k != x {
          assert k in used - {x};
        }
      }
    }
  }

  lemma SomeSlotIsFree(s: State)
    ensures exists k: nat :: k !in s.workers
  {
    var b := Above(s.workers.Keys);
    assert b !in s.workers.Keys;
  }

  ghost function FreeSlot(s: State): nat
    ensures FreeSlot(s) !in s.workers
  {
    SomeSlotIsFree(s);
    var k: nat :| k !in s.workers;
    k
  }

  predicate AtRaised(s: State, loc: Location) { loc.Held? && loc.slot in s.workers && s.workers[loc.slot].pc.Raised? }

  /** The step due for a message: delivery, expiry, the next effect done, or, after a
      park that raised, the end of that worker. */
  ghost function Due(s: State, loc: Location): Action
    requires loc.Ready? || loc.Held?
  {
    match loc
    case Ready(c) => if c.queue == RetryQueue then Expire(c) else Deliver(c, FreeSlot(s))
    case Held(k) => if AtRaised(s, loc) then Crash(k) else Work(k, Done)
  }

  lemma DueAdvances(cfg: Config, s: State, id: JobId, loc: Location)
    requires At(s, id, loc) && CopiesOk(s) && (loc.Ready? || loc.Held?)
    ensures if AtRaised(s, loc) then Loses(s, Due(s, loc), loc) else Advances(s, Due(s, loc), loc)
  {
    if loc.Ready? {
      assert CopyOk(s, loc.copy);
    }
  }

  lemma DoneNeverRaises(cfg: Config, h: Handler, status: Option<Status>, data: Bytes)
    requires !h.pc.Raised?
    ensures !Next(cfg, h, true, status, data).pc.Raised?
  {
  }

  lemma DueDoesNotRaise(cfg: Config, s: State, id: JobId, loc: Location, t: State, next: Location)
    requires At(s, id, loc) && CopiesOk(s) && (loc.Ready? || loc.Held?)
    requires t == Step(cfg, s, Due(s, loc)) && next == NextLoc(s, Due(s, loc), id, loc)
    ensures !AtRaised(t, next)
  {
    DueAdvances(cfg, s, id, loc);
    if loc.Held? && !AtRaised(s, loc) {
      var h := s.workers[loc.slot];
      if !Settling(h.pc) && h.pc.Parking? {
        DoneNeverRaises(cfg, h, StatusRead(s, h), DataRead(s, h));
        assert t.workers[loc.slot] == Advance(cfg, s, h, Done);
      } else if !Settling(h.pc) {
        OnlyParkingRaises(cfg, h, SeenOk(s, h, Done), StatusRead(s, h), DataRead(s, h));
        assert t.workers[loc.slot] == Advance(cfg, s, h, Done);
      }
    }
  }

  lemma OnlyParkingRaises(cfg: Config, h: Handler, ok: bool, status: Option<Status>, data: Bytes)
    requires !h.pc.Raised? && !h.pc.Parking?
    ensures !Next(cfg, h, ok, status, data).pc.Raised?
  {
    if h.msg.body.Wire? && !h.pc.Begin? {
      assert !GoNext(cfg, h, ok, status, data).pc.Raised?;
      assert !PyNext(cfg, h, ok, status, data).pc.Raised?;
    }
  }

  /** Taking the due step brings the settlement closer. */
  lemma DuePays(cfg: Config, run: seq<Action>, id: JobId, s: State, loc: Location, t: State, next: Location)
    requires s == Exec(cfg, run) && loc == Where(cfg, run, id) && (loc.Ready? || loc.Held?)
    requires t == Step(cfg, s, Due(s, loc)) && next == NextLoc(s, Due(s, loc), id, loc)
    ensures !AtRaised(t, next) && Weight(cfg, s, id, loc) >= 0
    ensures AtRaised(s, loc) || Weight(cfg, t, id, next) < Weight(cfg, s, id, loc)
  {
    TokenIsThere(cfg, run, id);
    BooksBalance(cfg, run);
    Reachable(cfg, run);
    WeightNonNegative(cfg, s, id, loc);
    DueAdvances(cfg, s, id, loc);
    DueDoesNotRaise(cfg, s, id, loc, t, next);
    if !AtRaised(s, loc) {
      AdvancePays(cfg, s, Due(s, loc), id, loc, t, next);
    }
  }

  lemma OneMore(cfg: Config, run: seq<Action>, a: Action, id: JobId)
    ensures Exec(cfg, run + [a]) == Step(cfg, Exec(cfg, run), a)
    ensures Where(cfg, run + [a], id) == NextLoc(Exec(cfg, run), a, id, Where(cfg, run, id))
  {
    assert (run + [a])[..|run + [a]| - 1] == run;
  }

  lemma GoneIsSettled(cfg: Config, run: seq<Action>, id: JobId)
    ensures Where(cfg, run, id).Gone? ==> id in Exec(cfg, run).settled
    ensures Where(cfg, run, id).Unpublished? <==> id !in Exec(cfg, run).enqueued
  {
    TokenIsThere(cfg, run, id);
  }

  /** Steps left on message id after a run, and whether its worker is about to end. */
  function Left(cfg: Config, run: seq<Action>, id: JobId): int {
    Weight(cfg, Exec(cfg, run), id, Where(cfg, run, id))
  }

  function Ending(cfg: Config, run: seq<Action>, id: JobId): int {
    if AtRaised(Exec(cfg, run), Where(cfg, run, id)) then 1 else 0
  }

  /** The continuation takes only the message's own next steps; a worker whose park had
      raised before it began ends first. */
  ghost predicate OwnSteps(cfg: Config, run: seq<Action>, longer: seq<Action>, id: JobId) {
    run <= longer && forall n :: |run| <= n < |longer| ==> OwnStep(cfg, longer[..n], longer[n], id, n == |run|)
  }

  ghost predicate OwnStep(cfg: Config, run: seq<Action>, a: Action, id: JobId, first: bool) {
    var s, loc := Exec(cfg, run), Where(cfg, run, id);
    Advances(s, a, loc) || (first && AtRaised(s, loc) && a == Crash(loc.slot))
  }

  lemma DueIsOwn(cfg: Config, run: seq<Action>, id: JobId)
    requires !Where(cfg, run, id).Unpublished? && !Where(cfg, run, id).Gone?
    ensures OwnStep(cfg, run, Due(Exec(cfg, run), Where(cfg, run, id)), id, true)
  {
    TokenIsThere(cfg, run, id);
    Reachable(cfg, run);
    DueAdvances(cfg, Exec(cfg, run), id, Where(cfg, run, id));
  }

  lemma StepThenSteps(cfg: Config, run: seq<Action>, a: Action, longer: seq<Action>, id: JobId)
    requires OwnStep(cfg, run, a, id, true) && OwnSteps(cfg, run + [a], longer, id) && Ending(cfg, run + [a], id) == 0
    ensures OwnSteps(cfg, run, longer, id)
  {
    forall n | |run| <= n < |longer| ensures OwnStep(cfg, longer[..n], longer[n], id, n == |run|) {
      if n == |run| {
        assert longer[..n] == run && longer[n] == a;
      } else {
        assert OwnStep(cfg, longer[..n], longer[n], id, n == |run + [a]|);
        assert n == |run| + 1 ==> longer[..n] == run + [a];
      }
    }
  }

  lemma OneDueStep(cfg: Config, run: seq<Action>, id: JobId) returns (a: Action)
    requires !Where(cfg, run, id).Unpublished? && !Where(cfg, run, id).Gone?
    ensures OwnStep(cfg, run, a, id, true) && !Where(cfg, run + [a], id).Unpublished?
    ensures Left(cfg, run, id) >= 0 && Ending(cfg, run + [a], id) == 0
    ensures Ending(cfg, run, id) == 1 || Left(cfg, run + [a], id) < Left(cfg, run, id)
  {
    var s, loc := Exec(cfg, run), Where(cfg, run, id);
    a := Due(s, loc);
    OneMore(cfg, run, a, id);
    DuePays(cfg, run, id, s, loc, Exec(cfg, run + [a]), Where(cfg, run + [a], id));
    StaysPublished(s, a, id, loc);
    DueIsOwn(cfg, run, id);
  }

  lemma SettlingRun(cfg: Config, run: seq<Action>, id: JobId) returns (longer: seq<Action>)
    requires !Where(cfg, run, id).Unpublished?
    ensures OwnSteps(cfg, run, longer, id) && id in Exec(cfg, longer).settled
    decreases Ending(cfg, run, id), Left(cfg, run, id)
  {
    if Where(cfg, run, id).Gone? {
      GoneIsSettled(cfg, run, id);
      longer := run;
    } else {
      var a := OneDueStep(cfg, run, id);
      longer := SettlingRun(cfg, run + [a], id);
      StepThenSteps(cfg, run, a, longer, id);
    }
  }

  /** From every reachable state every published message can be settled by its own steps
      alone: deliveries, expiries and effects of the attempt holding it, after the end of
      that worker if its park raised. */
  lemma CanBeSettled(cfg: Config, run: seq<Action>, id: JobId, s: State)
    requires Reaches(cfg, run, s) && id in s.enqueued
    ensures exists longer: seq<Action>, t: State ::
      OwnSteps(cfg, run, longer, id) && Reaches(cfg, longer, t) && id in t.settled
  {
    assert Exec(cfg, run) == s;
    TokenIsThere(cfg, run, id);
    var longer := SettlingRun(cfg, run, id);
    assert Reaches(cfg, longer, Exec(cfg, longer));
  }

  /** And only settled messages have no step left: a published message is settled if and
      only if no step for it can be taken and its worker is not stuck after a park that
      raised. With StepsAreBounded: whoever keeps taking such steps settles it. */
  lemma SettledIffNothingLeft(cfg: Config, run: seq<Action>, id: JobId, s: State, loc: Location)
    requires Reaches(cfg, run, s) && Located(cfg, run, id, loc) && id in s.enqueued
    ensures id in s.settled <==> !AtRaised(s, loc) && forall a :: !Advances(s, a, loc)
  {
    assert Exec(cfg, run) == s && Where(cfg, run, id) == loc;
    TokenIsThere(cfg, run, id);
    Reachable(cfg, run);
    if id !in s.settled {
      DueAdvances(cfg, s, id, loc);
      assert AtRaised(s, loc) || Advances(s, Due(s, loc), loc);
    }
  }
}
