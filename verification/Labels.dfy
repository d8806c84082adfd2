/** The outcome labels the workers count: when they name the verdict, and that each
    settlement and each trip through the retry queue was counted under its label. */
module Labels {
  import opened Media
  import opened Pipeline
  import opened Integrity
  import opened Custody
  import opened Retries
  import Progress

  // ---- labels and verdicts ----

  /** A failed attempt of the image worker with a number a message can get. */
  predicate FailedAttempt(cfg: Config, h: Handler) {
    h.worker.Image? && (h.cause.Transient? || h.cause.Permanent?) && 1 <= h.attempt <= Attempts(cfg, Image)
  }

  /** The literal 5 in the image worker labels every such attempt as the consumer then
      acts on it exactly when the configured maximum is 5. */
  lemma LiteralFive(cfg: Config, sample: Handler)
    ensures (forall h :: FailedAttempt(cfg, h) ==> LabelOf(cfg, h) == ActionOf(Decide(cfg, h).pc))
      <==> cfg.imageRetries == 5
  {
    if cfg.imageRetries != 5 {
      var n := if cfg.imageRetries < 5 then Attempts(cfg, Image) else 5;
      var h := sample.(worker := Image, cause := Transient, attempt := n);
      assert FailedAttempt(cfg, h) && LabelOf(cfg, h) != ActionOf(Decide(cfg, h).pc);
    }
  }

  ghost predicate LabelsMatch(s: State, kind: Kind) {
    forall r :: r in s.finished && r.worker == kind ==> r.counted == r.action
  }

  lemma StepLabels(cfg: Config, s: State, a: Action, kind: Kind, t: State)
    requires Inv(cfg, s) && AttemptsOk(cfg, s) && LabelsMatch(s, kind) && t == Step(cfg, s, a)
    requires kind.Image? ==> cfg.imageRetries == 5
    ensures LabelsMatch(t, kind)
  {
    if Enabled(s, a) {
      if a.Work? && !Settling(s.workers[a.slot].pc) {
        EffectLabels(cfg, s, a.slot, a.reply, kind, t);
      } else {
        OthersFinishNothing(cfg, s, a, t);
      }
    }
  }

  lemma OthersFinishNothing(cfg: Config, s: State, a: Action, t: State)
    requires Enabled(s, a) && !(a.Work? && !Settling(s.workers[a.slot].pc)) && t == Apply(cfg, s, a)
    ensures t.finished == s.finished
  {
    if a.Gateway? {
      ServeFrame(s, a.id, a.reply, t);
    }
  }

  lemma EffectLabels(cfg: Config, s: State, slot: nat, reply: Reply, kind: Kind, t: State)
    requires Inv(cfg, s) && AttemptsOk(cfg, s) && LabelsMatch(s, kind)
    requires Enabled(s, Work(slot, reply)) && !Settling(s.workers[slot].pc) && t == Effect(cfg, s, slot, reply)
    requires kind.Image? ==> cfg.imageRetries == 5
    ensures LabelsMatch(t, kind)
  {
    var h := s.workers[slot];
    var h' := Advance(cfg, s, h, reply);
    assert HandlerOk(cfg, s, h) && AttemptOk(cfg, s, h);
    EffectFrame(s, h, reply);
    NextVerdict(cfg, s, h, SeenOk(s, h, reply), StatusRead(s, h), DataRead(s, h));
    NextMoves(cfg, h, SeenOk(s, h, reply), StatusRead(s, h), DataRead(s, h), h');
    OneMoreLabel(cfg, s, h, h', kind, t);
  }

  lemma OneMoreLabel(cfg: Config, s: State, h: Handler, h': Handler, kind: Kind, t: State)
    requires LabelsMatch(s, kind) && VerdictOk(cfg, s, h') && h'.msg == h.msg && h'.worker == h.worker
    requires kind.Image? ==> cfg.imageRetries == 5
    requires t.finished == if HandleReturns(h, h')
      then s.finished + [Return(h.msg.id, h.worker, h.attempt, LabelOf(cfg, h'), ActionOf(h'.pc))]
      else s.finished
    ensures LabelsMatch(t, kind)
  {
    if HandleReturns(h, h') && h.worker == kind {
      ReturnLabel(cfg, s, h');
    }
  }

  lemma ReturnLabel(cfg: Config, s: State, h: Handler)
    requires VerdictOk(cfg, s, h) && h.msg.body.Wire? && (h.pc.AckDone? || h.pc.Parking? || h.pc.Reject?)
    requires h.worker.Image? ==> cfg.imageRetries == 5
    ensures LabelOf(cfg, h) == ActionOf(h.pc)
  {
  }

  /** So over every run each finished handler run of the OCR worker counted the verdict
      the consumer then reaches, and of the image worker too when its maximum is 5. */
  lemma {:induction false} LabelsMatchVerdicts(cfg: Config, run: seq<Action>, kind: Kind, s: State)
    requires s == Exec(cfg, run) && (kind.Image? ==> cfg.imageRetries == 5)
    ensures LabelsMatch(s, kind)
  {
    if run != [] {
      var n := |run| - 1;
      var prev := Exec(cfg, run[..n]);
      LabelsMatchVerdicts(cfg, run[..n], kind, prev);
      Reachable(cfg, run[..n]);
      BooksBalance(cfg, run[..n]);
      StepLabels(cfg, prev, run[n], kind, s);
    }
  }

  // ---- every settlement was counted ----

  /** A handler run of this attempt finished with this verdict. */
  ghost predicate Logged(s: State, id: JobId, worker: Kind, attempt: int, action: Label) {
    exists r :: r in s.finished && r.id == id && r.worker == worker && r.attempt == attempt && r.action == action
  }

  /** A handler run of this attempt counted this label. */
  ghost predicate Counted(s: State, id: JobId, worker: Kind, attempt: int, counted: Label) {
    exists r :: r in s.finished && r.id == id && r.worker == worker && r.attempt == attempt && r.counted == counted
  }

  /** Past its handle function: only parking and settling are left to do. */
  predicate Past(pc: Pc) { pc.AckDone? || pc.Parking? || pc.AckParked? || pc.Raised? || pc.Reject? }

  ghost predicate HandlerLogged(s: State, h: Handler) {
    h.msg.body.Wire? && Past(h.pc) ==> Logged(s, h.msg.id, h.worker, h.attempt, ActionOf(h.pc))
  }

  function LabelFor(o: Settlement): Label { if o.Succeeded? then Success else ParkedLabel }

  /** The log of job id accounts for its handlers, its settlement and its trips. */
  ghost predicate LogOk(s: State, id: JobId) {
    id in s.requests && s.requests[id].Submission? ==>
      var kind, trips := KindOf(s.requests[id]), Tally(s, id).trips;
      && (forall k :: k in s.workers && s.workers[k].msg.id == id ==> HandlerLogged(s, s.workers[k]))
      && (id in s.settled ==> Logged(s, id, kind, trips + 1, LabelFor(s.settled[id])))
      && (forall n :: 1 <= n <= trips ==> Logged(s, id, kind, n, Retry))
  }

  ghost predicate LogGrows(s: State, t: State) { forall r :: r in s.finished ==> r in t.finished }

  /** Neither trips nor settlement of the job change, and its handlers are accounted for. */
  lemma LogStays(s: State, t: State, id: JobId)
    requires LogOk(s, id) && id in s.requests && id in t.requests && SameRequest(s.requests[id], t.requests[id])
    requires LogGrows(s, t) && Tally(t, id).trips == Tally(s, id).trips
    requires id in t.settled ==> id in s.settled && t.settled[id] == s.settled[id]
    requires forall k :: k in t.workers && t.workers[k].msg.id == id ==> HandlerLogged(t, t.workers[k])
    ensures LogOk(t, id)
  {
    if s.requests[id].Submission? {
      forall n | 1 <= n <= Tally(t, id).trips ensures Logged(t, id, KindOf(t.requests[id]), n, Retry) {
        assert Logged(s, id, KindOf(s.requests[id]), n, Retry);
      }
    }
  }

  lemma LoggedStays(s: State, t: State, h: Handler, h': Handler)
    requires HandlerLogged(s, h) && LogGrows(s, t) && (h' == h || h' == h.(linked := false))
    ensures HandlerLogged(t, h')
  {
  }

  lemma ReturnLogged(cfg: Config, s: State, h: Handler, h': Handler, t: State)
    requires HandlerLogged(s, h) && LogGrows(s, t)
    requires h'.msg == h.msg && h'.worker == h.worker && h'.attempt == h.attempt
    requires h.msg.body.Wire? && Past(h'.pc) && !HandleReturns(h, h') ==>
      h.pc.Parking? && ActionOf(h'.pc) == ParkedLabel
    requires HandleReturns(h, h') ==>
      Return(h.msg.id, h.worker, h.attempt, LabelOf(cfg, h'), ActionOf(h'.pc)) in t.finished
    ensures HandlerLogged(t, h')
  {
    if h.msg.body.Wire? && Past(h'.pc) {
      if HandleReturns(h, h') {
        var r := Return(h.msg.id, h.worker, h.attempt, LabelOf(cfg, h'), ActionOf(h'.pc));
        assert r in t.finished && r.action == ActionOf(h'.pc);
      } else {
        assert Logged(s, h.msg.id, h.worker, h.attempt, ParkedLabel);
      }
    }
  }

  /** A handler gets past its handle function by returning from it. */
  lemma ReturnsFirst(cfg: Config, h: Handler, ok: bool, status: Option<Status>, data: Bytes, h': Handler)
    requires h.msg.body.Wire? && !Settling(h.pc) && !h.pc.Raised? && h' == Next(cfg, h, ok, status, data)
    ensures Past(h'.pc) && !HandleReturns(h, h') ==> h.pc.Parking? && ActionOf(h'.pc) == ParkedLabel
  {
    if !h.pc.Begin? {
      NextOrigin(cfg, h, ok, status, data, h');
      if h.pc.Parking? {
        assert GoNext(cfg, h, ok, status, data).pc.AckParked?;
        assert PyNext(cfg, h, ok, status, data).pc == if ok then AckParked else Raised;
      } else {
        Progress.OnlyParkingRaises(cfg, h, ok, status, data);
      }
    }
  }

  lemma EffectLogged(cfg: Config, s: State, slot: nat, reply: Reply, id: JobId, t: State)
    requires Inv(cfg, s) && Enabled(s, Work(slot, reply)) && !Settling(s.workers[slot].pc)
    requires LogOk(s, id) && id in s.requests && s.requests[id].Submission? && t == Effect(cfg, s, slot, reply)
    ensures LogOk(t, id)
  {
    var h := s.workers[slot];
    EffectFrame(s, h, reply);
    EffectLedger(s, h, reply, id);
    MovedLogged(cfg, s, slot, reply, id, Advance(cfg, s, h, reply), t);
    OthersLogged(s, t, id, slot);
    LogStays(s, t, id);
  }

  lemma MovedLogged(cfg: Config, s: State, slot: nat, reply: Reply, id: JobId, h': Handler, t: State)
    requires Enabled(s, Work(slot, reply)) && !Settling(s.workers[slot].pc)
    requires LogOk(s, id) && id in s.requests && s.requests[id].Submission?
    requires var h := s.workers[slot];
      h' == Next(cfg, h, SeenOk(s, h, reply), StatusRead(s, h), DataRead(s, h)) &&
      t.finished == if HandleReturns(h, h')
                    then s.finished + [Return(h.msg.id, h.worker, h.attempt, LabelOf(cfg, h'), ActionOf(h'.pc))]
                    else s.finished
    ensures LogGrows(s, t) && (h'.msg.id == id ==> HandlerLogged(t, h'))
  {
    var h, ok := s.workers[slot], SeenOk(s, s.workers[slot], reply);
    NextMoves(cfg, h, ok, StatusRead(s, h), DataRead(s, h), h');
    if h.msg.id == id {
      if h.msg.body.Wire? {
        ReturnsFirst(cfg, h, ok, StatusRead(s, h), DataRead(s, h), h');
      }
      ReturnLogged(cfg, s, h, h', t);
    }
  }

  lemma OthersLogged(s: State, t: State, id: JobId, slot: nat)
    requires LogOk(s, id) && id in s.requests && s.requests[id].Submission? && LogGrows(s, t)
    requires forall k :: k in t.workers && k != slot ==>
      k in s.workers && (t.workers[k] == s.workers[k] || t.workers[k] == s.workers[k].(linked := false))
    requires slot in t.workers && t.workers[slot].msg.id == id ==> HandlerLogged(t, t.workers[slot])
    ensures forall k :: k in t.workers && t.workers[k].msg.id == id ==> HandlerLogged(t, t.workers[k])
  {
    forall k | k in t.workers && t.workers[k].msg.id == id ensures HandlerLogged(t, t.workers[k]) {
      if k != slot {
        LoggedStays(s, t, s.workers[k], t.workers[k]);
      }
    }
  }

  /** The holder settles its message: its own run was logged. */
  lemma OwnSettleLogged(cfg: Config, s: State, slot: nat, id: JobId, t: State)
    requires WorkersOk(cfg, s) && LogOk(s, id) && id in s.requests && s.requests[id].Submission?
    requires slot in s.workers && Settling(s.workers[slot].pc) && s.workers[slot].linked && s.workers[slot].msg.id == id
    requires s.workers[slot].attempt == Tally(s, id).trips + 1 && id !in s.settled && t == Settle(s, slot)
    ensures LogOk(t, id)
  {
    var h := s.workers[slot];
    assert HandlerOk(cfg, s, h) && HandlerLogged(s, h);
    SettleFrame(s, slot, t);
    assert t.finished == s.finished && t.requests == s.requests;
    OthersLogged(s, t, id, slot);
    SettledBooks(s, slot, t);
    forall n | 1 <= n <= Tally(t, id).trips ensures Logged(t, id, KindOf(t.requests[id]), n, Retry) {
      assert n <= Tally(s, id).trips ==> Logged(s, id, KindOf(s.requests[id]), n, Retry);
    }
  }

  lemma SettledBooks(s: State, slot: nat, t: State)
    requires slot in s.workers && Settling(s.workers[slot].pc) && s.workers[slot].linked && t == Settle(s, slot)
    ensures var h, id := s.workers[slot], s.workers[slot].msg.id;
      if h.pc.Reject? then Tally(t, id).trips == Tally(s, id).trips + 1 && t.settled == s.settled
      else t.ledger == s.ledger && t.settled == s.settled[id := if h.pc.AckDone? then Succeeded else Parked]
  {
  }

  lemma OtherSettleLogged(s: State, slot: nat, id: JobId, t: State)
    requires LogOk(s, id) && id in s.requests && s.requests[id].Submission?
    requires slot in s.workers && !(s.workers[slot].linked && s.workers[slot].msg.id == id) && t == Settle(s, slot)
    ensures LogOk(t, id)
  {
    SettleFrame(s, slot, t);
    OthersLogged(s, t, id, slot);
    LogStays(s, t, id);
  }

  lemma WorkLogged(cfg: Config, s: State, slot: nat, reply: Reply, id: JobId, loc: Location, t: State)
    requires Inv(cfg, s) && At(s, id, loc) && TokenOk(cfg, s, id, loc) && LogOk(s, id)
    requires id in s.requests && s.requests[id].Submission?
    requires Enabled(s, Work(slot, reply)) && t == Apply(cfg, s, Work(slot, reply))
    ensures LogOk(t, id)
  {
    if !Settling(s.workers[slot].pc) {
      EffectLogged(cfg, s, slot, reply, id, t);
    } else if s.workers[slot].linked && s.workers[slot].msg.id == id {
      assert Holds(s, slot, id);
      OwnSettleLogged(cfg, s, slot, id, t);
    } else {
      OtherSettleLogged(s, slot, id, t);
    }
  }

  /** Trips are counted by rejects alone. */
  lemma SameTrips(cfg: Config, s: State, a: Action, id: JobId, loc: Location, t: State)
    requires Inv(cfg, s) && At(s, id, loc) && TokenOk(cfg, s, id, loc) && id in s.requests
    requires Enabled(s, a) && !a.Work? && t == Apply(cfg, s, a)
    ensures Tally(t, id).trips == Tally(s, id).trips
  {
    if a.Gateway? {
      ServeFrame(s, a.id, a.reply, t);
      NotYetPublished(s, a.id);
    } else if a.Deliver? {
      DeliverFrame(cfg, s, a.copy, a.slot, t);
    }
  }

  lemma OtherLogged(cfg: Config, s: State, a: Action, id: JobId, loc: Location, t: State)
    requires Inv(cfg, s) && At(s, id, loc) && TokenOk(cfg, s, id, loc) && LogOk(s, id)
    requires id in s.requests && s.requests[id].Submission? && Grows(s, t)
    requires Enabled(s, a) && !a.Work? && t == Apply(cfg, s, a)
    ensures LogOk(t, id)
  {
    OthersFinishNothing(cfg, s, a, t);
    SameTrips(cfg, s, a, id, loc, t);
    SameSettled(cfg, s, a, t);
    HandlersLogged(cfg, s, a, id, t);
    LogStays(s, t, id);
  }

  lemma HandlersLogged(cfg: Config, s: State, a: Action, id: JobId, t: State)
    requires LogOk(s, id) && id in s.requests && s.requests[id].Submission? && LogGrows(s, t)
    requires Enabled(s, a) && !a.Work? && t == Apply(cfg, s, a)
    ensures forall k :: k in t.workers && t.workers[k].msg.id == id ==> HandlerLogged(t, t.workers[k])
  {
    if a.Deliver? {
      DeliverFrame(cfg, s, a.copy, a.slot, t);
      OthersLogged(s, t, id, a.slot);
    } else {
      OtherWorkers(cfg, s, a, t);
      forall k | k in t.workers && t.workers[k].msg.id == id ensures HandlerLogged(t, t.workers[k]) {
        LoggedStays(s, t, s.workers[k], t.workers[k]);
      }
    }
  }

  lemma SameSettled(cfg: Config, s: State, a: Action, t: State)
    requires Enabled(s, a) && !a.Work? && t == Apply(cfg, s, a)
    ensures t.settled == s.settled
  {
    if a.Gateway? {
      ServeFrame(s, a.id, a.reply, t);
    }
  }

  /** A request that was not there before has no handlers, trips or settlement. */
  lemma FreshLog(cfg: Config, s: State, id: JobId, loc: Location)
    requires WorkersOk(cfg, s) && At(s, id, loc) && TokenOk(cfg, s, id, loc) && id !in s.enqueued
    ensures LogOk(s, id)
  {
    forall k | k in s.workers ensures s.workers[k].msg.id in s.enqueued {
      assert HandlerOk(cfg, s, s.workers[k]);
    }
  }

  lemma StepLogged(cfg: Config, s: State, a: Action, id: JobId, loc: Location, t: State)
    requires Inv(cfg, s) && At(s, id, loc) && TokenOk(cfg, s, id, loc) && LogOk(s, id)
    requires id in s.requests && s.requests[id].Submission? && t == Step(cfg, s, a)
    ensures LogOk(t, id)
  {
    if Enabled(s, a) {
      if a.Work? {
        WorkLogged(cfg, s, a.slot, a.reply, id, loc, t);
      } else {
        StepKeeps(cfg, s, a);
        OtherLogged(cfg, s, a, id, loc, t);
      }
    }
  }

  lemma {:induction false} LoggedSoFar(cfg: Config, run: seq<Action>, id: JobId, s: State)
    requires s == Exec(cfg, run)
    ensures LogOk(s, id)
  {
    if run != [] {
      var n := |run| - 1;
      var prev, loc := Exec(cfg, run[..n]), Where(cfg, run[..n], id);
      LoggedSoFar(cfg, run[..n], id, prev);
      if id in prev.requests && prev.requests[id].Submission? {
        Reachable(cfg, run[..n]);
        BooksBalance(cfg, run[..n]);
        TokenIsThere(cfg, run[..n], id);
        StepLogged(cfg, prev, run[n], id, loc, s);
      } else {
        NewLogged(cfg, run, id, s);
      }
    }
  }

  lemma NewLogged(cfg: Config, run: seq<Action>, id: JobId, s: State)
    requires run != [] && s == Exec(cfg, run)
    requires var r := Exec(cfg, run[..|run| - 1]).requests; !(id in r && r[id].Submission?)
    ensures LogOk(s, id)
  {
    var prev := Exec(cfg, run[..|run| - 1]);
    Reachable(cfg, run);
    Reachable(cfg, run[..|run| - 1]);
    BooksBalance(cfg, run);
    TokenIsThere(cfg, run, id);
    StepKeeps(cfg, prev, run[|run| - 1]);
    if id !in prev.requests {
      NewIsUnpublished(cfg, prev, run[|run| - 1], id, s);
      if id !in s.enqueued {
        FreshLog(cfg, s, id, Where(cfg, run, id));
      }
    }
  }

  lemma NewIsUnpublished(cfg: Config, s: State, a: Action, id: JobId, t: State)
    requires RequestsOk(s) && id !in s.requests && t == Step(cfg, s, a)
    ensures id in t.requests && t.requests[id].Submission? ==> id !in t.enqueued
  {
    if Enabled(s, a) {
      if a.Gateway? {
        ServeRequests(s, a.id, a.reply, t);
      } else if a.Work? && !Settling(s.workers[a.slot].pc) {
        EffectFrame(s, s.workers[a.slot], a.reply);
      }
    }
  }

  lemma ServeRequests(s: State, i: JobId, reply: Reply, t: State)
    requires i in s.requests && s.requests[i].Submission? && t == Serve(s, i, reply)
    ensures t.requests.Keys == s.requests.Keys
  {
  }

  /** Over every run each settlement, and each trip through the retry queue, of a job's
      message goes with a finished handler run of exactly that attempt and that verdict. */
  lemma SettlementsAreLogged(cfg: Config, run: seq<Action>, id: JobId, s: State)
    requires Reaches(cfg, run, s) && id in s.requests && s.requests[id].Submission?
    ensures var kind, trips := KindOf(s.requests[id]), Tally(s, id).trips;
      && (id in s.settled ==> Logged(s, id, kind, trips + 1, LabelFor(s.settled[id])))
      && (forall n :: 1 <= n <= trips ==> Logged(s, id, kind, n, Retry))
  {
    assert Exec(cfg, run) == s;
    LoggedSoFar(cfg, run, id, s);
  }

  lemma LoggedIsCounted(s: State, id: JobId, kind: Kind, attempt: int, counted: Label)
    requires LabelsMatch(s, kind) && Logged(s, id, kind, attempt, counted)
    ensures Counted(s, id, kind, attempt, counted)
  {
    var r :| r in s.finished && r.id == id && r.worker == kind && r.attempt == attempt && r.action == counted;
    assert r.counted == counted;
  }

  /** So the counters account for the settlements: a settled job's last attempt was
      counted as a success or as parked, whichever it was, and each trip as a retry, by
      the OCR worker always and by the image worker if its maximum is 5. */
  lemma SettlementsAreCounted(cfg: Config, run: seq<Action>, id: JobId, s: State)
    requires Reaches(cfg, run, s) && id in s.requests && s.requests[id].Submission?
    requires KindOf(s.requests[id]).Image? ==> cfg.imageRetries == 5
    ensures var kind, trips := KindOf(s.requests[id]), Tally(s, id).trips;
      && (id in s.settled ==> Counted(s, id, kind, trips + 1, LabelFor(s.settled[id])))
      && (forall n :: 1 <= n <= trips ==> Counted(s, id, kind, n, Retry))
  {
    assert Exec(cfg, run) == s;
    var kind, trips := KindOf(s.requests[id]), Tally(s, id).trips;
    LoggedSoFar(cfg, run, id, s);
    LabelsMatchVerdicts(cfg, run, kind, s);
    if id in s.settled {
      LoggedIsCounted(s, id, kind, trips + 1, LabelFor(s.settled[id]));
    }
    forall n | 1 <= n <= trips ensures Counted(s, id, kind, n, Retry) {
      LoggedIsCounted(s, id, kind, n, Retry);
    }
  }
}
