/** What holds when deliveries are exclusive, that is, when no handler outlives its
    connection: where a message is determines its job row, and a completed job stays
    completed; and which faults break the latter. */
module Exclusive {
  import opened Media
  import opened Amqp
  import opened Pipeline
  import opened Integrity
  import opened Custody
  import opened Retries

  /** Every step of the run satisfies p in the state it is taken in. */
  ghost predicate Always(cfg: Config, run: seq<Action>, p: (State, Action) -> bool) {
    run == [] ||
    (Always(cfg, run[..|run| - 1], p) && p(Exec(cfg, run[..|run| - 1]), run[|run| - 1]))
  }

  /** The same, stated like Reaches. */
  ghost predicate Throughout(cfg: Config, run: seq<Action>, p: (State, Action) -> bool) {
    forall r: seq<Action> :: r == run ==> Always(cfg, r, p)
  }

  predicate WritesStatus(pc: Pc) { pc.SetProcessing? || pc.SetCompleted? || pc.SetFailed? }

  /** Exclusive delivery and successful status writes. */
  predicate Orderly(s: State, a: Action) {
    !a.Disconnect? &&
    (a.Work? && a.slot in s.workers && WritesStatus(s.workers[a.slot].pc) ==> a.reply.Done?)
  }

  /** The status read succeeds, the completion write is atomic and, for the OCR worker,
      the completion event is published. */
  predicate FaithfulReply(h: Handler, reply: Reply) {
    && (h.pc.CheckStatus? ==> reply.Done?)
    && (h.pc.SetCompleted? ==> !reply.Torn?)
    && (h.pc.TellCompleted? && h.worker.Ocr? ==> reply.Done?)
  }

  /** Exclusive delivery and faithful replies. */
  predicate Faithful(s: State, a: Action) {
    !a.Disconnect? && (a.Work? && a.slot in s.workers ==> FaithfulReply(s.workers[a.slot], a.reply))
  }

  // ---- exclusive delivery ----

  ghost predicate AllLinked(s: State) { forall k :: k in s.workers ==> s.workers[k].linked }

  lemma LinkedEffect(cfg: Config, s: State, slot: nat, reply: Reply, t: State)
    requires AllLinked(s) && Enabled(s, Work(slot, reply)) && !Settling(s.workers[slot].pc)
    requires t == Effect(cfg, s, slot, reply)
    ensures AllLinked(t)
  {
    var h := s.workers[slot];
    EffectFrame(s, h, reply);
    NextMoves(cfg, h, SeenOk(s, h, reply), StatusRead(s, h), DataRead(s, h), Advance(cfg, s, h, reply));
  }

  lemma LinkedStep(cfg: Config, s: State, a: Action, t: State)
    requires AllLinked(s) && !a.Disconnect? && t == Step(cfg, s, a)
    ensures AllLinked(t)
  {
    if Enabled(s, a) {
      if a.Work? {
        if Settling(s.workers[a.slot].pc) {
          SettleFrame(s, a.slot, t);
        } else {
          LinkedEffect(cfg, s, a.slot, a.reply, t);
        }
      } else if a.Gateway? {
        ServeFrame(s, a.id, a.reply, t);
      } else if a.Deliver? {
        DeliverFrame(cfg, s, a.copy, a.slot, t);
      }
    }
  }

  // ---- how statuses change ----

  function StatusOf(s: State, id: JobId): Option<Status> {
    if id in s.jobs then Some(s.jobs[id].status) else None
  }

  lemma StoreStatus(s: State, h: Handler, id: JobId)
    requires h.msg.body.Wire? && JobOf(h).id == h.msg.id
    ensures StatusOf(PerformStore(s, h), id) ==
      if id == h.msg.id && id in s.jobs && Written(h.pc).Some? then Written(h.pc) else StatusOf(s, id)
  {
    if Written(h.pc).Some? {
      PerformWrite(s, h);
    } else {
      NoWrite(s, h);
    }
  }

  lemma NoWrite(s: State, h: Handler)
    requires h.msg.body.Wire? && Written(h.pc).None?
    ensures PerformStore(s, h).jobs == s.jobs
  {
    match h.pc
    case Put(_) =>
    case Record(_) =>
    case _ =>
  }

  lemma EffectStatus(s: State, h: Handler, reply: Reply, id: JobId)
    requires h.msg.body.Wire? ==> JobOf(h).id == h.msg.id
    ensures StatusOf(Effected(s, h, reply), id) ==
      if id == h.msg.id && id in s.jobs && h.msg.body.Wire? && reply.Applied() && Written(h.pc).Some?
      then Written(h.pc) else StatusOf(s, id)
  {
    if h.msg.body.Wire? && !h.pc.Parking? && !Telling(h.pc) {
      assert s == s.(ledger := s.ledger);
      StoreStatus(s, h, id);
    }
  }

  predicate OwnWork(s: State, a: Action, id: JobId) {
    a.Work? && Enabled(s, a) && !Settling(s.workers[a.slot].pc) && s.workers[a.slot].msg.id == id
  }

  lemma OwnJob(cfg: Config, s: State, h: Handler)
    requires Inv(cfg, s) && HandlerOk(cfg, s, h) && h.msg.body.Wire?
    ensures JobOf(h).id == h.msg.id
  {
    assert SubmissionOk(s, h.msg.id, s.requests[h.msg.id]);
  }

  lemma WriterHasRow(cfg: Config, s: State, h: Handler)
    requires Inv(cfg, s) && HandlerOk(cfg, s, h)
    ensures Written(h.pc).Some? ==> h.msg.body.Wire? && h.msg.id in s.jobs
    ensures h.msg.body.Wire? ==> JobOf(h).id == h.msg.id
  {
    if h.msg.body.Wire? {
      HasRow(cfg, s, h);
      OwnJob(cfg, s, h);
    }
  }

  lemma WorkStatus(cfg: Config, s: State, slot: nat, reply: Reply, id: JobId, t: State)
    requires Inv(cfg, s) && Enabled(s, Work(slot, reply)) && t == Apply(cfg, s, Work(slot, reply))
    ensures StatusOf(t, id) ==
      var h := s.workers[slot];
      if h.msg.id == id && reply.Applied() && Written(h.pc).Some? then Written(h.pc) else StatusOf(s, id)
  {
    var h := s.workers[slot];
    if !Settling(h.pc) {
      assert HandlerOk(cfg, s, h);
      WriterHasRow(cfg, s, h);
      EffectStatus(s, h, reply, id);
      SameJobs(Effected(s, h, reply), t, id);
    } else {
      SameJobs(s, t, id);
    }
  }

  lemma SameJobs(s: State, t: State, id: JobId)
    requires t.jobs == s.jobs
    ensures StatusOf(t, id) == StatusOf(s, id)
  {
  }

  /** The gateway's insert of the job's row takes effect. */
  predicate Inserts(s: State, a: Action, id: JobId) {
    a.Gateway? && a.id == id && Enabled(s, a) && s.requests[id].pc.InsertRow? && a.reply.Applied()
  }

  /** A status write of a handler of the job takes effect. */
  predicate Writes(s: State, a: Action, id: JobId) {
    OwnWork(s, a, id) && a.reply.Applied() && Written(s.workers[a.slot].pc).Some?
  }

  /** What any step does to any job's row status: a status write of one of the job's own
      handlers sets it to what is written, the insert makes it pending, and nothing else
      creates or changes it. */
  lemma StepStatus(cfg: Config, s: State, a: Action, id: JobId, t: State)
    requires Inv(cfg, s) && t == Step(cfg, s, a)
    ensures StatusOf(t, id) ==
      if Writes(s, a, id) then Written(s.workers[a.slot].pc)
      else if Inserts(s, a, id) then Some(Pending)
      else StatusOf(s, id)
  {
    if Enabled(s, a) {
      if a.Work? {
        WorkStatus(cfg, s, a.slot, a.reply, id, t);
      } else if a.Gateway? {
        ServeStatus(s, a.id, a.reply, id, t);
      } else {
        OtherJobs(cfg, s, a, t);
        SameJobs(s, t, id);
      }
    }
  }

  lemma OtherJobs(cfg: Config, s: State, a: Action, t: State)
    requires Enabled(s, a) && !a.Work? && !a.Gateway? && t == Apply(cfg, s, a)
    ensures t.jobs == s.jobs
  {
  }

  lemma ServeStatus(s: State, i: JobId, reply: Reply, id: JobId, t: State)
    requires i in s.requests && s.requests[i].Submission? && t == Serve(s, i, reply)
    ensures StatusOf(t, id) ==
      if i == id && s.requests[i].pc.InsertRow? && reply.Applied() then Some(Pending) else StatusOf(s, id)
  {
    ServeJobs(s, i, reply, t);
  }

  lemma ServeJobs(s: State, i: JobId, reply: Reply, t: State)
    requires i in s.requests && s.requests[i].Submission? && t == Serve(s, i, reply)
    ensures var r := s.requests[i];
      t.jobs ==
      if r.pc.InsertRow? && reply.Applied()
      then s.jobs[i := Row(r.job.kind, Pending, r.job.sourceKey, r.job.operations)]
      else s.jobs
  {
    match s.requests[i].pc
    case StoreUpload =>
    case InsertRow =>
    case PublishJob =>
    case Answered(_) =>
  }

  /** An inserted row's status changes only by a write. */
  lemma StatusStays(cfg: Config, s: State, a: Action, id: JobId, t: State)
    requires Inv(cfg, s) && t == Step(cfg, s, a) && id in s.jobs && !OwnWork(s, a, id)
    ensures StatusOf(t, id) == StatusOf(s, id)
  {
    StepStatus(cfg, s, a, id, t);
    if a.Gateway? && a.id == id && Enabled(s, a) {
      InsertsOnce(s, id);
    }
  }

  lemma InsertsOnce(s: State, id: JobId)
    requires RequestsOk(s) && id in s.requests && s.requests[id].Submission?
    ensures s.requests[id].pc.InsertRow? ==> id !in s.jobs
  {
    assert SubmissionOk(s, id, s.requests[id]);
  }

  /** With exclusive delivery, a handler at work on a message is the one holding it. */
  lemma OwnWorkHolds(s: State, a: Action, id: JobId, loc: Location)
    requires At(s, id, loc) && AllLinked(s) && OwnWork(s, a, id)
    ensures loc == Held(a.slot)
  {
    assert Holds(s, a.slot, id);
  }

  // ---- placement determines the row ----

  predicate FailedPc(pc: Pc) { pc.TellFailed? || pc.Parking? || pc.AckParked? || pc.Reject? || pc.Raised? }

  predicate CompletedPc(pc: Pc) { pc.TellCompleted? || pc.AckDone? }

  /** In the retry queue, or parked, a job is failed; settled by success it is
      completed; and its holder knows as much. */
  ghost predicate Placed(s: State, id: JobId, loc: Location) {
    match loc
    case Unpublished => true
    case Ready(c) => c.queue == RetryQueue ==> StatusOf(s, id) == Some(Failed)
    case Gone => id in s.settled && StatusOf(s, id) == Some(if s.settled[id].Parked? then Failed else Completed)
    case Held(k) =>
      && k in s.workers
      && (FailedPc(s.workers[k].pc) ==> StatusOf(s, id) == Some(Failed))
      && (CompletedPc(s.workers[k].pc) ==> StatusOf(s, id) == Some(Completed))
  }

  lemma FailedOrigin(cfg: Config, h: Handler, ok: bool, status: Option<Status>, data: Bytes)
    requires h.msg.body.Wire? && !Settling(h.pc) && !h.pc.Raised?
    ensures FailedPc(Next(cfg, h, ok, status, data).pc) ==> h.pc.SetFailed? || FailedPc(h.pc)
  {
    if !h.pc.Begin? {
      assert FailedPc(GoNext(cfg, h, ok, status, data).pc) ==> h.pc.SetFailed? || FailedPc(h.pc);
      assert FailedPc(PyNext(cfg, h, ok, status, data).pc) ==> h.pc.SetFailed? || FailedPc(h.pc);
    }
  }

  lemma EffectPlaced(cfg: Config, s: State, slot: nat, reply: Reply, id: JobId, t: State)
    requires Inv(cfg, s) && Enabled(s, Work(slot, reply)) && !Settling(s.workers[slot].pc)
    requires s.workers[slot].msg.id == id && s.workers[slot].msg.body.Wire? && id in s.jobs
    requires Placed(s, id, Held(slot)) && Orderly(s, Work(slot, reply))
    requires t == Apply(cfg, s, Work(slot, reply))
    ensures Placed(t, id, Held(slot))
  {
    var h := s.workers[slot];
    var ok := SeenOk(s, h, reply);
    var h' := Advance(cfg, s, h, reply);
    WorkStatus(cfg, s, slot, reply, id, t);
    FailedOrigin(cfg, h, ok, StatusRead(s, h), DataRead(s, h));
    NextOrigin(cfg, h, ok, StatusRead(s, h), DataRead(s, h), h');
    assert t.workers[slot] == h';
    PlacedAfter(s, id, slot, t, reply);
  }

  /** The two ways to a point that says failed, or completed: being there already, or
      having just written it. */
  lemma PlacedAfter(s: State, id: JobId, slot: nat, t: State, reply: Reply)
    requires slot in s.workers && slot in t.workers && Placed(s, id, Held(slot))
    requires WritesStatus(s.workers[slot].pc) ==> reply.Done?
    requires StatusOf(t, id) ==
      if reply.Applied() && Written(s.workers[slot].pc).Some? then Written(s.workers[slot].pc) else StatusOf(s, id)
    requires FailedPc(t.workers[slot].pc) ==> s.workers[slot].pc.SetFailed? || FailedPc(s.workers[slot].pc)
    requires CompletedPc(t.workers[slot].pc) ==>
      s.workers[slot].pc.SetCompleted? || CompletedPc(s.workers[slot].pc) || StatusOf(s, id) == Some(Completed)
    requires CompletedPc(t.workers[slot].pc) && !s.workers[slot].pc.SetCompleted? ==> !WritesStatus(s.workers[slot].pc)
    ensures Placed(t, id, Held(slot))
  {
  }

  lemma SamePlaced(s: State, id: JobId, loc: Location, t: State)
    requires Placed(s, id, loc) && StatusOf(t, id) == StatusOf(s, id)
    requires loc.Gone? ==> id in t.settled && t.settled[id] == s.settled[id]
    requires loc.Held? ==> loc.slot in t.workers && t.workers[loc.slot].pc == s.workers[loc.slot].pc
    ensures Placed(t, id, loc)
  {
  }

  lemma SettlePlaced(s: State, slot: nat, reply: Reply, id: JobId, loc: Location, t: State, next: Location)
    requires At(s, id, loc) && AllLinked(s) && Placed(s, id, loc) && !loc.Unpublished?
    requires slot in s.workers && Settling(s.workers[slot].pc) && t == Settle(s, slot)
    requires next == NextLoc(s, Work(slot, reply), id, loc)
    ensures Placed(t, id, next)
  {
    var h := s.workers[slot];
    assert t.jobs == s.jobs;
    if loc == Held(slot) {
      assert Holds(s, slot, id);
    } else {
      assert !Holds(s, slot, id);
      SettleFrame(s, slot, t);
      SamePlaced(s, id, loc, t);
    }
  }

  lemma WorkPlaced(cfg: Config, s: State, slot: nat, reply: Reply, id: JobId, loc: Location, t: State, next: Location)
    requires Inv(cfg, s) && At(s, id, loc) && AllLinked(s) && id in s.jobs
    requires Placed(s, id, loc) && !loc.Unpublished? && Orderly(s, Work(slot, reply))
    requires Enabled(s, Work(slot, reply)) && t == Apply(cfg, s, Work(slot, reply))
    requires next == NextLoc(s, Work(slot, reply), id, loc)
    ensures Placed(t, id, next)
  {
    var h := s.workers[slot];
    if Settling(h.pc) {
      SettlePlaced(s, slot, reply, id, loc, t, next);
    } else if h.msg.id == id {
      OwnWorkHolds(s, Work(slot, reply), id, loc);
      JobIsWire(cfg, s, h);
      EffectPlaced(cfg, s, slot, reply, id, t);
    } else {
      OtherPlaced(cfg, s, slot, reply, id, loc, t);
    }
  }

  lemma JobIsWire(cfg: Config, s: State, h: Handler)
    requires JobsOk(s) && HandlerOk(cfg, s, h) && h.msg.id in s.jobs
    ensures h.msg.body.Wire?
  {
  }

  lemma OtherPlaced(cfg: Config, s: State, slot: nat, reply: Reply, id: JobId, loc: Location, t: State)
    requires Inv(cfg, s) && At(s, id, loc) && Placed(s, id, loc) && id in s.jobs
    requires Enabled(s, Work(slot, reply)) && !Settling(s.workers[slot].pc) && s.workers[slot].msg.id != id
    requires t == Apply(cfg, s, Work(slot, reply))
    ensures Placed(t, id, loc)
  {
    WorkStatus(cfg, s, slot, reply, id, t);
    EffectFrame(s, s.workers[slot], reply);
    assert loc != Held(slot);
    SamePlaced(s, id, loc, t);
  }

  lemma MovePlaced(cfg: Config, s: State, a: Action, id: JobId, loc: Location, t: State, next: Location)
    requires At(s, id, loc) && Placed(s, id, loc) && !loc.Unpublished? && Enabled(s, a)
    requires a.Deliver? || a.Expire? || a.Crash?
    requires t == Apply(cfg, s, a) && next == NextLoc(s, a, id, loc)
    ensures Placed(t, id, next)
  {
    assert t.jobs == s.jobs && t.settled == s.settled;
    if next == loc {
      SamePlaced(s, id, loc, t);
    }
  }

  lemma GatewayPlaced(cfg: Config, s: State, a: Action, id: JobId, loc: Location, t: State, next: Location)
    requires Inv(cfg, s) && At(s, id, loc) && Placed(s, id, loc) && Enabled(s, a) && id in s.jobs
    requires a.Submit? || a.Gateway? || a.Inject?
    requires t == Step(cfg, s, a) && next == NextLoc(s, a, id, loc)
    ensures Placed(t, id, next)
  {
    StatusStays(cfg, s, a, id, t);
    if a.Gateway? {
      ServeFrame(s, a.id, a.reply, t);
      assert SubmissionOk(s, a.id, s.requests[a.id]);
    }
    assert t.workers == s.workers && t.settled == s.settled;
    SamePlaced(s, id, loc, t);
  }

  lemma StepPlaced(cfg: Config, s: State, a: Action, id: JobId, loc: Location, t: State, next: Location)
    requires Inv(cfg, s) && At(s, id, loc) && AllLinked(s) && Placed(s, id, loc)
    requires Orderly(s, a) && t == Step(cfg, s, a) && next == NextLoc(s, a, id, loc)
    requires !loc.Unpublished? ==> id in s.jobs
    ensures Placed(t, id, next)
  {
    if Enabled(s, a) {
      if loc.Unpublished? {
        FirstPlaced(s, a, id);
      } else {
        match a
        case Work(slot, reply) => WorkPlaced(cfg, s, slot, reply, id, loc, t, next);
        case Submit(_, _, _, _, _, _) => GatewayPlaced(cfg, s, a, id, loc, t, next);
        case Gateway(_, _) => GatewayPlaced(cfg, s, a, id, loc, t, next);
        case Inject(_, _, _) => GatewayPlaced(cfg, s, a, id, loc, t, next);
        case _ => MovePlaced(cfg, s, a, id, loc, t, next);
      }
    }
  }

  lemma FirstPlaced(s: State, a: Action, id: JobId)
    ensures var next := NextLoc(s, a, id, Unpublished);
      next.Unpublished? || (next.Ready? && next.copy.queue != RetryQueue)
  {
  }

  lemma {:induction false} PlacedSoFar(cfg: Config, run: seq<Action>, id: JobId, s: State, loc: Location)
    requires Always(cfg, run, Orderly) && s == Exec(cfg, run) && loc == Where(cfg, run, id)
    ensures AllLinked(s)
    ensures (id in s.requests && s.requests[id].Foreign?) || Placed(s, id, loc)
  {
    if run != [] {
      var n := |run| - 1;
      var prev, a, from := Exec(cfg, run[..n]), run[n], Where(cfg, run[..n], id);
      PlacedSoFar(cfg, run[..n], id, prev, from);
      Reachable(cfg, run[..n]);
      TokenIsThere(cfg, run[..n], id);
      LinkedStep(cfg, prev, a, s);
      StepKeeps(cfg, prev, a);
      if !(id in s.requests && s.requests[id].Foreign?) {
        if !from.Unpublished? {
          assert id in prev.requests && SubmissionOk(prev, id, prev.requests[id]);
        }
        StepPlaced(cfg, prev, a, id, from, s, loc);
      }
    }
  }

  /** Placement determines the row, in every orderly run: a job whose message waits in
      the retry queue is failed, one settled by parking is failed, one settled by success
      is completed, so no settled job is left in processing. */
  lemma PlacementDeterminesRow(cfg: Config, run: seq<Action>, id: JobId, s: State, loc: Location)
    requires Throughout(cfg, run, Orderly) && Reaches(cfg, run, s) && Located(cfg, run, id, loc)
    requires id in s.requests && s.requests[id].Submission?
    ensures Placed(s, id, loc)
    ensures id in s.settled ==> StatusOf(s, id) == Some(if s.settled[id].Parked? then Failed else Completed)
  {
    assert Always(cfg, run, Orderly) && Exec(cfg, run) == s && Where(cfg, run, id) == loc;
    PlacedSoFar(cfg, run, id, s, loc);
    TokenIsThere(cfg, run, id);
  }

  // ---- completed is absorbing ----

  predicate Quiet(pc: Pc) { pc.Begin? || pc.CheckStatus? || pc.TellCompleted? || pc.AckDone? }

  /** While a job is completed, the handler holding its message, if any, is at a point
      from which it writes nothing. */
  ghost predicate Resting(s: State, id: JobId, loc: Location) {
    StatusOf(s, id) == Some(Completed) && loc.Held? ==>
      loc.slot in s.workers && Quiet(s.workers[loc.slot].pc)
  }

  lemma QuietNext(cfg: Config, h: Handler, ok: bool, status: Option<Status>, data: Bytes)
    requires h.msg.body.Wire?
    ensures h.pc.Begin? ==> Next(cfg, h, ok, status, data).pc.CheckStatus?
    ensures h.pc.CheckStatus? && ok && status == Some(Completed) ==> Next(cfg, h, ok, status, data).pc.AckDone?
    ensures h.pc.TellCompleted? && (ok || h.worker.Image?) ==> Next(cfg, h, ok, status, data).pc.AckDone?
    ensures h.pc.SetCompleted? && ok ==> Next(cfg, h, ok, status, data).pc.TellCompleted?
  {
  }

  lemma EffectRests(cfg: Config, s: State, slot: nat, reply: Reply, id: JobId, t: State)
    requires Inv(cfg, s) && Enabled(s, Work(slot, reply)) && !Settling(s.workers[slot].pc)
    requires s.workers[slot].msg.id == id && s.workers[slot].msg.body.Wire? && id in s.jobs
    requires s.workers[slot].linked && Resting(s, id, Held(slot)) && Faithful(s, Work(slot, reply))
    requires t == Apply(cfg, s, Work(slot, reply))
    ensures Resting(t, id, Held(slot))
    ensures StatusOf(s, id) == Some(Completed) ==> StatusOf(t, id) == Some(Completed)
  {
    var h := s.workers[slot];
    WorkStatus(cfg, s, slot, reply, id, t);
    QuietNext(cfg, h, SeenOk(s, h, reply), StatusRead(s, h), DataRead(s, h));
    assert t.workers[slot] == Advance(cfg, s, h, reply);
  }

  lemma SameRest(s: State, id: JobId, loc: Location, t: State)
    requires Resting(s, id, loc) && StatusOf(t, id) == StatusOf(s, id)
    requires loc.Held? && loc.slot in s.workers ==>
      loc.slot in t.workers && t.workers[loc.slot].pc == s.workers[loc.slot].pc
    ensures Resting(t, id, loc)
  {
  }

  lemma WorkRests(cfg: Config, s: State, slot: nat, reply: Reply, id: JobId, loc: Location, t: State, next: Location)
    requires Inv(cfg, s) && At(s, id, loc) && AllLinked(s) && id in s.jobs && Resting(s, id, loc)
    requires Faithful(s, Work(slot, reply)) && Enabled(s, Work(slot, reply))
    requires t == Apply(cfg, s, Work(slot, reply)) && next == NextLoc(s, Work(slot, reply), id, loc)
    ensures Resting(t, id, next)
    ensures StatusOf(s, id) == Some(Completed) ==> StatusOf(t, id) == Some(Completed)
  {
    var h := s.workers[slot];
    if OwnWork(s, Work(slot, reply), id) {
      OwnWorkHolds(s, Work(slot, reply), id, loc);
      assert HandlerOk(cfg, s, h) && s.requests[id].Submission?;
      EffectRests(cfg, s, slot, reply, id, t);
    } else {
      StatusStays(cfg, s, Work(slot, reply), id, t);
      if loc != Held(slot) {
        WorkLeavesOthers(cfg, s, slot, reply, loc, t);
        SameRest(s, id, loc, t);
      }
    }
  }

  lemma WorkLeavesOthers(cfg: Config, s: State, slot: nat, reply: Reply, loc: Location, t: State)
    requires Enabled(s, Work(slot, reply)) && loc != Held(slot) && t == Apply(cfg, s, Work(slot, reply))
    ensures loc.Held? && loc.slot in s.workers ==> loc.slot in t.workers && t.workers[loc.slot] == s.workers[loc.slot]
  {
    if Settling(s.workers[slot].pc) {
      SettleFrame(s, slot, t);
    } else {
      EffectFrame(s, s.workers[slot], reply);
    }
  }

  lemma MoveLeavesHolder(cfg: Config, s: State, a: Action, k: nat, t: State)
    requires Enabled(s, a) && !a.Work? && !a.Disconnect? && a != Crash(k) && k in s.workers
    requires t == Apply(cfg, s, a)
    ensures k in t.workers && t.workers[k] == s.workers[k]
  {
    if a.Gateway? {
      ServeFrame(s, a.id, a.reply, t);
    }
  }

  lemma MoveRests(cfg: Config, s: State, a: Action, id: JobId, loc: Location, t: State, next: Location)
    requires Inv(cfg, s) && id in s.jobs && Resting(s, id, loc) && !a.Work? && !a.Disconnect? && Enabled(s, a)
    requires t == Apply(cfg, s, a) && next == NextLoc(s, a, id, loc)
    ensures Resting(t, id, next) && StatusOf(t, id) == StatusOf(s, id)
  {
    StatusStays(cfg, s, a, id, t);
    if next == loc {
      if loc.Held? && loc.slot in s.workers {
        StillHeld(s, a, id, loc);
        MoveLeavesHolder(cfg, s, a, loc.slot, t);
      }
      SameRest(s, id, loc, t);
    }
  }

  lemma StillHeld(s: State, a: Action, id: JobId, loc: Location)
    requires Enabled(s, a) && loc.Held? && NextLoc(s, a, id, loc) == loc
    ensures a != Crash(loc.slot)
  {
  }

  lemma StepRests(cfg: Config, s: State, a: Action, id: JobId, loc: Location, t: State, next: Location)
    requires Inv(cfg, s) && At(s, id, loc) && AllLinked(s) && Resting(s, id, loc) && Faithful(s, a)
    requires t == Step(cfg, s, a) && next == NextLoc(s, a, id, loc)
    ensures Resting(t, id, next)
    ensures StatusOf(s, id) == Some(Completed) ==> StatusOf(t, id) == Some(Completed)
  {
    if id !in s.jobs {
      NewRowRests(cfg, s, a, id, t);
    } else if a.Work? && Enabled(s, a) {
      WorkRests(cfg, s, a.slot, a.reply, id, loc, t, next);
    } else if Enabled(s, a) {
      MoveRests(cfg, s, a, id, loc, t, next);
    }
  }

  /** A row is born pending. */
  lemma NewRowRests(cfg: Config, s: State, a: Action, id: JobId, t: State)
    requires Inv(cfg, s) && id !in s.jobs && t == Step(cfg, s, a)
    ensures StatusOf(t, id) != Some(Completed)
  {
    StepStatus(cfg, s, a, id, t);
    if Writes(s, a, id) {
      assert HandlerOk(cfg, s, s.workers[a.slot]);
      WriterHasRow(cfg, s, s.workers[a.slot]);
    }
  }

  lemma {:induction false} RestingSoFar(cfg: Config, run: seq<Action>, id: JobId, s: State, loc: Location)
    requires Always(cfg, run, Faithful) && s == Exec(cfg, run) && loc == Where(cfg, run, id)
    ensures AllLinked(s) && Resting(s, id, loc)
  {
    if run != [] {
      var n := |run| - 1;
      var prev, from := Exec(cfg, run[..n]), Where(cfg, run[..n], id);
      RestingSoFar(cfg, run[..n], id, prev, from);
      Reachable(cfg, run[..n]);
      TokenIsThere(cfg, run[..n], id);
      LinkedStep(cfg, prev, run[n], s);
      StepRests(cfg, prev, run[n], id, from, s, loc);
    }
  }

  lemma {:induction false} StaysCompleted(cfg: Config, run: seq<Action>, longer: seq<Action>, id: JobId)
    requires run <= longer && Always(cfg, longer, Faithful)
    requires StatusOf(Exec(cfg, run), id) == Some(Completed)
    ensures StatusOf(Exec(cfg, longer), id) == Some(Completed)
    decreases |longer|
  {
    if |run| < |longer| {
      var n := |longer| - 1;
      var prev, from := Exec(cfg, longer[..n]), Where(cfg, longer[..n], id);
      StaysCompleted(cfg, run, longer[..n], id);
      RestingSoFar(cfg, longer[..n], id, prev, from);
      Reachable(cfg, longer[..n]);
      TokenIsThere(cfg, longer[..n], id);
      StepRests(cfg, prev, longer[n], id, from, Exec(cfg, longer), Where(cfg, longer, id));
    } else {
      assert run == longer;
    }
  }

  /** Completed is absorbing: in every faithful run, with any number of workers, crashes
      and redeliveries, a completed job stays completed. */
  lemma CompletedIsAbsorbing(cfg: Config, run: seq<Action>, longer: seq<Action>, id: JobId, s: State, t: State)
    requires run <= longer && Throughout(cfg, longer, Faithful)
    requires Reaches(cfg, run, s) && Reaches(cfg, longer, t)
    requires StatusOf(s, id) == Some(Completed)
    ensures StatusOf(t, id) == Some(Completed)
  {
    assert Always(cfg, longer, Faithful) && Exec(cfg, run) == s && Exec(cfg, longer) == t;
    StaysCompleted(cfg, run, longer, id);
  }
}
