/** Exactly which faults undo a completion: at each step, and by runs that show each
    condition under which completed is absorbing to be needed. */
module Faults {
  import opened Media
  import opened Amqp
  import opened Processor
  import opened Pipeline
  import opened Integrity
  import opened Custody
  import opened Retries
  import opened Exclusive
  import opened Submissions
  import opened Outcomes
  import Progress
  import Keys

  // ---- which faults undo a completion ----

  /** Faithful is exact. Take any step of an exclusive handler at one of the three
      points Faithful speaks of, after which its job is completed: the handler's next
      step undoes the completion if and only if that step was not faithful. */
  lemma FaithfulIsExact(cfg: Config, s: State, slot: nat, reply: Reply, id: JobId, t: State, u: State)
    requires Inv(cfg, s) && slot in s.workers && s.workers[slot].linked && s.workers[slot].msg.id == id
    requires var h := s.workers[slot];
      h.msg.body.Wire? && id in s.jobs && (h.pc.CheckStatus? || h.pc.SetCompleted? || h.pc.TellCompleted?)
    requires Resting(s, id, Held(slot))
    requires t == Step(cfg, s, Work(slot, reply)) && u == Step(cfg, t, Work(slot, Done))
    requires StatusOf(t, id) == Some(Completed)
    ensures StatusOf(u, id) != Some(Completed) <==> !Faithful(s, Work(slot, reply))
  {
    var pc := TwoStatuses(cfg, s, slot, reply, id, t, u);
    ExactCases(s.workers[slot], reply, StatusOf(s, id), StatusOf(t, id), StatusOf(u, id), pc);
  }

  /** The statuses after the two steps, and the point pc in between. */
  lemma TwoStatuses(cfg: Config, s: State, slot: nat, reply: Reply, id: JobId, t: State, u: State) returns (pc: Pc)
    requires Inv(cfg, s) && slot in s.workers && s.workers[slot].linked && s.workers[slot].msg.id == id
    requires var h := s.workers[slot];
      h.msg.body.Wire? && id in s.jobs && (h.pc.CheckStatus? || h.pc.SetCompleted? || h.pc.TellCompleted?)
    requires t == Step(cfg, s, Work(slot, reply)) && u == Step(cfg, t, Work(slot, Done))
    ensures LeadsTo(s.workers[slot], reply, StatusOf(s, id), pc)
    ensures var h := s.workers[slot];
      && StatusOf(t, id) == (if reply.Applied() && Written(h.pc).Some? then Written(h.pc) else StatusOf(s, id))
      && StatusOf(u, id) == (if Written(pc).Some? then Written(pc) else StatusOf(t, id))
  {
    var h := s.workers[slot];
    var h' := Advance(cfg, s, h, reply);
    pc := h'.pc;
    HasStatus(cfg, s, h);
    AfterFault(cfg, s, h, reply, h');
    TwoSteps(cfg, s, slot, reply, id, t, u, h');
  }

  /** Where a reply takes an attempt at one of the three points. */
  predicate LeadsTo(h: Handler, reply: Reply, status: Option<Status>, pc: Pc) {
    match h.pc
    case CheckStatus =>
      if reply.Done? then status == Some(Completed) ==> pc.AckDone? else pc.SetProcessing? || pc.SetFailed?
    case SetCompleted => if reply.Done? then pc.TellCompleted? else pc.SetFailed?
    case _ => if reply.Done? || h.worker.Image? then pc.AckDone? else pc.SetFailed?
  }

  lemma HasStatus(cfg: Config, s: State, h: Handler)
    requires h.msg.id in s.jobs
    ensures StatusRead(s, h) == StatusOf(s, h.msg.id) && StatusRead(s, h).Some?
  {
  }

  lemma TwoSteps(cfg: Config, s: State, slot: nat, reply: Reply, id: JobId, t: State, u: State, h': Handler)
    requires Inv(cfg, s) && Enabled(s, Work(slot, reply)) && !Settling(s.workers[slot].pc) && id in s.jobs
    requires s.workers[slot].msg.id == id
    requires h' == Advance(cfg, s, s.workers[slot], reply) && h'.msg.id == id && !h'.pc.Raised?
    requires t == Step(cfg, s, Work(slot, reply)) && u == Step(cfg, t, Work(slot, Done))
    ensures var h := s.workers[slot];
      && StatusOf(t, id) == (if reply.Applied() && Written(h.pc).Some? then Written(h.pc) else StatusOf(s, id))
      && StatusOf(u, id) == (if Written(h'.pc).Some? then Written(h'.pc) else StatusOf(t, id))
  {
    WorkStatus(cfg, s, slot, reply, id, t);
    NextWrite(cfg, s, slot, reply, id, t, u);
  }

  lemma ExactCases(h: Handler, reply: Reply, before: Option<Status>, between: Option<Status>,
                   after: Option<Status>, pc: Pc)
    requires h.pc.CheckStatus? || h.pc.SetCompleted? || h.pc.TellCompleted?
    requires before == Some(Completed) ==> Quiet(h.pc)
    requires between == (if reply.Applied() && Written(h.pc).Some? then Written(h.pc) else before)
    requires between == Some(Completed)
    requires after == (if Written(pc).Some? then Written(pc) else between)
    requires LeadsTo(h, reply, before, pc)
    ensures after != Some(Completed) <==> !FaithfulReply(h, reply)
  {
  }

  lemma NextWrite(cfg: Config, s: State, slot: nat, reply: Reply, id: JobId, t: State, u: State)
    requires Inv(cfg, s) && Enabled(s, Work(slot, reply)) && !Settling(s.workers[slot].pc) && id in s.jobs
    requires t == Step(cfg, s, Work(slot, reply)) && u == Step(cfg, t, Work(slot, Done))
    requires var h' := Advance(cfg, s, s.workers[slot], reply); h'.msg.id == id && !h'.pc.Raised?
    ensures var w := Written(Advance(cfg, s, s.workers[slot], reply).pc);
      StatusOf(u, id) == if w.Some? then w else StatusOf(t, id)
  {
    StepKeeps(cfg, s, Work(slot, reply));
    assert t.workers[slot] == Advance(cfg, s, s.workers[slot], reply);
    WorkStatus(cfg, t, slot, Done, id, u);
  }

  lemma AfterFault(cfg: Config, s: State, h: Handler, reply: Reply, h': Handler)
    requires h.msg.body.Wire? && h.linked && StatusRead(s, h).Some?
    requires h.pc.CheckStatus? || h.pc.SetCompleted? || h.pc.TellCompleted?
    requires h' == Advance(cfg, s, h, reply)
    ensures h'.msg == h.msg && !h'.pc.Raised?
    ensures LeadsTo(h, reply, StatusRead(s, h), h'.pc)
  {
  }

  /** Nor can exclusivity be dropped: a stale handler about to write processing or failed
      undoes a completion. */
  lemma StaleHandlerUndoes(cfg: Config, s: State, slot: nat, id: JobId)
    requires Inv(cfg, s) && slot in s.workers && (s.workers[slot].pc.SetProcessing? || s.workers[slot].pc.SetFailed?)
    requires s.workers[slot].msg.id == id && StatusOf(s, id) == Some(Completed)
    ensures StatusOf(Step(cfg, s, Work(slot, Done)), id) == Written(s.workers[slot].pc)
  {
    StaleWrite(cfg, s, slot, id, Step(cfg, s, Work(slot, Done)));
  }

  lemma StaleWrite(cfg: Config, s: State, slot: nat, id: JobId, t: State)
    requires Inv(cfg, s) && slot in s.workers && (s.workers[slot].pc.SetProcessing? || s.workers[slot].pc.SetFailed?)
    requires s.workers[slot].msg.id == id && t == Step(cfg, s, Work(slot, Done))
    ensures StatusOf(t, id) == Written(s.workers[slot].pc)
  {
    StepStatus(cfg, s, Work(slot, Done), id, t);
  }

  // ---- runs in which a completion is undone ----

  /** The four conditions Faithful is made of. */
  datatype Condition = ExclusiveDelivery | StatusReads | AtomicCompletion | CompletionTold

  predicate Meets(c: Condition, s: State, a: Action) {
    match c
    case ExclusiveDelivery => !a.Disconnect?
    case StatusReads => a.Work? && a.slot in s.workers && s.workers[a.slot].pc.CheckStatus? ==> a.reply.Done?
    case AtomicCompletion => a.Work? && a.slot in s.workers && s.workers[a.slot].pc.SetCompleted? ==> !a.reply.Torn?
    case CompletionTold =>
      a.Work? && a.slot in s.workers && s.workers[a.slot].pc.TellCompleted? && s.workers[a.slot].worker.Ocr? ==>
        a.reply.Done?
  }

  lemma FaithfulIsAll(s: State, a: Action)
    ensures Faithful(s, a) <==> forall c :: Meets(c, s, a)
  {
    if forall c :: Meets(c, s, a) {
      assert Meets(ExclusiveDelivery, s, a) && Meets(StatusReads, s, a);
      assert Meets(AtomicCompletion, s, a) && Meets(CompletionTold, s, a);
    }
  }

  /** Every condition but c. */
  ghost function AllBut(c: Condition): (State, Action) -> bool {
    (s, a) => forall d: Condition :: d != c ==> Meets(d, s, a)
  }

  /** Nothing goes wrong, though a worker may crash. */
  predicate Harmless(a: Action) { !a.Disconnect? && (a.Work? ==> a.reply.Done?) }

  lemma {:induction false} HarmlessAfter(cfg: Config, run: seq<Action>, longer: seq<Action>, c: Condition)
    requires run <= longer && Always(cfg, run, AllBut(c))
    requires forall i :: |run| <= i < |longer| ==> Harmless(longer[i])
    ensures Always(cfg, longer, AllBut(c))
    decreases |longer|
  {
    if |run| == |longer| {
      assert run == longer;
    } else {
      HarmlessAfter(cfg, run, longer[..|longer| - 1], c);
    }
  }

  lemma AlwaysOne(cfg: Config, run: seq<Action>, a: Action, c: Condition)
    requires Always(cfg, run, AllBut(c)) && AllBut(c)(Exec(cfg, run), a)
    ensures Always(cfg, run + [a], AllBut(c))
  {
    assert (run + [a])[..|run|] == run;
  }

  /** The first attempt at a job, up to its completion. */
  function Stage(pc: Pc): nat {
    match pc
    case Begin => 0
    case CheckStatus => 1
    case SetProcessing => 2
    case SetCompleted => 4
    case TellCompleted => 5
    case TellStart => 3
    case Fetch => 3
    case TellFetched => 3
    case Transform => 3
    case Put(_) => 3
    case Record(_) => 3
    case TellArtifact(_) => 3
    case _ => 6
  }

  /** A clean attempt on its way to complete a job that is not completed yet. */
  ghost predicate OnTheWay(cfg: Config, s: State, slot: nat, id: JobId) {
    && Clean(cfg, s, slot, id) && id in s.jobs && Stage(s.workers[slot].pc) <= 5
    && (StatusOf(s, id) == Some(Completed) <==> s.workers[slot].pc.TellCompleted?)
  }

  lemma GoStage(cfg: Config, h: Handler, status: Option<Status>, data: Bytes, h': Handler)
    requires h.msg.body.Wire? && 1 <= Stage(h.pc) <= 4 && status != Some(Completed)
    requires h' == GoNext(cfg, h, true, status, data) && h'.cause.NoCause?
    ensures Stage(h'.pc) == Stage(h.pc) + 1 || (Stage(h.pc) == 3 && Stage(h'.pc) == 3)
  {
  }

  lemma PyStage(cfg: Config, h: Handler, status: Option<Status>, data: Bytes, h': Handler)
    requires h.msg.body.Wire? && 1 <= Stage(h.pc) <= 4 && status != Some(Completed)
    requires h' == PyNext(cfg, h, true, status, data) && h'.cause.NoCause?
    ensures Stage(h'.pc) == Stage(h.pc) + 1 || (Stage(h.pc) == 3 && Stage(h'.pc) == 3)
  {
  }

  lemma NextStage(cfg: Config, h: Handler, status: Option<Status>, data: Bytes, h': Handler)
    requires h.msg.body.Wire? && Stage(h.pc) <= 4 && status != Some(Completed)
    requires h' == Next(cfg, h, true, status, data) && h'.cause.NoCause?
    ensures Stage(h'.pc) == Stage(h.pc) + 1 || (Stage(h.pc) == 3 && Stage(h'.pc) == 3)
  {
    if !h.pc.Begin? {
      if h.worker.Image? {
        GoStage(cfg, h, status, data, GoNext(cfg, h, true, status, data));
      } else {
        PyStage(cfg, h, status, data, PyNext(cfg, h, true, status, data));
      }
    }
  }

  lemma WayStep(cfg: Config, s: State, slot: nat, id: JobId, t: State)
    requires Inv(cfg, s) && AttemptsOk(cfg, s) && OnTheWay(cfg, s, slot, id) && !s.workers[slot].pc.TellCompleted?
    requires t == Step(cfg, s, Work(slot, Done))
    ensures OnTheWay(cfg, t, slot, id) && t.requests == s.requests
    ensures var pc, next := s.workers[slot].pc, t.workers[slot].pc;
      Stage(next) == Stage(pc) + 1 || (Stage(pc) == 3 && Stage(next) == 3)
    ensures Progress.Rank(t.workers[slot], Progress.Width(s.requests[id]))
      < Progress.Rank(s.workers[slot], Progress.Width(s.requests[id]))
  {
    CleanStep(cfg, s, slot, id, t);
    StageStep(cfg, s, slot, id, t);
    WorkStatus(cfg, s, slot, Done, id, t);
    WrittenStage(s.workers[slot].pc);
  }

  lemma WrittenStage(pc: Pc)
    requires Stage(pc) <= 4
    ensures Written(pc) == Some(Completed) <==> Stage(pc) == 4
    ensures forall next: Pc :: Stage(next) == 5 <==> next.TellCompleted?
  {
  }

  lemma StageStep(cfg: Config, s: State, slot: nat, id: JobId, t: State)
    requires Inv(cfg, s) && AttemptsOk(cfg, s) && OnTheWay(cfg, s, slot, id) && !s.workers[slot].pc.TellCompleted?
    requires t == Step(cfg, s, Work(slot, Done)) && Clean(cfg, t, slot, id)
    ensures var pc, next := s.workers[slot].pc, t.workers[slot].pc;
      Stage(next) == Stage(pc) + 1 || (Stage(pc) == 3 && Stage(next) == 3)
  {
    var h := s.workers[slot];
    assert HandlerOk(cfg, s, h) && AttemptOk(cfg, s, h);
    DoneStaysClean(cfg, s, h);
    assert t.workers[slot] == Advance(cfg, s, h, Done);
    NextStage(cfg, h, StatusRead(s, h), DataRead(s, h), t.workers[slot]);
  }

  predicate Stop(pc: Pc) { pc.SetProcessing? || pc.SetCompleted? || pc.TellCompleted? }

  lemma StopAhead(pc: Pc, stop: Pc)
    requires Stop(stop) && Stage(pc) <= Stage(stop) && pc != stop
    ensures Stage(pc) < Stage(stop) && !pc.TellCompleted? && Stage(stop) != 3
  {
  }

  lemma WayOn(cfg: Config, run: seq<Action>, slot: nat, id: JobId)
    requires OnTheWay(cfg, Exec(cfg, run), slot, id) && !Exec(cfg, run).workers[slot].pc.TellCompleted?
    ensures var s, t := Exec(cfg, run), Exec(cfg, run + [Work(slot, Done)]);
      && OnTheWay(cfg, t, slot, id) && t.requests == s.requests
      && (Stage(t.workers[slot].pc) == Stage(s.workers[slot].pc) + 1 ||
          (Stage(s.workers[slot].pc) == 3 && Stage(t.workers[slot].pc) == 3))
      && Progress.Rank(t.workers[slot], Progress.Width(s.requests[id]))
           < Progress.Rank(s.workers[slot], Progress.Width(s.requests[id]))
  {
    Reachable(cfg, run);
    BooksBalance(cfg, run);
    ExecOne(cfg, run, Work(slot, Done));
    WayStep(cfg, Exec(cfg, run), slot, id, Exec(cfg, run + [Work(slot, Done)]));
  }

  /** Fault-free steps lead on to any of the three points where a write is due or done. */
  lemma {:induction false} GoOn(cfg: Config, run: seq<Action>, slot: nat, id: JobId, stop: Pc)
    returns (longer: seq<Action>)
    requires OnTheWay(cfg, Exec(cfg, run), slot, id)
    requires Stop(stop) && Stage(Exec(cfg, run).workers[slot].pc) <= Stage(stop)
    ensures OnlyDone(run, longer, slot)
    ensures OnTheWay(cfg, Exec(cfg, longer), slot, id) && Exec(cfg, longer).workers[slot].pc == stop
    ensures Exec(cfg, longer).requests == Exec(cfg, run).requests
    decreases Progress.Rank(Exec(cfg, run).workers[slot], Progress.Width(Exec(cfg, run).requests[id]))
  {
    if Exec(cfg, run).workers[slot].pc == stop {
      longer := run;
    } else {
      StopAhead(Exec(cfg, run).workers[slot].pc, stop);
      WayOn(cfg, run, slot, id);
      longer := GoOn(cfg, run + [Work(slot, Done)], slot, id, stop);
    }
  }

  /** A new delivery starts a clean attempt. */
  lemma Starts(cfg: Config, s: State, c: Copy, slot: nat, id: JobId, t: State)
    requires Inv(cfg, s) && Enabled(s, Deliver(c, slot)) && c.msg.id == id && Expected(cfg, s, id).Some?
    requires t == Step(cfg, s, Deliver(c, slot))
    ensures Clean(cfg, t, slot, id) && t.workers[slot].pc.Begin? && t.workers == s.workers[slot := t.workers[slot]]
    ensures t.jobs == s.jobs && t.requests == s.requests
  {
    assert CopyOk(s, c);
    DeliverFrame(cfg, s, c, slot, t);
  }

  lemma Restarts(cfg: Config, run: seq<Action>, c: Copy, slot: nat, id: JobId)
    requires Enabled(Exec(cfg, run), Deliver(c, slot)) && c.msg.id == id && Expected(cfg, Exec(cfg, run), id).Some?
    ensures var s, t := Exec(cfg, run), Exec(cfg, run + [Deliver(c, slot)]);
      && Clean(cfg, t, slot, id) && t.workers[slot].pc.Begin? && t.workers == s.workers[slot := t.workers[slot]]
      && t.jobs == s.jobs && t.requests == s.requests
  {
    Reachable(cfg, run);
    ExecOne(cfg, run, Deliver(c, slot));
    Starts(cfg, Exec(cfg, run), c, slot, id, Exec(cfg, run + [Deliver(c, slot)]));
  }

  lemma PublishedReady(cfg: Config, s: State, id: JobId, job: Job, upload: Bytes, t: State)
    requires id in s.requests && s.requests[id] == Submission(job, upload, PublishJob)
    requires t == Step(cfg, s, Gateway(id, Done))
    ensures Copy(WorkQueue(job.kind), Message(id, Wire(job), RoutingKey(job.kind), [])) in t.copies
    ensures t.jobs == s.jobs && t.workers == s.workers
    ensures id in t.requests && t.requests[id] == Submission(job, upload, Answered(202))
  {
    var m := Message(id, Wire(job), RoutingKey(job.kind), []);
    PublishedToWork(m, job.kind);
    assert t.copies == s.copies + Published(JobsExchange, m);
  }

  lemma FirstPublished(cfg: Config, id: JobId, kind: Kind, filename: string, operations: seq<string>, params: Params,
                       upload: Bytes)
    returns (run: seq<Action>, c: Copy)
    requires Processable(cfg, id, kind, filename, operations, params, upload)
    ensures (forall a :: a in run ==> Harmless(a)) && c.msg.id == id && BoundTo(c.queue) == JobsExchange
    ensures var s := Exec(cfg, run);
      && c in s.copies && s.workers == map[] && StatusOf(s, id) == Some(Pending)
      && Expected(cfg, s, id).Some? && KindOf(s.requests[id]) == kind
  {
    var job := Job(id, kind, UploadKey(id, Keys.Sanitize(filename)), operations, params);
    var before := SubmitThen(cfg, id, kind, filename, operations, params, upload, Done);
    run := before + [Gateway(id, Done)];
    c := Copy(WorkQueue(kind), Message(id, Wire(job), RoutingKey(kind), []));
    ExecOne(cfg, before, Gateway(id, Done));
    PublishedReady(cfg, Exec(cfg, before), id, job, upload, Exec(cfg, run));
  }

  /** A processable upload, submitted and delivered to a worker, without a fault. */
  lemma FirstAttempt(cfg: Config, id: JobId, kind: Kind, filename: string, operations: seq<string>, params: Params,
                     upload: Bytes)
    returns (run: seq<Action>)
    requires Processable(cfg, id, kind, filename, operations, params, upload)
    ensures forall a :: a in run ==> Harmless(a)
    ensures var s := Exec(cfg, run);
      OnTheWay(cfg, s, 0, id) && s.workers[0].pc.Begin? && s.workers.Keys == {0} && KindOf(s.requests[id]) == kind
  {
    var published, c := FirstPublished(cfg, id, kind, filename, operations, params, upload);
    run := published + [Deliver(c, 0)];
    Restarts(cfg, published, c, 0, id);
  }

  predicate Processable(cfg: Config, id: JobId, kind: Kind, filename: string, operations: seq<string>, params: Params,
                        upload: Bytes) {
    Keys.SlashFree(id) &&
    Run(cfg.codec, Job(id, kind, UploadKey(id, Keys.Sanitize(filename)), operations, params), upload).Some?
  }

  /** The run completes the job and a continuation undoes it, with condition c broken and
      every other one met throughout. */
  ghost predicate Undone(cfg: Config, run: seq<Action>, longer: seq<Action>, id: JobId, c: Condition, s: State,
                         t: State) {
    && run <= longer && Throughout(cfg, longer, AllBut(c)) && Reaches(cfg, run, s) && Reaches(cfg, longer, t)
    && StatusOf(s, id) == Some(Completed) && StatusOf(t, id) != Some(Completed)
  }

  ghost predicate CanBeUndone(cfg: Config, id: JobId, c: Condition) {
    exists run, longer, s: State, t: State :: Undone(cfg, run, longer, id, c, s, t)
  }

  lemma Witness(cfg: Config, run: seq<Action>, longer: seq<Action>, id: JobId, c: Condition)
    requires run <= longer && Always(cfg, longer, AllBut(c))
    requires StatusOf(Exec(cfg, run), id) == Some(Completed) && StatusOf(Exec(cfg, longer), id) != Some(Completed)
    ensures CanBeUndone(cfg, id, c)
  {
    assert Undone(cfg, run, longer, id, c, Exec(cfg, run), Exec(cfg, longer));
  }

  /** One fault of condition c after a harmless run, and the attempt's next step. */
  lemma FaultUndoes(cfg: Config, run: seq<Action>, slot: nat, reply: Reply, id: JobId, c: Condition)
    requires forall a :: a in run ==> Harmless(a)
    requires var s := Exec(cfg, run);
      && Clean(cfg, s, slot, id) && id in s.jobs && Resting(s, id, Held(slot))
      && var pc := s.workers[slot].pc; pc.CheckStatus? || pc.SetCompleted? || pc.TellCompleted?
    requires !Faithful(Exec(cfg, run), Work(slot, reply)) && AllBut(c)(Exec(cfg, run), Work(slot, reply))
    requires StatusOf(Step(cfg, Exec(cfg, run), Work(slot, reply)), id) == Some(Completed)
    ensures CanBeUndone(cfg, id, c)
  {
    var one := run + [Work(slot, reply)];
    var two := one + [Work(slot, Done)];
    Reachable(cfg, run);
    ExecOne(cfg, run, Work(slot, reply));
    ExecOne(cfg, one, Work(slot, Done));
    FaithfulIsExact(cfg, Exec(cfg, run), slot, reply, id, Exec(cfg, one), Exec(cfg, two));
    HarmlessAfter(cfg, [], run, c);
    AlwaysOne(cfg, run, Work(slot, reply), c);
    HarmlessAfter(cfg, one, two, c);
    Witness(cfg, one, two, id, c);
  }

  lemma HarmlessDone(run: seq<Action>, longer: seq<Action>, slot: nat)
    requires (forall a :: a in run ==> Harmless(a)) && OnlyDone(run, longer, slot)
    ensures forall a :: a in longer ==> Harmless(a)
  {
    forall i | 0 <= i < |longer| ensures Harmless(longer[i]) {
      assert i < |run| ==> longer[i] == run[i];
    }
  }

  /** A handler loses its message: the broker has it back in its queue. */
  lemma BackInQueue(cfg: Config, s: State, a: Action, slot: nat, t: State)
    requires (a == Crash(slot) || a == Disconnect(slot)) && slot in s.workers && s.workers[slot].linked
    requires t == Step(cfg, s, a)
    ensures t.jobs == s.jobs && t.requests == s.requests
    ensures Copy(WorkQueue(s.workers[slot].worker), s.workers[slot].msg) in t.copies
    ensures t.workers == if a.Crash? then s.workers - {slot} else s.workers[slot := s.workers[slot].(linked := false)]
  {
  }

  lemma FirstLook(cfg: Config, s: State, id: JobId, t: State)
    requires Inv(cfg, s) && AttemptsOk(cfg, s) && Clean(cfg, s, 0, id) && s.workers[0].pc.Begin? && id in s.jobs
    requires t == Step(cfg, s, Work(0, Done))
    ensures Clean(cfg, t, 0, id) && t.workers[0].pc.CheckStatus?
    ensures StatusOf(t, id) == StatusOf(s, id)
  {
    CleanStep(cfg, s, 0, id, t);
    WorkStatus(cfg, s, 0, Done, id, t);
    assert t.workers[0] == Advance(cfg, s, s.workers[0], Done);
  }

  /** Completed, about to announce it, the worker crashes; the next attempt starts. */
  lemma CrashedThere(cfg: Config, run: seq<Action>, id: JobId) returns (longer: seq<Action>)
    requires (forall a :: a in run ==> Harmless(a)) && OnTheWay(cfg, Exec(cfg, run), 0, id)
    requires Exec(cfg, run).workers[0].pc.TellCompleted?
    ensures forall a :: a in longer ==> Harmless(a)
    ensures var s := Exec(cfg, longer);
      Clean(cfg, s, 0, id) && id in s.jobs && StatusOf(s, id) == Some(Completed) && s.workers[0].pc.CheckStatus?
  {
    var h := Exec(cfg, run).workers[0];
    var c := Copy(WorkQueue(h.worker), h.msg);
    var down := run + [Crash(0)];
    var up := down + [Deliver(c, 0)];
    longer := up + [Work(0, Done)];
    ExecOne(cfg, run, Crash(0));
    BackInQueue(cfg, Exec(cfg, run), Crash(0), 0, Exec(cfg, down));
    Restarts(cfg, down, c, 0, id);
    ExecOne(cfg, up, Work(0, Done));
    Reachable(cfg, up);
    BooksBalance(cfg, up);
    FirstLook(cfg, Exec(cfg, up), id, Exec(cfg, longer));
  }

  lemma {:induction false} OthersStand(cfg: Config, run: seq<Action>, longer: seq<Action>, slot: nat, k: nat)
    requires OnlyDone(run, longer, slot) && k != slot && k in Exec(cfg, run).workers
    ensures k in Exec(cfg, longer).workers && Exec(cfg, longer).workers[k] == Exec(cfg, run).workers[k]
    decreases |longer|
  {
    if |run| == |longer| {
      assert run == longer;
    } else {
      var n := |longer| - 1;
      OthersStand(cfg, run, longer[..n], slot, k);
      if Enabled(Exec(cfg, longer[..n]), longer[n]) {
        WorkLeavesOthers(cfg, Exec(cfg, longer[..n]), slot, Done, Held(k), Exec(cfg, longer));
      }
    }
  }

  /** A handler about to write processing loses its connection, and a second attempt runs
      to completion beside it. */
  lemma OvertakenThere(cfg: Config, run: seq<Action>, id: JobId) returns (longer: seq<Action>)
    requires (forall a :: a in run ==> Harmless(a)) && OnTheWay(cfg, Exec(cfg, run), 0, id)
    requires Exec(cfg, run).workers[0].pc.SetProcessing? && Exec(cfg, run).workers.Keys == {0}
    ensures Always(cfg, longer, AllBut(ExclusiveDelivery))
    ensures var s := Exec(cfg, longer);
      && 0 in s.workers && s.workers[0].pc.SetProcessing? && s.workers[0].msg.id == id
      && StatusOf(s, id) == Some(Completed)
  {
    var h := Exec(cfg, run).workers[0];
    var c := Copy(WorkQueue(h.worker), h.msg);
    var cut := run + [Disconnect(0)];
    var again := cut + [Deliver(c, 1)];
    ExecOne(cfg, run, Disconnect(0));
    BackInQueue(cfg, Exec(cfg, run), Disconnect(0), 0, Exec(cfg, cut));
    Restarts(cfg, cut, c, 1, id);
    longer := GoOn(cfg, again, 1, id, TellCompleted);
    OthersStand(cfg, again, longer, 1, 0);
    HarmlessAfter(cfg, [], run, ExclusiveDelivery);
    AlwaysOne(cfg, run, Disconnect(0), ExclusiveDelivery);
    HarmlessAfter(cfg, cut, longer, ExclusiveDelivery);
  }

  lemma AloneStep(cfg: Config, s: State, slot: nat, t: State)
    requires s.workers.Keys <= {slot} && t == Step(cfg, s, Work(slot, Done))
    ensures t.workers.Keys <= {slot}
  {
    if Enabled(s, Work(slot, Done)) {
      if Settling(s.workers[slot].pc) {
        SettleFrame(s, slot, t);
      } else {
        EffectFrame(s, s.workers[slot], Done);
      }
    }
  }

  lemma {:induction false} StaysAlone(cfg: Config, run: seq<Action>, longer: seq<Action>, slot: nat)
    requires OnlyDone(run, longer, slot) && Exec(cfg, run).workers.Keys <= {slot}
    ensures Exec(cfg, longer).workers.Keys <= {slot}
    decreases |longer|
  {
    if |run| == |longer| {
      assert run == longer;
    } else {
      var n := |longer| - 1;
      StaysAlone(cfg, run, longer[..n], slot);
      AloneStep(cfg, Exec(cfg, longer[..n]), slot, Exec(cfg, longer));
    }
  }

  lemma StaleRun(cfg: Config, run: seq<Action>, id: JobId)
    requires (forall a :: a in run ==> Harmless(a)) && OnTheWay(cfg, Exec(cfg, run), 0, id)
    requires Exec(cfg, run).workers[0].pc.SetProcessing? && Exec(cfg, run).workers.Keys == {0}
    ensures CanBeUndone(cfg, id, ExclusiveDelivery)
  {
    var longer := OvertakenThere(cfg, run, id);
    Reachable(cfg, longer);
    ExecOne(cfg, longer, Work(0, Done));
    StaleHandlerUndoes(cfg, Exec(cfg, longer), 0, id);
    HarmlessAfter(cfg, longer, longer + [Work(0, Done)], ExclusiveDelivery);
    Witness(cfg, longer, longer + [Work(0, Done)], id, ExclusiveDelivery);
  }

  lemma FaultRun(cfg: Config, run: seq<Action>, id: JobId, c: Condition)
    requires (forall a :: a in run ==> Harmless(a)) && OnTheWay(cfg, Exec(cfg, run), 0, id)
    requires !c.ExclusiveDelivery?
    requires Exec(cfg, run).workers[0].pc == if c.AtomicCompletion? then SetCompleted else TellCompleted
    requires c.CompletionTold? ==> Exec(cfg, run).workers[0].worker.Ocr?
    ensures CanBeUndone(cfg, id, c)
  {
    if c.StatusReads? {
      var again := CrashedThere(cfg, run, id);
      UnreadFault(cfg, again, id);
    } else {
      CompletingFault(cfg, run, id, c);
    }
  }

  lemma UnreadFault(cfg: Config, run: seq<Action>, id: JobId)
    requires forall a :: a in run ==> Harmless(a)
    requires var s := Exec(cfg, run);
      Clean(cfg, s, 0, id) && id in s.jobs && StatusOf(s, id) == Some(Completed) && s.workers[0].pc.CheckStatus?
    ensures CanBeUndone(cfg, id, StatusReads)
  {
    var s := Exec(cfg, run);
    Reachable(cfg, run);
    WorkStatus(cfg, s, 0, Refused, id, Step(cfg, s, Work(0, Refused)));
    FaultUndoes(cfg, run, 0, Refused, id, StatusReads);
  }

  lemma CompletingFault(cfg: Config, run: seq<Action>, id: JobId, c: Condition)
    requires (forall a :: a in run ==> Harmless(a)) && OnTheWay(cfg, Exec(cfg, run), 0, id)
    requires c.AtomicCompletion? || (c.CompletionTold? && Exec(cfg, run).workers[0].worker.Ocr?)
    requires Exec(cfg, run).workers[0].pc == if c.AtomicCompletion? then SetCompleted else TellCompleted
    ensures CanBeUndone(cfg, id, c)
  {
    var s := Exec(cfg, run);
    var reply := if c.AtomicCompletion? then Torn else Refused;
    Reachable(cfg, run);
    CompletedByFault(cfg, s, id, c, reply, Step(cfg, s, Work(0, reply)));
    FaultUndoes(cfg, run, 0, reply, id, c);
  }

  lemma CompletedByFault(cfg: Config, s: State, id: JobId, c: Condition, reply: Reply, t: State)
    requires Inv(cfg, s) && OnTheWay(cfg, s, 0, id) && t == Step(cfg, s, Work(0, reply))
    requires if c.AtomicCompletion? then s.workers[0].pc.SetCompleted? && reply.Torn?
             else c.CompletionTold? && s.workers[0].pc.TellCompleted? && s.workers[0].worker.Ocr? && reply.Refused?
    ensures StatusOf(t, id) == Some(Completed) && Resting(s, id, Held(0))
    ensures !Faithful(s, Work(0, reply)) && AllBut(c)(s, Work(0, reply))
  {
    WorkStatus(cfg, s, 0, reply, id, t);
    OnlyThisBreaks(s, c, reply);
  }

  lemma OnlyThisBreaks(s: State, c: Condition, reply: Reply)
    requires 0 in s.workers
    requires if c.AtomicCompletion? then s.workers[0].pc.SetCompleted? && reply.Torn?
             else c.CompletionTold? && s.workers[0].pc.TellCompleted? && s.workers[0].worker.Ocr? && reply.Refused?
    ensures !Faithful(s, Work(0, reply)) && AllBut(c)(s, Work(0, reply))
  {
    forall d: Condition | d != c ensures Meets(d, s, Work(0, reply)) {
    }
  }

  lemma SameWorker(cfg: Config, run: seq<Action>, slot: nat, id: JobId)
    requires Clean(cfg, Exec(cfg, run), slot, id)
    ensures Exec(cfg, run).workers[slot].worker == KindOf(Exec(cfg, run).requests[id])
  {
    Reachable(cfg, run);
    assert HandlerOk(cfg, Exec(cfg, run), Exec(cfg, run).workers[slot]);
  }

  /** Each condition of Faithful is needed: for any processable upload of either kind, and
      any one condition that binds its worker, there is a run that completes the job and
      then undoes it while every other condition is met throughout. So with
      CompletedIsAbsorbing the conditions are exact. */
  lemma EachConditionIsNeeded(cfg: Config, id: JobId, kind: Kind, filename: string, operations: seq<string>,
                              params: Params, upload: Bytes, c: Condition)
    requires Processable(cfg, id, kind, filename, operations, params, upload)
    requires c.CompletionTold? ==> kind.Ocr?
    ensures CanBeUndone(cfg, id, c)
  {
    var first := FirstAttempt(cfg, id, kind, filename, operations, params, upload);
    var stop :=
      if c.ExclusiveDelivery? then SetProcessing else if c.AtomicCompletion? then SetCompleted else TellCompleted;
    var run := GoOn(cfg, first, 0, id, stop);
    HarmlessDone(first, run, 0);
    if c.ExclusiveDelivery? {
      StaysAlone(cfg, first, run, 0);
      StaleRun(cfg, run, id);
    } else {
      SameWorker(cfg, run, 0, id);
      FaultRun(cfg, run, id, c);
    }
  }
}
