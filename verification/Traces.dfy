/** The event stream: what one delivery attempt announces, what the stream of one job
    looks like, and the stage the browser shows after folding it. */
module Traces {
  import opened Media
  import opened Pipeline
  import opened Integrity
  import opened Custody
  import opened Retries

  // ---- one attempt ----

  function Artifacts(job: Job, outs: seq<Output>): seq<Event> {
    seq(|outs|, i requires 0 <= i < |outs| => Event(job.id, job.kind, Processing, 80, outs[i].name))
  }

  /** The announcements of a successful attempt: 10, 40, one 80 per output, 100. For a
      job that cannot be processed only the first two exist. */
  function Script(job: Job, expected: Option<seq<Output>>): seq<Event> {
    [Event(job.id, job.kind, Processing, 10, ""), Event(job.id, job.kind, Processing, 40, "")] +
    match expected
    case None => []
    case Some(outs) => Artifacts(job, outs) + [Event(job.id, job.kind, Completed, 100, "")]
  }

  /** The failure announcement; the two workers give it different progress. */
  function FailedEvent(job: Job): Event {
    Event(job.id, job.kind, Failed, if job.kind.Image? then 0 else 100, "")
  }

  /** How far along the script an attempt on the success path is. */
  function Said(h: Handler): nat {
    match h.pc
    case Fetch => 1
    case TellFetched => 1
    case Transform => 2
    case Put(i) => 2 + i
    case Record(i) => 2 + i
    case TellArtifact(i) => 2 + i
    case SetCompleted => 2 + |h.outputs|
    case TellCompleted => 2 + |h.outputs|
    case _ => 0
  }

  /** An attempt announces a prefix of its script, to which a failed one adds the
      failure. */
  ghost predicate AttemptTrace(script: seq<Event>, failed: Event, tr: seq<Event>) {
    tr <= script || (tr != [] && tr[..|tr| - 1] <= script && tr[|tr| - 1] == failed)
  }

  ghost predicate TraceAt(h: Handler, script: seq<Event>, failed: Event) {
    if h.pc.AckDone? then h.trace == [] || h.trace == script
    else if h.cause.NoCause? then Said(h) <= |script| && h.trace == script[..Said(h)]
    else if h.pc.SetFailed? || h.pc.TellFailed? then h.trace <= script
    else AttemptTrace(script, failed, h.trace)
  }

  function ScriptOf(cfg: Config, s: State, h: Handler): seq<Event>
    requires h.msg.body.Wire?
  {
    Script(JobOf(h), Expected(cfg, s, h.msg.id))
  }

  ghost predicate TraceOk(cfg: Config, s: State, h: Handler) {
    h.msg.body.Wire? ==> TraceAt(h, ScriptOf(cfg, s, h), FailedEvent(JobOf(h)))
  }

  ghost predicate TracesOk(cfg: Config, s: State) { forall k :: k in s.workers ==> TraceOk(cfg, s, s.workers[k]) }

  lemma ScriptAt(job: Job, outs: seq<Output>, i: nat)
    requires i < |outs|
    ensures var script := Script(job, Some(outs));
      |script| == 3 + |outs| && script[2 + i] == Event(job.id, job.kind, Processing, 80, outs[i].name)
      && script[2 + |outs|] == Event(job.id, job.kind, Completed, 100, "")
  {
  }

  lemma ScriptEnds(job: Job, outs: seq<Output>)
    ensures var script := Script(job, Some(outs));
      |script| == 3 + |outs| && script[2 + |outs|] == Event(job.id, job.kind, Completed, 100, "")
  {
  }

  /** An announcement on the success path is the next line of the script. */
  lemma NextLine(cfg: Config, s: State, h: Handler)
    requires HandlerOk(cfg, s, h) && VerdictOk(cfg, s, h) && h.msg.body.Wire? && Telling(h.pc) && h.cause.NoCause?
    ensures var script := Script(JobOf(h), Expected(cfg, s, h.msg.id));
      Said(h) < |script| && EventAt(h) == script[Said(h)]
  {
    if h.pc.TellArtifact? {
      ScriptAt(JobOf(h), h.outputs, h.pc.i);
    } else if h.pc.TellCompleted? {
      ScriptEnds(JobOf(h), h.outputs);
    }
  }

  lemma SaidMoves(cfg: Config, s: State, h: Handler, ok: bool, status: Option<Status>, data: Bytes, h': Handler)
    requires HandlerOk(cfg, s, h) && VerdictOk(cfg, s, h) && h.msg.body.Wire? && h.cause.NoCause? && !Settling(h.pc)
    requires h' == Next(cfg, h, ok, status, data)
    ensures h'.cause.NoCause? && !h'.pc.AckDone? ==> Said(h') == Said(h) + (if Telling(h.pc) then 1 else 0)
    ensures h'.cause.NoCause? && h'.pc.AckDone? ==> h.pc.TellCompleted? || h.pc.CheckStatus?
    ensures !h'.cause.NoCause? ==> h'.pc.SetFailed?
    ensures h'.trace == if Telling(h.pc) then h.trace + [EventAt(h)] else h.trace
  {
    if !h.pc.Begin? {
      if h.worker.Image? {
        GoSaid(cfg, s, h, ok, status, data);
      } else {
        PySaid(cfg, s, h, ok, status, data);
      }
    }
  }

  lemma GoSaid(cfg: Config, s: State, h: Handler, ok: bool, status: Option<Status>, data: Bytes)
    requires HandlerOk(cfg, s, h) && VerdictOk(cfg, s, h) && h.msg.body.Wire? && h.cause.NoCause?
    requires !Settling(h.pc) && !h.pc.Begin?
    ensures var h' := GoNext(cfg, h, ok, status, data);
      && h'.trace == h.trace
      && (!h'.cause.NoCause? ==> h'.pc.SetFailed?)
      && (h'.cause.NoCause? && h'.pc.AckDone? ==> h.pc.TellCompleted? || h.pc.CheckStatus?)
      && (h'.cause.NoCause? && !h'.pc.AckDone? ==> Said(h') == Said(h) + (if Telling(h.pc) then 1 else 0))
  {
  }

  lemma PySaid(cfg: Config, s: State, h: Handler, ok: bool, status: Option<Status>, data: Bytes)
    requires HandlerOk(cfg, s, h) && VerdictOk(cfg, s, h) && h.msg.body.Wire? && h.cause.NoCause?
    requires !Settling(h.pc) && !h.pc.Begin?
    ensures var h' := PyNext(cfg, h, ok, status, data);
      && h'.trace == h.trace
      && (!h'.cause.NoCause? ==> h'.pc.SetFailed?)
      && (h'.cause.NoCause? && h'.pc.AckDone? ==> h.pc.TellCompleted? || h.pc.CheckStatus?)
      && (h'.cause.NoCause? && !h'.pc.AckDone? ==> Said(h') == Said(h) + (if Telling(h.pc) then 1 else 0))
  {
  }

  lemma FailingMoves(cfg: Config, h: Handler, ok: bool, status: Option<Status>, data: Bytes, h': Handler)
    requires h.msg.body.Wire? && !h.cause.NoCause? && (h.pc.SetFailed? || h.pc.TellFailed? || h.pc.Parking?)
    requires h' == Next(cfg, h, ok, status, data)
    ensures !h'.cause.NoCause? && !h'.pc.AckDone? && !h'.pc.SetFailed?
    ensures h'.pc.TellFailed? ==> h.pc.SetFailed?
    ensures h'.trace == if h.pc.TellFailed? then h.trace + [EventAt(h)] else h.trace
  {
  }

  /** The script read one line further. */
  lemma OneLine(script: seq<Event>, n: nat, tr: seq<Event>, e: Event)
    requires n < |script| && tr == script[..n] && e == script[n]
    ensures tr + [e] == script[..n + 1] && tr + [e] <= script && tr <= script
  {
  }

  lemma CleanTrace(cfg: Config, s: State, h: Handler, h': Handler)
    requires HandlerOk(cfg, s, h) && VerdictOk(cfg, s, h) && h.msg.body.Wire? && h.cause.NoCause?
    requires TraceAt(h, ScriptOf(cfg, s, h), FailedEvent(JobOf(h))) && !h.pc.AckDone?
    requires h'.trace == if Telling(h.pc) then h.trace + [EventAt(h)] else h.trace
    requires h'.cause.NoCause? && !h'.pc.AckDone? ==> Said(h') == Said(h) + (if Telling(h.pc) then 1 else 0)
    requires h'.cause.NoCause? && h'.pc.AckDone? ==> h.pc.TellCompleted? || h.pc.CheckStatus?
    requires !h'.cause.NoCause? ==> h'.pc.SetFailed?
    ensures TraceAt(h', ScriptOf(cfg, s, h), FailedEvent(JobOf(h)))
  {
    var script := ScriptOf(cfg, s, h);
    if Telling(h.pc) {
      NextLine(cfg, s, h);
      OneLine(script, Said(h), h.trace, EventAt(h));
      if h.pc.TellCompleted? {
        ScriptEnds(JobOf(h), h.outputs);
        assert script[..|script|] == script;
      }
    }
  }

  lemma FailingTrace(h: Handler, h': Handler, script: seq<Event>, failed: Event)
    requires TraceAt(h, script, failed) && !h.cause.NoCause? && !h.pc.AckDone?
    requires h.pc.SetFailed? || h.pc.TellFailed? || h.pc.Parking?
    requires !h'.cause.NoCause? && !h'.pc.AckDone? && !h'.pc.SetFailed? && (h'.pc.TellFailed? ==> h.pc.SetFailed?)
    requires h'.trace == if h.pc.TellFailed? then h.trace + [failed] else h.trace
    ensures TraceAt(h', script, failed)
  {
    if h.pc.TellFailed? {
      assert h'.trace[..|h'.trace| - 1] == h.trace;
    }
  }

  lemma AdvanceTrace(cfg: Config, s: State, h: Handler, ok: bool, status: Option<Status>, data: Bytes, h': Handler)
    requires HandlerOk(cfg, s, h) && VerdictOk(cfg, s, h) && TraceOk(cfg, s, h)
    requires !Settling(h.pc) && !h.pc.Raised? && h' == Next(cfg, h, ok, status, data) && h'.msg == h.msg
    ensures TraceOk(cfg, s, h')
  {
    if h.msg.body.Wire? {
      if h.cause.NoCause? {
        SaidMoves(cfg, s, h, ok, status, data, h');
        CleanTrace(cfg, s, h, h');
      } else {
        FailingMoves(cfg, h, ok, status, data, h');
        FailingTrace(h, h', ScriptOf(cfg, s, h), FailedEvent(JobOf(h)));
      }
    }
  }

  lemma TraceStable(cfg: Config, s: State, t: State, h: Handler)
    requires Grows(s, t) && MessageOk(s, h.msg) && TraceOk(cfg, s, h)
    ensures TraceOk(cfg, t, h) && TraceOk(cfg, t, h.(linked := false))
  {
    assert Expected(cfg, s, h.msg.id) == Expected(cfg, t, h.msg.id);
  }

  lemma OthersTraced(cfg: Config, s: State, t: State, slot: nat)
    requires Grows(s, t) && WorkersOk(cfg, s) && TracesOk(cfg, s)
    requires forall k :: k in t.workers && k != slot ==> k in s.workers && t.workers[k] == s.workers[k]
    requires slot in t.workers ==> TraceOk(cfg, t, t.workers[slot])
    ensures TracesOk(cfg, t)
  {
    forall k | k in t.workers ensures TraceOk(cfg, t, t.workers[k]) {
      if k != slot {
        assert HandlerOk(cfg, s, s.workers[k]);
        TraceStable(cfg, s, t, s.workers[k]);
      }
    }
  }

  lemma EffectTraced(cfg: Config, s: State, slot: nat, reply: Reply, t: State)
    requires Inv(cfg, s) && AttemptsOk(cfg, s) && TracesOk(cfg, s)
    requires Enabled(s, Work(slot, reply)) && !Settling(s.workers[slot].pc)
    requires t == Effect(cfg, s, slot, reply)
    ensures TracesOk(cfg, t)
  {
    var h := s.workers[slot];
    var h' := Advance(cfg, s, h, reply);
    var ok := SeenOk(s, h, reply);
    assert HandlerOk(cfg, s, h) && AttemptOk(cfg, s, h);
    NextMoves(cfg, h, ok, StatusRead(s, h), DataRead(s, h), h');
    AdvanceTrace(cfg, s, h, ok, StatusRead(s, h), DataRead(s, h), h');
    EffectKeeps(cfg, s, slot, reply);
    EffectFrame(s, h, reply);
    assert t.workers == s.workers[slot := h'];
    TraceStable(cfg, s, t, h');
    OthersTraced(cfg, s, t, slot);
  }

  lemma NoneTraced(cfg: Config, s: State, t: State)
    requires Grows(s, t) && WorkersOk(cfg, s) && TracesOk(cfg, s)
    requires forall k :: k in t.workers ==>
      k in s.workers && (t.workers[k] == s.workers[k] || t.workers[k] == s.workers[k].(linked := false))
    ensures TracesOk(cfg, t)
  {
    forall k | k in t.workers ensures TraceOk(cfg, t, t.workers[k]) {
      assert HandlerOk(cfg, s, s.workers[k]);
      TraceStable(cfg, s, t, s.workers[k]);
    }
  }

  lemma DeliverTraced(cfg: Config, s: State, c: Copy, slot: nat, t: State)
    requires Inv(cfg, s) && TracesOk(cfg, s) && Enabled(s, Deliver(c, slot))
    requires t == Apply(cfg, s, Deliver(c, slot))
    ensures TracesOk(cfg, t)
  {
    DeliverKeeps(cfg, s, c, slot);
    DeliverFrame(cfg, s, c, slot, t);
    OthersTraced(cfg, s, t, slot);
  }

  lemma WorkTraced(cfg: Config, s: State, slot: nat, reply: Reply, t: State)
    requires Inv(cfg, s) && AttemptsOk(cfg, s) && TracesOk(cfg, s) && Enabled(s, Work(slot, reply))
    requires t == Apply(cfg, s, Work(slot, reply))
    ensures TracesOk(cfg, t)
  {
    if Settling(s.workers[slot].pc) {
      SettleKeeps(cfg, s, slot);
      SettleFrame(s, slot, t);
      NoneTraced(cfg, s, t);
    } else {
      EffectTraced(cfg, s, slot, reply, t);
    }
  }

  lemma StepTraced(cfg: Config, s: State, a: Action, t: State)
    requires Inv(cfg, s) && AttemptsOk(cfg, s) && TracesOk(cfg, s) && t == Step(cfg, s, a)
    ensures TracesOk(cfg, t)
  {
    if Enabled(s, a) {
      if a.Work? {
        WorkTraced(cfg, s, a.slot, a.reply, t);
      } else if a.Deliver? {
        DeliverTraced(cfg, s, a.copy, a.slot, t);
      } else {
        StepKeeps(cfg, s, a);
        OtherWorkers(cfg, s, a, t);
        NoneTraced(cfg, s, t);
      }
    }
  }

  lemma {:induction false} TracedSoFar(cfg: Config, run: seq<Action>, s: State)
    requires s == Exec(cfg, run)
    ensures TracesOk(cfg, s)
  {
    if run != [] {
      var n := |run| - 1;
      var prev := Exec(cfg, run[..n]);
      TracedSoFar(cfg, run[..n], prev);
      Reachable(cfg, run[..n]);
      BooksBalance(cfg, run[..n]);
      StepTraced(cfg, prev, run[n], s);
    }
  }
}
