/** The shared services as the workers' code sees them: tables, object store and broker
    behind methods that may fail, while everyone else keeps acting. Each call first lets
    any number of foreign actions happen and then performs one effect; the ghost run
    records all of it. The state of the object is always the state that run reaches in
    the protocol, so what is proved of the protocol holds of the code that makes these
    calls. */
module Clusters {
  import opened Media
  import opened Amqp
  import opened Processor
  import opened Pipeline
  import opened Integrity
  import opened Custody
  import opened Exclusive
  import opened Streams

  class Cluster {
    const cfg: Config

    var jobs: map<JobId, Row>
    var artifacts: map<(JobId, string), Artifact>
    var objects: map<ObjectKey, Bytes>
    var copies: multiset<Copy>
    var requests: map<JobId, Request>
    var workers: map<nat, Handler>
    var events: seq<Event>
    var enqueued: set<JobId>
    var settled: map<JobId, Settlement>
    var ledger: map<JobId, Ledger>
    var everCompleted: set<JobId>
    var finished: seq<Return>
    ghost var run: seq<Action>

    function Snapshot(): State
      reads this
    {
      State(jobs, artifacts, objects, copies, requests, workers, events,
            enqueued, settled, ledger, everCompleted, finished)
    }

    ghost predicate Valid()
      reads this
    {
      Reaches(cfg, run, Snapshot())
    }

    /** The state the last action was taken in. */
    ghost function Before(): State
      reads this
    {
      if run == [] then Init else Exec(cfg, run[..|run| - 1])
    }

    /** The attempt in this slot, whether or not its channel is still open and whatever
        it has announced so far. */
    function Me(slot: nat): Handler
      reads this
      requires slot in workers
    {
      Bare(workers[slot])
    }

    constructor (c: Config)
      ensures Valid() && cfg == c && run == []
    {
      cfg := c;
      jobs, artifacts, objects, copies, requests, workers, events := map[], map[], map[], multiset{}, map[], map[], [];
      enqueued, settled, ledger, everCompleted, finished := {}, map[], map[], {}, [];
      run := [];
    }

    method Load(s: State)
      modifies this
      ensures Snapshot() == s && run == old(run)
    {
      LoadStores(s);
      requests, workers, enqueued, settled := s.requests, s.workers, s.enqueued, s.settled;
      ledger, everCompleted, finished := s.ledger, s.everCompleted, s.finished;
    }

    method LoadStores(s: State)
      modifies this`jobs, this`artifacts, this`objects, this`copies, this`events
      ensures jobs == s.jobs && artifacts == s.artifacts && objects == s.objects
      ensures copies == s.copies && events == s.events
    {
      jobs, artifacts, objects, copies, events := s.jobs, s.artifacts, s.objects, s.copies, s.events;
    }

    /** Anything the rest of the system does meanwhile, except ending this attempt; it
        may cut this attempt's channel. */
    method Others(slot: nat)
      requires Valid() && slot in workers
      modifies this
      ensures Valid() && Onward(old(run), run, slot) && slot in workers && Me(slot) == old(Me(slot))
    {
      var more: int := *;
      while more > 0
        invariant Valid() && Onward(old(run), run, slot) && slot in workers && Me(slot) == old(Me(slot))
      {
        more := more - 1;
        var a: Action := *;
        if Elsewhere(a, slot) {
          ForeignStep(cfg, Snapshot(), a, slot);
          ExecOne(cfg, run, a);
          CrashesOne(run, a, slot);
          Load(Step(cfg, Snapshot(), a));
          run := run + [a];
        }
      }
    }

    /** The machine's step for an effect whose outcome is already in the fields. */
    method Commit(slot: nat, reply: Reply, before: State)
      requires before == Exec(cfg, run) && Enabled(before, Work(slot, reply)) && !Settling(before.workers[slot].pc)
      requires ghost var h := before.workers[slot]; h.msg.body.Wire? || h.pc.Begin? || h.pc.Parking?
      requires Snapshot() == Effected(before, before.workers[slot], reply)
      modifies this`workers, this`finished, this`run
      ensures Valid() && run == old(run) + [Work(slot, reply)] && slot in workers
      ensures Onward(old(run), run, slot) && Before() == before
      ensures ghost var h := before.workers[slot];
        Me(slot) == Course(cfg, Bare(h), SeenOk(before, h, reply), StatusRead(before, h), DataRead(before, h))
    {
      var h := before.workers[slot];
      EffectIs(cfg, before, slot, reply);
      CourseIsNext(cfg, h, SeenOk(before, h, reply), StatusRead(before, h), DataRead(before, h));
      workers := workers[slot := Advance(cfg, before, h, reply)];
      finished := finished + FinishedRun(cfg, h, workers[slot]);
      ExecOne(cfg, run, Work(slot, reply));
      CrashesOne(run, Work(slot, reply), slot);
      run := run + [Work(slot, reply)];
      assert run[..|run| - 1] == old(run);
    }

    // ---- the calls ----

    /** Reads a job's status; fails if the read is refused. */
    method Status(slot: nat, id: JobId) returns (ok: bool, status: Option<Status>)
      requires Valid() && slot in workers && Me(slot).pc.CheckStatus?
      requires Me(slot).msg.body.Wire? && Me(slot).msg.id == id
      modifies this
      ensures Valid() && Onward(old(run), run, slot) && slot in workers
      ensures Me(slot) ==
        if !ok && old(Me(slot)).worker.Ocr? then Fail(old(Me(slot)), Transient)
        else old(Me(slot)).(pc := if ok && status == Some(Completed) then AckDone else SetProcessing)
      ensures status == if id in jobs then Some(jobs[id].status) else None
    {
      Others(slot);
      var before := Snapshot();
      var reply: Reply := *;
      ok := reply.Done?;
      status := if id in jobs then Some(jobs[id].status) else None;
      Commit(slot, reply, before);
    }

    /** UPDATE of one job row's status. */
    method SetStatus(slot: nat, id: JobId, status: Status) returns (ok: bool)
      requires Valid() && slot in workers && Me(slot).msg.body.Wire?
      requires Written(Me(slot).pc) == Some(status) && JobOf(Me(slot)).id == id
      modifies this
      ensures Valid() && Onward(old(run), run, slot) && slot in workers
      ensures Me(slot) == AfterStatus(cfg, old(Me(slot)), ok)
      ensures jobs == Updated(Before().jobs, id, status) || (!ok && jobs == Before().jobs)
    {
      Others(slot);
      var before := Snapshot();
      var reply: Reply := *;
      ok := reply.Done?;
      StatusEffect(before, before.workers[slot], reply, status);
      if reply.Applied() && id in jobs {
        jobs := jobs[id := jobs[id].(status := status)];
        if status.Completed? {
          everCompleted := everCompleted + {id};
        }
      }
      Commit(slot, reply, before);
    }

    /** Upsert of one artifacts row, keyed by job and name; refused if the job has no row. */
    method AddArtifact(slot: nat, id: JobId, name: string, row: Artifact) returns (ok: bool)
      requires Valid() && slot in workers && Me(slot).msg.body.Wire? && JobOf(Me(slot)).id == id
      requires Me(slot).pc.Record? && Me(slot).pc.i < |Me(slot).outputs|
      requires name == Due(Me(slot)).name && row == RowFor(JobOf(Me(slot)), Due(Me(slot)))
      modifies this
      ensures Valid() && Onward(old(run), run, slot) && slot in workers
      ensures Me(slot) == Try(old(Me(slot)), ok, old(Me(slot)).(pc := TellArtifact(old(Me(slot)).pc.i)))
      ensures artifacts == Before().artifacts[(id, name) := row] || (!ok && artifacts == Before().artifacts)
      ensures id !in jobs ==> !ok && artifacts == Before().artifacts
    {
      Others(slot);
      OwnMessage(cfg, run, slot);
      var before := Snapshot();
      var reply: Reply := *;
      ok := reply.Done? && id in jobs;
      RecordEffect(before, before.workers[slot], reply);
      if reply.Applied() && id in jobs {
        artifacts := artifacts[(id, name) := row];
      }
      Commit(slot, reply, before);
    }

    method Get(slot: nat, key: ObjectKey) returns (data: Option<Bytes>)
      requires Valid() && slot in workers && Me(slot).msg.body.Wire?
      requires Me(slot).pc.Fetch? && JobOf(Me(slot)).sourceKey == key
      modifies this
      ensures Valid() && Onward(old(run), run, slot) && slot in workers
      ensures Me(slot) ==
        if data.Some? then old(Me(slot)).(pc := TellFetched, source := data.value) else Fail(old(Me(slot)), Transient)
      ensures data.Some? ==> key in objects && objects[key] == data.value
    {
      Others(slot);
      var before := Snapshot();
      var reply: Reply := *;
      data := if reply.Done? && key in objects then Some(objects[key]) else None;
      Commit(slot, reply, before);
    }

    method Put(slot: nat, key: ObjectKey, data: Bytes) returns (ok: bool)
      requires Valid() && slot in workers && Me(slot).msg.body.Wire?
      requires Me(slot).pc.Put? && Me(slot).pc.i < |Me(slot).outputs|
      requires key == RowFor(JobOf(Me(slot)), Due(Me(slot))).key && data == Due(Me(slot)).data
      modifies this
      ensures Valid() && Onward(old(run), run, slot) && slot in workers
      ensures Me(slot) == Try(old(Me(slot)), ok, old(Me(slot)).(pc := Record(old(Me(slot)).pc.i)))
      ensures objects == Before().objects[key := data] || (!ok && objects == Before().objects)
    {
      Others(slot);
      var before := Snapshot();
      var reply: Reply := *;
      ok := reply.Done?;
      if reply.Applied() {
        objects := objects[key := data];
      }
      Commit(slot, reply, before);
    }

    method PublishEvent(slot: nat, e: Event) returns (ok: bool)
      requires Valid() && slot in workers && Tells(Me(slot)) && EventAt(Me(slot)) == e
      modifies this
      ensures Valid() && Onward(old(run), run, slot) && slot in workers
      ensures Me(slot) == AfterEvent(cfg, old(Me(slot)), ok)
      ensures events == Before().events + [e] || (!ok && events == Before().events)
      ensures slot in Before().workers && (!Before().workers[slot].linked ==> !ok && events == Before().events)
    {
      Others(slot);
      var before := Snapshot();
      var reply: Reply := *;
      ok := reply.Done? && workers[slot].linked;
      if reply.Applied() && workers[slot].linked {
        events := events + [e];
      }
      Commit(slot, reply, before);
    }

    /** Decoding the body, a step no one else sees. */
    method Decode(slot: nat)
      requires Valid() && slot in workers && Me(slot).pc.Begin?
      modifies this
      ensures Valid() && Onward(old(run), run, slot) && slot in workers
      ensures Me(slot) ==
        if old(Me(slot)).msg.body.Wire? then old(Me(slot)).(pc := CheckStatus)
        else old(Me(slot)).(pc := Parking, cause := Malformed)
    {
      Others(slot);
      Commit(slot, Refused, Snapshot());
    }

    /** Having transformed the source, another step no one else sees. */
    method Transformed(slot: nat, results: Option<seq<Output>>)
      requires Valid() && slot in workers && Me(slot).msg.body.Wire? && Me(slot).pc.Transform?
      requires results == Run(cfg.codec, JobOf(Me(slot)), Me(slot).source)
      modifies this
      ensures Valid() && Onward(old(run), run, slot) && slot in workers
      ensures Me(slot) ==
        if results.Some? then NextOutput(old(Me(slot)).(outputs := results.value), 0)
        else Fail(old(Me(slot)), Permanent)
    {
      Others(slot);
      ghost var before := Snapshot();
      Commit(slot, Refused, Snapshot());
      TransformCourse(cfg, old(Me(slot)), results, SeenOk(before, before.workers[slot], Refused),
                      StatusRead(before, before.workers[slot]), DataRead(before, before.workers[slot]));
    }

    /** Republishes the body to the parking exchange, with fresh headers. */
    method Park(slot: nat) returns (ok: bool)
      requires Valid() && slot in workers && Me(slot).pc.Parking?
      modifies this
      ensures Valid() && Onward(old(run), run, slot) && slot in workers
      ensures Me(slot) == old(Me(slot)).(pc := if ok || old(Me(slot)).worker.Image? then AckParked else Raised)
      ensures copies == Before().copies + multiset{Copy(ParkingQueue, old(Me(slot)).msg.(deaths := []))} ||
              (!ok && copies == Before().copies)
      ensures slot in Before().workers && (!Before().workers[slot].linked ==> !ok && copies == Before().copies)
    {
      Others(slot);
      var before := Snapshot();
      var h, reply: Reply := workers[slot], *;
      ok := reply.Done? && h.linked;
      ParkEffect(before, h, reply);
      ParkSeen(before, h, reply);
      if h.linked {
        ledger := ledger[h.msg.id := ParkTally(before, h.msg.id, reply)];
        if reply.Applied() {
          PublishedToHop(ParkingExchange, h.msg.(deaths := []));
          copies := copies + Published(ParkingExchange, h.msg.(deaths := []));
        }
      }
      Commit(slot, reply, before);
      ParkCourse(cfg, Bare(h), ok, StatusRead(before, h), DataRead(before, h));
    }

    /** Acks or nacks the delivery and ends the attempt. */
    method Settle(slot: nat)
      requires Valid() && slot in workers && Settling(Me(slot).pc)
      modifies this
      ensures Valid() && Onward(old(run), run, slot) && slot !in workers
      ensures EndedBy(old(Me(slot)), slot)
    {
      Others(slot);
      ghost var taken := run;
      ExecOne(cfg, run, Work(slot, Done));
      CrashesOne(run, Work(slot, Done), slot);
      SettledAs(Snapshot(), slot);
      Load(Pipeline.Settle(Snapshot(), slot));
      run := run + [Work(slot, Done)];
      assert run[..|run| - 1] == taken;
    }

    /** The last action settled the delivery of attempt h from this slot. */
    ghost predicate EndedBy(h: Handler, slot: nat)
      reads this
    {
      && run != [] && run[|run| - 1] == Work(slot, Done) && slot in Before().workers
      && Bare(Before().workers[slot]) == h && Settling(h.pc)
      && SettledBy(Before(), Before().workers[slot], Snapshot())
    }

    /** The broker hands a ready copy to a consumer. */
    method Receive(c: Copy, slot: nat)
      requires Valid() && Enabled(Snapshot(), Deliver(c, slot))
      modifies this
      ensures Valid() && run == old(run) + [Deliver(c, slot)] && slot in workers && Onward(old(run), run, slot)
      ensures workers[slot] ==
        Handler(WorkerOf(c.queue), c.msg, AttemptOf(c.msg.deaths), true, Begin, NoCause, [], [], [])
    {
      ExecOne(cfg, run, Deliver(c, slot));
      CrashesOne(run, Deliver(c, slot), slot);
      Load(Step(cfg, Snapshot(), Deliver(c, slot)));
      run := run + [Deliver(c, slot)];
    }
  }

  // ---- what a call adds to the run ----

  /** How often the run crashed this slot. */
  function Crashes(run: seq<Action>, slot: nat): nat {
    if run == [] then 0 else Crashes(run[..|run| - 1], slot) + if run[|run| - 1] == Crash(slot) then 1 else 0
  }

  /** A later point of the same run, the slot not crashed in between. */
  predicate Onward(run: seq<Action>, longer: seq<Action>, slot: nat) {
    run <= longer && Crashes(longer, slot) == Crashes(run, slot)
  }

  lemma CrashesOne(run: seq<Action>, a: Action, slot: nat)
    ensures Crashes(run + [a], slot) == Crashes(run, slot) + if a == Crash(slot) then 1 else 0
  {
    assert (run + [a])[..|run|] == run;
  }

  /** What Onward says of the actions between. */
  lemma {:induction false} OnwardIff(run: seq<Action>, longer: seq<Action>, slot: nat)
    requires run <= longer
    ensures Crashes(run, slot) <= Crashes(longer, slot)
    ensures Onward(run, longer, slot) <==> forall i :: |run| <= i < |longer| ==> longer[i] != Crash(slot)
    decreases |longer|
  {
    if |run| == |longer| {
      assert run == longer;
    } else {
      OnwardIff(run, longer[..|longer| - 1], slot);
    }
  }

  /** The row update of one status write. */
  function Updated(jobs: map<JobId, Row>, id: JobId, status: Status): map<JobId, Row> {
    if id in jobs then jobs[id := jobs[id].(status := status)] else jobs
  }

  /** What settling the delivery of handler h does to the broker: an ack removes the
      message for good, a nack dead-letters it into the retry queue, and over a closed
      channel neither does anything. */
  predicate SettledBy(s: State, h: Handler, t: State) {
    if !h.linked then t.settled == s.settled && t.copies == s.copies
    else if h.pc.Reject? then
      t.settled == s.settled &&
      t.copies == s.copies + multiset{Copy(RetryQueue, Died(h.msg, WorkQueue(h.worker), Rejected))}
    else t.copies == s.copies && t.settled == s.settled[h.msg.id := if h.pc.AckDone? then Succeeded else Parked]
  }

  lemma SettledAs(s: State, slot: nat)
    requires slot in s.workers && Settling(s.workers[slot].pc)
    ensures SettledBy(s, s.workers[slot], Pipeline.Settle(s, slot))
  {
    PublishedToHop(RetryExchange, Died(s.workers[slot].msg, WorkQueue(s.workers[slot].worker), Rejected));
  }

  function Bare(h: Handler): Handler { h.(linked := true, trace := []) }

  /** Past an effect whose failure the image worker ignores and the OCR worker raises. */
  function BestEffort(h: Handler, ok: bool, pc: Pc): Handler {
    if ok || h.worker.Image? then h.(pc := pc) else Fail(h, Transient)
  }

  function AfterStatus(cfg: Config, h: Handler, ok: bool): Handler {
    match h.pc
    case SetProcessing => BestEffort(h, ok, TellStart)
    case SetCompleted => Try(h, ok, h.(pc := TellCompleted))
    case _ => if ok || h.worker.Image? then h.(pc := TellFailed) else Decide(cfg, h)
  }

  function AfterEvent(cfg: Config, h: Handler, ok: bool): Handler {
    match h.pc
    case TellStart => BestEffort(h, ok, Fetch)
    case TellFetched => BestEffort(h, ok, Transform)
    case TellArtifact(i) => BestEffort(h, ok, NextOutput(h, i + 1).pc)
    case TellCompleted => BestEffort(h, ok, AckDone)
    case _ => Decide(cfg, h)
  }

  /** Both workers' next step in one place: they differ only in which failures they
      ignore. */
  function Course(cfg: Config, h: Handler, ok: bool, status: Option<Status>, data: Bytes): Handler
    requires h.msg.body.Wire? || h.pc.Begin? || h.pc.Parking?
  {
    match h.pc
    case Begin => if h.msg.body.Wire? then h.(pc := CheckStatus) else h.(pc := Parking, cause := Malformed)
    case CheckStatus =>
      if !ok && h.worker.Ocr? then Fail(h, Transient)
      else h.(pc := if ok && status == Some(Completed) then AckDone else SetProcessing)
    case Fetch => if ok then h.(pc := TellFetched, source := data) else Fail(h, Transient)
    case Transform => Transformed(cfg, h)
    case Put(i) => Try(h, ok, h.(pc := Record(i)))
    case Record(i) => Try(h, ok, h.(pc := TellArtifact(i)))
    case Parking => h.(pc := if ok || h.worker.Image? then AckParked else Raised)
    case _ =>
      if WritesStatus(h.pc) then AfterStatus(cfg, h, ok)
      else if Telling(h.pc) then AfterEvent(cfg, h, ok)
      else h
  }

  lemma GoCourse(cfg: Config, h: Handler, ok: bool, status: Option<Status>, data: Bytes)
    requires h.msg.body.Wire? && h.worker.Image? && !h.pc.Begin? && !Settling(h.pc) && !h.pc.Raised?
    ensures Course(cfg, Bare(h), ok, status, data) == Bare(GoNext(cfg, h, ok, status, data))
  {
    match h.pc
    case CheckStatus =>
    case SetProcessing =>
    case TellStart =>
    case Fetch =>
    case TellFetched =>
    case Transform =>
    case Put(_) =>
    case Record(_) =>
    case TellArtifact(_) =>
    case SetCompleted =>
    case TellCompleted =>
    case SetFailed =>
    case TellFailed =>
    case Parking =>
  }

  lemma PyCourse(cfg: Config, h: Handler, ok: bool, status: Option<Status>, data: Bytes)
    requires h.msg.body.Wire? && h.worker.Ocr? && !h.pc.Begin? && !Settling(h.pc) && !h.pc.Raised?
    ensures Course(cfg, Bare(h), ok, status, data) == Bare(PyNext(cfg, h, ok, status, data))
  {
    match h.pc
    case CheckStatus =>
    case SetProcessing =>
    case TellStart =>
    case Fetch =>
    case TellFetched =>
    case Transform =>
    case Put(_) =>
    case Record(_) =>
    case TellArtifact(_) =>
    case SetCompleted =>
    case TellCompleted =>
    case SetFailed =>
    case TellFailed =>
    case Parking =>
  }

  lemma CourseIsNext(cfg: Config, h: Handler, ok: bool, status: Option<Status>, data: Bytes)
    requires h.msg.body.Wire? || h.pc.Begin? || h.pc.Parking?
    requires !Settling(h.pc) && !h.pc.Raised?
    ensures Course(cfg, Bare(h), ok, status, data) == Bare(Next(cfg, h, ok, status, data))
  {
    if h.msg.body.Wire? && !h.pc.Begin? {
      if h.worker.Image? {
        GoCourse(cfg, h, ok, status, data);
      } else {
        PyCourse(cfg, h, ok, status, data);
      }
    }
  }

  /** The output an attempt is storing. */
  function Due(h: Handler): Output
    requires (h.pc.Put? || h.pc.Record?) && h.pc.i < |h.outputs|
  {
    h.outputs[h.pc.i]
  }

  /** The finished handler run, if this step ends it. */
  function FinishedRun(cfg: Config, h: Handler, h': Handler): seq<Return> {
    if HandleReturns(h, h')
    then [Return(h.msg.id, h.worker, h.attempt, LabelOf(cfg, h'), ActionOf(h'.pc))]
    else []
  }

  lemma EffectIs(cfg: Config, s: State, slot: nat, reply: Reply)
    requires Enabled(s, Work(slot, reply)) && !Settling(s.workers[slot].pc)
    ensures var h, t := s.workers[slot], Effected(s, s.workers[slot], reply);
      Step(cfg, s, Work(slot, reply)) ==
      t.(workers := t.workers[slot := Advance(cfg, s, h, reply)],
         finished := t.finished + FinishedRun(cfg, h, Advance(cfg, s, h, reply)))
  {
  }

  /** Actions of the rest of the system as one attempt sees it. */
  predicate Elsewhere(a: Action, slot: nat) {
    !(a.Work? && a.slot == slot) && a != Crash(slot)
  }

  lemma ForeignStep(cfg: Config, s: State, a: Action, slot: nat)
    requires slot in s.workers && Elsewhere(a, slot)
    ensures var t := Step(cfg, s, a);
      slot in t.workers && Bare(t.workers[slot]) == Bare(s.workers[slot])
  {
    if Enabled(s, a) && !a.Disconnect? {
      if a.Work? {
        WorkLeavesOthers(cfg, s, a.slot, a.reply, Held(slot), Apply(cfg, s, a));
      } else {
        MoveLeavesHolder(cfg, s, a, slot, Apply(cfg, s, a));
      }
    }
  }

  lemma StatusEffect(s: State, h: Handler, reply: Reply, status: Status)
    requires h.msg.body.Wire? && Written(h.pc) == Some(status)
    ensures var id := JobOf(h).id;
      Effected(s, h, reply) ==
      if reply.Applied() && id in s.jobs
      then s.(jobs := s.jobs[id := s.jobs[id].(status := status)],
              everCompleted := if status.Completed? then s.everCompleted + {id} else s.everCompleted)
      else s
  {
    assert s.(ledger := s.ledger) == s;
  }

  lemma RecordEffect(s: State, h: Handler, reply: Reply)
    requires h.msg.body.Wire? && h.pc.Record? && h.pc.i < |h.outputs|
    ensures var j := JobOf(h);
      Effected(s, h, reply) ==
      if reply.Applied() && j.id in s.jobs
      then s.(artifacts := s.artifacts[(j.id, Due(h).name) := RowFor(j, Due(h))])
      else s
  {
    assert s.(ledger := s.ledger) == s;
  }

  /** The books on a message after one more attempt to park it. */
  function ParkTally(s: State, id: JobId, reply: Reply): Ledger {
    var t := Tally(s, id);
    t.(parkTries := t.parkTries + 1, parked := if reply.Applied() then t.parked + 1 else t.parked)
  }

  lemma ParkEffect(s: State, h: Handler, reply: Reply)
    requires h.pc.Parking?
    ensures h.linked ==>
      Effected(s, h, reply) ==
      s.(ledger := s.ledger[h.msg.id := ParkTally(s, h.msg.id, reply)],
         copies := if reply.Applied() then s.copies + Published(ParkingExchange, h.msg.(deaths := [])) else s.copies)
    ensures !h.linked ==> Effected(s, h, reply) == s
  {
    var id := h.msg.id;
    assert s.(ledger := s.ledger) == s;
    var t := Tally(s, id).(parkTries := Tally(s, id).parkTries + 1);
    assert s.ledger[id := t][id := t.(parked := t.parked + 1)] == s.ledger[id := t.(parked := t.parked + 1)];
  }

  lemma TransformCourse(cfg: Config, h: Handler, results: Option<seq<Output>>, ok: bool, status: Option<Status>,
                        data: Bytes)
    requires h.msg.body.Wire? && h.pc.Transform? && results == Run(cfg.codec, JobOf(h), h.source)
    ensures Course(cfg, h, ok, status, data) ==
      if results.Some? then NextOutput(h.(outputs := results.value), 0) else Fail(h, Permanent)
  {
  }

  lemma ParkCourse(cfg: Config, h: Handler, ok: bool, status: Option<Status>, data: Bytes)
    requires h.pc.Parking?
    ensures Course(cfg, h, ok, status, data) == h.(pc := if ok || h.worker.Image? then AckParked else Raised)
  {
  }

  lemma ParkSeen(s: State, h: Handler, reply: Reply)
    requires h.pc.Parking?
    ensures SeenOk(s, h, reply) == (reply.Done? && h.linked)
  {
  }

  lemma OwnMessage(cfg: Config, run: seq<Action>, slot: nat)
    requires slot in Exec(cfg, run).workers && Exec(cfg, run).workers[slot].msg.body.Wire?
    ensures JobOf(Exec(cfg, run).workers[slot]).id == Exec(cfg, run).workers[slot].msg.id
  {
    Reachable(cfg, run);
    assert HandlerOk(cfg, Exec(cfg, run), Exec(cfg, run).workers[slot]);
    OwnJob(cfg, Exec(cfg, run), Exec(cfg, run).workers[slot]);
  }

  // ---- what is proved of the protocol holds of the code ----

  /** Whatever sequence of the methods above, and of others' actions, led here. */
  lemma CompletedRowsAreFull(c: Cluster, id: JobId)
    requires c.Valid() && id in c.jobs && c.jobs[id].status.Completed?
    ensures id in c.requests && c.requests[id].Submission? && Expected(c.cfg, c.Snapshot(), id).Some?
    ensures RowsOf(c.Snapshot(), id) == FullRows(c.requests[id].job, Expected(c.cfg, c.Snapshot(), id).value)
  {
    assert Exec(c.cfg, c.run) == c.Snapshot();
    CompletedIsOneFullRun(c.cfg, c.run, id, c.Snapshot());
  }

  lemma NothingIsLost(c: Cluster, id: JobId)
    requires c.Valid() && id in c.enqueued
    ensures |LiveCopies(c.Snapshot(), id)| + |Holders(c.Snapshot(), id)| + (if id in c.settled then 1 else 0) == 1
  {
    assert Exec(c.cfg, c.run) == c.Snapshot();
    Conservation(c.cfg, c.run, id, c.Snapshot());
  }
}
