/** The job-processing protocol as a state machine.

    The state holds the two tables, the object store, every copy of every message in
    the broker, the gateway's open requests and the delivery handlers of any number of
    workers. One action is one externally visible effect, so handlers, the gateway,
    crashes, lost connections and expiries interleave freely. A reply says what the
    environment made of an effect. */
module Pipeline {
  import opened Media
  import opened Amqp
  import opened Processor
  import Keys

  // ---- state ----

  datatype Config = Config(codec: Codec, imageRetries: int, ocrRetries: int)

  /** maxRetries as configured for the worker of this kind. */
  function Limit(cfg: Config, worker: Kind): int {
    match worker
    case Image => cfg.imageRetries
    case Ocr => cfg.ocrRetries
  }

  /** A body is a job, or something a worker cannot decode. */
  datatype Body = Wire(job: Job) | Garbage(raw: Bytes)

  datatype Message = Message(id: JobId, body: Body, key: string, deaths: seq<Death>)

  datatype Copy = Copy(queue: Queue, msg: Message)

  /** What became of an effect: done; refused without effect; or torn, that is, it took
      effect but the caller was told it failed. */
  datatype Reply = Done | Refused | Torn {
    predicate Applied() { Done? || Torn? }
  }

  /** Why a delivery attempt failed. */
  datatype Cause = NoCause | Transient | Permanent | Malformed

  /** The program points of one delivery attempt, named by the effect due next. */
  datatype Pc =
    | Begin
    | CheckStatus
    | SetProcessing
    | TellStart
    | Fetch
    | TellFetched
    | Transform
    | Put(i: nat)
    | Record(i: nat)
    | TellArtifact(i: nat)
    | SetCompleted
    | TellCompleted
    | SetFailed
    | TellFailed
    | AckDone
    | Parking
    | AckParked
    | Reject
    | Raised

  /** One delivery attempt. linked: its channel is open, so the delivery is still its
      own to settle. trace: the events it has tried to publish. */
  datatype Handler = Handler(
    worker: Kind, msg: Message, attempt: int, linked: bool, pc: Pc, cause: Cause,
    source: Bytes, outputs: seq<Output>, trace: seq<Event>)

  datatype GatewayPc = StoreUpload | InsertRow | PublishJob | Answered(code: nat)

  /** A request served by the gateway, or a foreign publish of an undecodable body. */
  datatype Request =
    | Submission(job: Job, upload: Bytes, pc: GatewayPc)
    | Foreign(kind: Kind, raw: Bytes)

  function KindOf(r: Request): Kind {
    match r
    case Submission(job, _, _) => job.kind
    case Foreign(kind, _) => kind
  }

  datatype Settlement = Succeeded | Parked

  datatype Label = Success | Retry | ParkedLabel

  /** One finished handler run: the outcome label it counted and what the consumer
      then did with the delivery. */
  datatype Return = Return(id: JobId, worker: Kind, attempt: int, counted: Label, action: Label)

  /** What happened to one message so far: deliveries started, trips into the retry
      queue, requeues after a crash or a lost connection, parking attempts and how many
      of them the broker accepted. */
  datatype Ledger = Ledger(starts: nat, trips: nat, requeues: nat, parkTries: nat, parked: nat)

  datatype State = State(
    jobs: map<JobId, Row>,
    artifacts: map<(JobId, string), Artifact>,
    objects: map<ObjectKey, Bytes>,
    copies: multiset<Copy>,
    requests: map<JobId, Request>,
    workers: map<nat, Handler>,
    events: seq<Event>,
    // history
    enqueued: set<JobId>,
    settled: map<JobId, Settlement>,
    ledger: map<JobId, Ledger>,
    everCompleted: set<JobId>,
    finished: seq<Return>)

  const Init: State := State(map[], map[], map[], multiset{}, map[], map[], [], {}, map[], map[], {}, [])

  // ---- shared effects ----

  function SetStatus(s: State, id: JobId, status: Status): State {
    if id !in s.jobs then s
    else s.(jobs := s.jobs[id := s.jobs[id].(status := status)],
            everCompleted := if status.Completed? then s.everCompleted + {id} else s.everCompleted)
  }

  /** One copy into every queue the topology routes the message to. */
  function Published(x: Exchange, m: Message): multiset<Copy> {
    multiset(set q | q in Route(x, m.key) :: Copy(q, m))
  }

  /** The message with one more death in its header. */
  function Died(m: Message, q: Queue, r: Reason): Message { m.(deaths := Die(m.deaths, q, r)) }

  /** What becomes of a message that dies in a queue: it goes, with that death in its
      header and its routing key unchanged, where the queue's dead letters go. */
  function DeadLettered(m: Message, q: Queue, r: Reason): multiset<Copy> {
    match DeadLetterExchange(q)
    case Some(x) => Published(x, Died(m, q, r))
    case None => multiset{}
  }

  function Tally(s: State, id: JobId): Ledger {
    if id in s.ledger then s.ledger[id] else Ledger(0, 0, 0, 0, 0)
  }

  // ---- control flow of a delivery attempt ----

  function JobOf(h: Handler): Job
    requires h.msg.body.Wire?
  {
    h.msg.body.job
  }

  function EventAt(h: Handler): Event
    requires h.msg.body.Wire?
  {
    var j := JobOf(h);
    match h.pc
    case TellFetched => Event(j.id, j.kind, Processing, 40, "")
    case TellArtifact(i) =>
      Event(j.id, j.kind, Processing, 80, if i < |h.outputs| then h.outputs[i].name else "")
    case TellCompleted => Event(j.id, j.kind, Completed, 100, "")
    case TellFailed => Event(j.id, j.kind, Failed, if h.worker.Image? then 0 else 100, "")
    case _ => Event(j.id, j.kind, Processing, 10, "")
  }

  predicate Telling(pc: Pc) {
    pc.TellStart? || pc.TellFetched? || pc.TellArtifact? || pc.TellCompleted? || pc.TellFailed?
  }

  function Fail(h: Handler, cause: Cause): Handler { h.(pc := SetFailed, cause := cause) }

  /** The consumer's verdict on a failed attempt. */
  function Decide(cfg: Config, h: Handler): Handler {
    if h.cause.Permanent? || h.attempt >= Limit(cfg, h.worker) then h.(pc := Parking)
    else h.(pc := Reject)
  }

  function NextOutput(h: Handler, i: nat): Handler {
    h.(pc := if i < |h.outputs| then Put(i) else SetCompleted)
  }

  function Transformed(cfg: Config, h: Handler): Handler
    requires h.msg.body.Wire?
  {
    match Run(cfg.codec, JobOf(h), h.source)
    case None => Fail(h, Permanent)
    case Some(outs) => NextOutput(h.(outputs := outs), 0)
  }

  /** The image worker: status writes before the work and all events are best effort. */
  function GoNext(cfg: Config, h: Handler, ok: bool, status: Option<Status>, data: Bytes): Handler
    requires h.msg.body.Wire?
  {
    match h.pc
    case CheckStatus => if ok && status == Some(Completed) then h.(pc := AckDone) else h.(pc := SetProcessing)
    case SetProcessing => h.(pc := TellStart)
    case TellStart => h.(pc := Fetch)
    case Fetch => Try(h, ok, h.(pc := TellFetched, source := data))
    case TellFetched => h.(pc := Transform)
    case Transform => Transformed(cfg, h)
    case Put(i) => Try(h, ok, h.(pc := Record(i)))
    case Record(i) => Try(h, ok, h.(pc := TellArtifact(i)))
    case TellArtifact(i) => NextOutput(h, i + 1)
    case SetCompleted => Try(h, ok, h.(pc := TellCompleted))
    case TellCompleted => h.(pc := AckDone)
    case SetFailed => h.(pc := TellFailed)
    case TellFailed => Decide(cfg, h)
    case Parking => h.(pc := AckParked)
    case _ => h
  }

  /** The OCR worker: every failing effect raises; recording the failure is best
      effort; a raising park ends the callback without an ack. */
  function PyNext(cfg: Config, h: Handler, ok: bool, status: Option<Status>, data: Bytes): Handler
    requires h.msg.body.Wire?
  {
    match h.pc
    case CheckStatus =>
      Try(h, ok, h.(pc := if status == Some(Completed) then AckDone else SetProcessing))
    case SetProcessing => Try(h, ok, h.(pc := TellStart))
    case TellStart => Try(h, ok, h.(pc := Fetch))
    case Fetch => Try(h, ok, h.(pc := TellFetched, source := data))
    case TellFetched => Try(h, ok, h.(pc := Transform))
    case Transform => Transformed(cfg, h)
    case Put(i) => Try(h, ok, h.(pc := Record(i)))
    case Record(i) => Try(h, ok, h.(pc := TellArtifact(i)))
    case TellArtifact(i) => Try(h, ok, NextOutput(h, i + 1))
    case SetCompleted => Try(h, ok, h.(pc := TellCompleted))
    case TellCompleted => Try(h, ok, h.(pc := AckDone))
    case SetFailed => if ok then h.(pc := TellFailed) else Decide(cfg, h)
    case TellFailed => Decide(cfg, h)
    case Parking => h.(pc := if ok then AckParked else Raised)
    case _ => h
  }

  function Try(h: Handler, ok: bool, next: Handler): Handler {
    if ok then next else Fail(h, Transient)
  }

  function Next(cfg: Config, h: Handler, ok: bool, status: Option<Status>, data: Bytes): Handler {
    if h.pc.Begin? then
      if h.msg.body.Wire? then h.(pc := CheckStatus) else h.(pc := Parking, cause := Malformed)
    else if h.msg.body.Garbage? then
      if h.pc.Parking? then h.(pc := if ok || h.worker.Image? then AckParked else Raised) else h
    else
      var h' := if h.worker.Image? then GoNext(cfg, h, ok, status, data) else PyNext(cfg, h, ok, status, data);
      if Telling(h.pc) then h'.(trace := h.trace + [EventAt(h)]) else h'
  }

  /** The label a finished run counts. The image worker compares with a literal 5. */
  function LabelOf(cfg: Config, h: Handler): Label {
    if h.cause.NoCause? then Success
    else if h.cause.Permanent? || h.attempt >= (if h.worker.Image? then 5 else Limit(cfg, h.worker))
    then ParkedLabel
    else Retry
  }

  function ActionOf(pc: Pc): Label {
    match pc
    case AckDone => Success
    case Reject => Retry
    case _ => ParkedLabel
  }

  /** True in the step in which a worker's handle function returns or raises. */
  predicate HandleReturns(h: Handler, h': Handler) {
    h.msg.body.Wire? && !h.pc.Parking? &&
    (h'.pc.AckDone? || h'.pc.Parking? || h'.pc.Reject?) && h.pc != h'.pc
  }

  // ---- one effect of a delivery attempt ----

  /** The effect due at the handler's program point. An unlinked handler reaches the
      stores but no longer the broker. */
  function Perform(s: State, h: Handler): State {
    var id := h.msg.id;
    if h.pc.Parking? then
      if h.linked then
        s.(copies := s.copies + Published(ParkingExchange, h.msg.(deaths := [])),
           ledger := s.ledger[id := Tally(s, id).(parked := Tally(s, id).parked + 1)])
      else s
    else if h.msg.body.Garbage? then s
    else if Telling(h.pc) then
      if h.linked then s.(events := s.events + [EventAt(h)]) else s
    else PerformStore(s, h)
  }

  /** Effects on the tables and the object store. */
  function PerformStore(s: State, h: Handler): State
    requires h.msg.body.Wire?
  {
    var j := JobOf(h);
    match h.pc
    case SetProcessing => SetStatus(s, j.id, Processing)
    case Put(i) =>
      if i < |h.outputs| then
        s.(objects := s.objects[ArtifactKey(j.id, ArtifactFile(j.kind, h.outputs[i])) := h.outputs[i].data])
      else s
    case Record(i) =>
      if i < |h.outputs| && j.id in s.jobs then
        s.(artifacts := s.artifacts[(j.id, h.outputs[i].name) := RowFor(j, h.outputs[i])])
      else s
    case SetCompleted => SetStatus(s, j.id, Completed)
    case SetFailed => SetStatus(s, j.id, Failed)
    case _ => s
  }

  /** The status the effect at this point writes, if any. */
  function Written(pc: Pc): Option<Status> {
    match pc
    case SetProcessing => Some(Processing)
    case SetCompleted => Some(Completed)
    case SetFailed => Some(Failed)
    case _ => None
  }

  lemma PerformWrite(s: State, h: Handler)
    requires h.msg.body.Wire? && Written(h.pc).Some?
    ensures PerformStore(s, h) == SetStatus(s, JobOf(h).id, Written(h.pc).value)
  {
  }

  /** Whether the caller sees the effect succeed. */
  predicate SeenOk(s: State, h: Handler, reply: Reply) {
    reply.Done? &&
    (h.pc.Fetch? && h.msg.body.Wire? ==> JobOf(h).sourceKey in s.objects) &&
    (h.pc.Record? ==> h.msg.id in s.jobs) &&
    (Telling(h.pc) || h.pc.Parking? ==> h.linked)
  }

  function StatusRead(s: State, h: Handler): Option<Status> {
    if h.msg.id in s.jobs then Some(s.jobs[h.msg.id].status) else None
  }

  function DataRead(s: State, h: Handler): Bytes {
    if h.msg.body.Wire? && JobOf(h).sourceKey in s.objects then s.objects[JobOf(h).sourceKey] else []
  }

  function Advance(cfg: Config, s: State, h: Handler, reply: Reply): Handler {
    Next(cfg, h, SeenOk(s, h, reply), StatusRead(s, h), DataRead(s, h))
  }

  /** The shared state after the effect due at the handler's program point. */
  function Effected(s: State, h: Handler, reply: Reply): State {
    var id := h.msg.id;
    var s1 := s.(ledger := if h.pc.Parking? && h.linked
                           then s.ledger[id := Tally(s, id).(parkTries := Tally(s, id).parkTries + 1)]
                           else s.ledger);
    if reply.Applied() then Perform(s1, h) else s1
  }

  /** A step of a delivery attempt short of settling the delivery. */
  function Effect(cfg: Config, s: State, slot: nat, reply: Reply): State
    requires slot in s.workers
  {
    var h := s.workers[slot];
    var h' := Advance(cfg, s, h, reply);
    var t := Effected(s, h, reply);
    t.(workers := t.workers[slot := h'],
       finished := if HandleReturns(h, h')
                   then t.finished + [Return(h.msg.id, h.worker, h.attempt, LabelOf(cfg, h'), ActionOf(h'.pc))]
                   else t.finished)
  }

  /** Ack or reject: only a linked handler still holds the delivery. A reject
      dead-letters the message. */
  function Settle(s: State, slot: nat): State
    requires slot in s.workers
  {
    var h := s.workers[slot];
    var id := h.msg.id;
    var acked := h.linked && !h.pc.Reject?;
    var rejected := h.linked && h.pc.Reject?;
    s.(workers := s.workers - {slot},
       settled := if acked then s.settled[id := if h.pc.AckDone? then Succeeded else Parked] else s.settled,
       copies := if rejected then s.copies + DeadLettered(h.msg, WorkQueue(h.worker), Rejected) else s.copies,
       ledger := if rejected then s.ledger[id := Tally(s, id).(trips := Tally(s, id).trips + 1)] else s.ledger)
  }

  predicate Settling(pc: Pc) { pc.AckDone? || pc.AckParked? || pc.Reject? }

  /** The broker takes an unacked delivery back to its queue, header untouched. */
  function Requeue(s: State, h: Handler): State {
    s.(copies := if h.linked then s.copies + multiset{Copy(WorkQueue(h.worker), h.msg)} else s.copies,
       ledger := if h.linked
                 then s.ledger[h.msg.id := Tally(s, h.msg.id).(requeues := Tally(s, h.msg.id).requeues + 1)]
                 else s.ledger)
  }

  // ---- the gateway ----

  /** The next effect of an open submission: store, insert, publish, answer. */
  function Serve(s: State, id: JobId, reply: Reply): State
    requires id in s.requests && s.requests[id].Submission?
  {
    var r := s.requests[id];
    var j := r.job;
    match r.pc
    case StoreUpload =>
      var s1 := if reply.Applied() then s.(objects := s.objects[j.sourceKey := r.upload]) else s;
      s1.(requests := s.requests[id := r.(pc := if reply.Done? then InsertRow else Answered(502))])
    case InsertRow =>
      var s1 := if reply.Applied()
                then s.(jobs := s.jobs[id := Row(j.kind, Pending, j.sourceKey, j.operations)])
                else s;
      s1.(requests := s.requests[id := r.(pc := if reply.Done? then PublishJob else Answered(500))])
    case PublishJob =>
      var s1 := if reply.Applied() then Enqueue(s, Message(id, Wire(j), RoutingKey(j.kind), [])) else s;
      s1.(requests := s.requests[id := r.(pc := Answered(if reply.Done? then 202 else 502))])
    case Answered(_) => s
  }

  function Enqueue(s: State, m: Message): State {
    s.(copies := s.copies + Published(JobsExchange, m),
       enqueued := s.enqueued + {m.id},
       ledger := s.ledger[m.id := Ledger(0, 0, 0, 0, 0)])
  }

  // ---- actions ----

  datatype Action =
    | Submit(id: JobId, kind: Kind, filename: string, operations: seq<string>, params: Params, upload: Bytes)
    | Gateway(id: JobId, reply: Reply)
    | Inject(id: JobId, kind: Kind, raw: Bytes)
    | Deliver(copy: Copy, slot: nat)
    | Work(slot: nat, reply: Reply)
    | Crash(slot: nat)
    | Disconnect(slot: nat)
    | Expire(copy: Copy)

  predicate Enabled(s: State, a: Action) {
    match a
    case Submit(id, _, _, _, _, _) => id !in s.requests && Keys.SlashFree(id)
    case Gateway(id, _) => id in s.requests && s.requests[id].Submission? && !s.requests[id].pc.Answered?
    case Inject(id, _, _) => id !in s.requests
    case Deliver(c, slot) => c in s.copies && BoundTo(c.queue) == JobsExchange && slot !in s.workers
    case Work(slot, _) => slot in s.workers && !s.workers[slot].pc.Raised?
    case Crash(slot) => slot in s.workers
    case Disconnect(slot) => slot in s.workers && s.workers[slot].linked
    case Expire(c) => c in s.copies && c.queue == RetryQueue
  }

  function WorkerOf(q: Queue): Kind { if q.OcrQueue? then Ocr else Image }

  function Apply(cfg: Config, s: State, a: Action): State
    requires Enabled(s, a)
  {
    match a
    case Submit(id, kind, filename, ops, params, upload) =>
      var j := Job(id, kind, UploadKey(id, Keys.Sanitize(filename)), ops, params);
      s.(requests := s.requests[id := Submission(j, upload, StoreUpload)])
    case Gateway(id, reply) => Serve(s, id, reply)
    case Inject(id, kind, raw) =>
      Enqueue(s.(requests := s.requests[id := Foreign(kind, raw)]),
              Message(id, Garbage(raw), RoutingKey(kind), []))
    case Deliver(c, slot) =>
      var id := c.msg.id;
      s.(copies := s.copies - multiset{c},
         ledger := s.ledger[id := Tally(s, id).(starts := Tally(s, id).starts + 1)],
         workers := s.workers[slot :=
           Handler(WorkerOf(c.queue), c.msg, AttemptOf(c.msg.deaths), true, Begin, NoCause, [], [], [])])
    case Work(slot, reply) =>
      if Settling(s.workers[slot].pc) then Settle(s, slot) else Effect(cfg, s, slot, reply)
    case Crash(slot) =>
      Requeue(s, s.workers[slot]).(workers := s.workers - {slot})
    case Disconnect(slot) =>
      Requeue(s, s.workers[slot]).(workers := s.workers[slot := s.workers[slot].(linked := false)])
    case Expire(c) =>
      s.(copies := s.copies - multiset{c} + DeadLettered(c.msg, RetryQueue, Expired))
  }

  /** A disabled action changes nothing, so every sequence of actions is a run. */
  function Step(cfg: Config, s: State, a: Action): State {
    if Enabled(s, a) then Apply(cfg, s, a) else s
  }

  /** The state a run reaches from the empty system. */
  function Exec(cfg: Config, run: seq<Action>): State {
    if run == [] then Init else Step(cfg, Exec(cfg, run[..|run| - 1]), run[|run| - 1])
  }

  /** The run leads to s. Stated through an equal run so that the definition of Exec is
      unfolded only where a proof mentions Exec. */
  ghost predicate Reaches(cfg: Config, run: seq<Action>, s: State) {
    forall r: seq<Action> :: r == run ==> Exec(cfg, r) == s
  }

  lemma ExecOne(cfg: Config, run: seq<Action>, a: Action)
    ensures Exec(cfg, run + [a]) == Step(cfg, Exec(cfg, run), a)
  {
    assert (run + [a])[..|run + [a]| - 1] == run;
  }
}
