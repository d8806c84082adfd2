/** Referential integrity across the two tables, the object store and the broker, and
    the idempotency of reprocessing, over every run: any number of workers, crashes,
    redeliveries and stale handlers that outlive their connection. */
module Integrity {
  import opened Media
  import opened Amqp
  import opened Processor
  import opened Pipeline
  import Keys

  // ---- one uninterrupted run, as table rows and objects ----

  function Upsert(m: map<string, Artifact>, job: Job, outs: seq<Output>): map<string, Artifact> {
    if outs == [] then m
    else
      var o := outs[|outs| - 1];
      Upsert(m, job, outs[..|outs| - 1])[o.name := RowFor(job, o)]
  }

  /** The artifact rows one uninterrupted run leaves, by name. */
  function FullRows(job: Job, outs: seq<Output>): map<string, Artifact> { Upsert(map[], job, outs) }

  /** What the run wrote under each object key; the last write wins. */
  function FullObjects(job: Job, outs: seq<Output>): map<ObjectKey, Bytes> {
    if outs == [] then map[]
    else
      var o := outs[|outs| - 1];
      FullObjects(job, outs[..|outs| - 1])[RowFor(job, o).key := o.data]
  }

  /** Same name or same file means same output. Runs have this property. */
  ghost predicate Consistent(job: Job, outs: seq<Output>) {
    forall o, o' | o in outs && o' in outs ::
      o.name == o'.name || ArtifactFile(job.kind, o) == ArtifactFile(job.kind, o') ==> o == o'
  }

  lemma RunsAreConsistent(c: Codec, job: Job, src: Bytes)
    ensures Run(c, job, src).Some? ==> Consistent(job, Run(c, job, src).value)
  {
    if Run(c, job, src).Some? {
      var outs := Run(c, job, src).value;
      forall o, o' | o in outs && o' in outs &&
          (o.name == o'.name || ArtifactFile(job.kind, o) == ArtifactFile(job.kind, o'))
        ensures o == o'
      {
        RunIsConsistent(c, job, src, o, o');
      }
    }
  }

  lemma {:induction false} FullRowsHave(job: Job, outs: seq<Output>)
    requires Consistent(job, outs)
    ensures forall n :: n in FullRows(job, outs) <==> exists o :: o in outs && o.name == n
    ensures forall o :: o in outs ==> o.name in FullRows(job, outs) && FullRows(job, outs)[o.name] == RowFor(job, o)
  {
    if outs != [] {
      var n := |outs| - 1;
      assert outs == outs[..n] + [outs[n]];
      FullRowsHave(job, outs[..n]);
      forall m | m in FullRows(job, outs) ensures exists o :: o in outs && o.name == m {
        if m == outs[n].name {
          assert outs[n] in outs;
        } else {
          assert m in FullRows(job, outs[..n]);
          var o :| o in outs[..n] && o.name == m;
          assert o in outs;
        }
      }
    }
  }

  lemma {:induction false} FullObjectsHave(job: Job, outs: seq<Output>)
    requires Consistent(job, outs)
    ensures forall k :: k in FullObjects(job, outs) ==> k.ArtifactKey? && k.job == job.id
    ensures forall o :: o in outs ==>
      RowFor(job, o).key in FullObjects(job, outs) && FullObjects(job, outs)[RowFor(job, o).key] == o.data
  {
    if outs != [] {
      var n := |outs| - 1;
      assert outs == outs[..n] + [outs[n]];
      FullObjectsHave(job, outs[..n]);
    }
  }

  /** Reprocessing is safe: rows left by any partial attempts, overwritten by a full
      run, are the rows of one uninterrupted run. */
  lemma {:induction false} PartialThenFull(m: map<string, Artifact>, job: Job, outs: seq<Output>)
    requires forall n :: n in m ==> n in FullRows(job, outs) && m[n] == FullRows(job, outs)[n]
    requires Consistent(job, outs)
    ensures Upsert(m, job, outs) == FullRows(job, outs)
  {
    UpsertAdds(m, job, outs);
  }

  lemma {:induction false} UpsertAdds(m: map<string, Artifact>, job: Job, outs: seq<Output>)
    ensures Upsert(m, job, outs) == m + FullRows(job, outs)
  {
    if outs != [] {
      UpsertAdds(m, job, outs[..|outs| - 1]);
    }
  }

  // ---- the invariant ----

  /** The outputs of an uninterrupted run for a submitted job, from the bytes the
      client uploaded. */
  function Expected(cfg: Config, s: State, id: JobId): Option<seq<Output>> {
    if id in s.requests && s.requests[id].Submission?
    then Run(cfg.codec, s.requests[id].job, s.requests[id].upload)
    else None
  }

  ghost predicate SubmissionOk(s: State, id: JobId, r: Request)
    requires r.Submission?
  {
    && r.job.id == id && Keys.SlashFree(id)
    && r.job.sourceKey.UploadKey? && r.job.sourceKey.job == id
    && (id in s.jobs || r.pc.InsertRow? || r.pc.PublishJob? ==> r.job.sourceKey in s.objects)
    && (id in s.enqueued || r.pc.PublishJob? ==> id in s.jobs)
    && (r.pc.StoreUpload? || r.pc.InsertRow? ==> id !in s.jobs)
    && (!r.pc.Answered? ==> id !in s.enqueued)
    && (r.pc == Answered(202) ==> id in s.enqueued)
  }

  ghost predicate RequestsOk(s: State) {
    && (forall id :: id in s.requests && s.requests[id].Submission? ==> SubmissionOk(s, id, s.requests[id]))
    && (forall id :: id in s.enqueued ==> id in s.requests)
    && (forall id :: id in s.requests && s.requests[id].Foreign? ==> id in s.enqueued)
  }

  ghost predicate JobsOk(s: State) {
    forall id :: id in s.jobs ==>
      && id in s.requests && s.requests[id].Submission?
      && var j := s.requests[id].job;
         s.jobs[id] == Row(j.kind, s.jobs[id].status, j.sourceKey, j.operations)
  }

  ghost predicate ObjectOk(cfg: Config, s: State, k: ObjectKey)
    requires k in s.objects
  {
    && k.job in s.requests && s.requests[k.job].Submission?
    && var r := s.requests[k.job];
       match k
       case UploadKey(_, _) => k == r.job.sourceKey && s.objects[k] == r.upload
       case ArtifactKey(_, _) =>
         && Expected(cfg, s, k.job).Some?
         && k in FullObjects(r.job, Expected(cfg, s, k.job).value)
         && s.objects[k] == FullObjects(r.job, Expected(cfg, s, k.job).value)[k]
  }

  ghost predicate ObjectsOk(cfg: Config, s: State) {
    forall k :: k in s.objects ==> ObjectOk(cfg, s, k)
  }

  ghost predicate ArtifactOk(cfg: Config, s: State, k: (JobId, string))
    requires k in s.artifacts
  {
    && k.0 in s.jobs && k.0 in s.requests && s.requests[k.0].Submission?
    && Expected(cfg, s, k.0).Some?
    && var full := FullRows(s.requests[k.0].job, Expected(cfg, s, k.0).value);
       k.1 in full && s.artifacts[k] == full[k.1] && s.artifacts[k].key in s.objects
  }

  ghost predicate ArtifactsOk(cfg: Config, s: State) {
    forall k :: k in s.artifacts ==> ArtifactOk(cfg, s, k)
  }

  /** A message is the one its request published: body, key and kind unchanged. */
  ghost predicate MessageOk(s: State, m: Message) {
    && m.id in s.enqueued && m.id in s.requests
    && m.key == RoutingKey(KindOf(s.requests[m.id]))
    && m.body == (match s.requests[m.id]
                  case Submission(job, _, _) => Wire(job)
                  case Foreign(_, raw) => Garbage(raw))
  }

  ghost predicate CopyOk(s: State, c: Copy) {
    && MessageOk(s, c.msg)
    && (BoundTo(c.queue) == JobsExchange ==> c.queue == WorkQueue(KindOf(s.requests[c.msg.id])))
  }

  ghost predicate CopiesOk(s: State) { forall c :: c in s.copies ==> CopyOk(s, c) }

  /** The first n outputs are on record. Values need no mention: every row on record
      is the full run's. */
  ghost predicate Recorded(s: State, id: JobId, outs: seq<Output>, n: nat) {
    n <= |outs| && forall i :: 0 <= i < n ==> (id, outs[i].name) in s.artifacts
  }

  predicate HasSource(pc: Pc) { pc.TellFetched? || pc.Transform? }

  predicate HasOutputs(pc: Pc) {
    pc.Put? || pc.Record? || pc.TellArtifact? || pc.SetCompleted? || pc.TellCompleted?
  }

  /** How many outputs a handler at this point has put on record. */
  function RecordedBy(h: Handler): nat {
    match h.pc
    case Put(i) => i
    case Record(i) => i
    case TellArtifact(i) => i + 1
    case SetCompleted => |h.outputs|
    case TellCompleted => |h.outputs|
    case _ => 0
  }

  ghost predicate HandlerOk(cfg: Config, s: State, h: Handler) {
    && MessageOk(s, h.msg)
    && h.worker == KindOf(s.requests[h.msg.id])
    && (h.msg.body.Garbage? ==> h.pc.Begin? || h.pc.Parking? || h.pc.AckParked? || h.pc.Raised?)
    && (HasSource(h.pc) ==> h.source == s.requests[h.msg.id].upload)
    && (HasOutputs(h.pc) ==>
        && Expected(cfg, s, h.msg.id) == Some(h.outputs)
        && Recorded(s, h.msg.id, h.outputs, RecordedBy(h))
        && (h.pc.Put? || h.pc.Record? || h.pc.TellArtifact? ==> h.pc.i < |h.outputs|)
        && (h.pc.Record? ==> RowFor(JobOf(h), h.outputs[h.pc.i]).key in s.objects))
  }

  ghost predicate WorkersOk(cfg: Config, s: State) {
    forall k :: k in s.workers ==> HandlerOk(cfg, s, s.workers[k])
  }

  ghost predicate AllRecorded(cfg: Config, s: State, id: JobId) {
    Expected(cfg, s, id).Some? && Recorded(s, id, Expected(cfg, s, id).value, |Expected(cfg, s, id).value|)
  }

  ghost predicate CompletionOk(cfg: Config, s: State) {
    && (forall id :: id in s.everCompleted ==> AllRecorded(cfg, s, id))
    && (forall id :: id in s.jobs && s.jobs[id].status.Completed? ==> id in s.everCompleted)
  }

  ghost predicate Inv(cfg: Config, s: State) {
    && RequestsOk(s) && JobsOk(s) && ObjectsOk(cfg, s) && ArtifactsOk(cfg, s)
    && CopiesOk(s) && WorkersOk(cfg, s) && CompletionOk(cfg, s)
  }

  // ---- growth: what no action takes back ----

  /** Requests keep their job and upload; messages, rows, artifacts and objects are
      never removed. */
  ghost predicate Grows(s: State, t: State) {
    && s.enqueued <= t.enqueued && s.jobs.Keys <= t.jobs.Keys
    && s.artifacts.Keys <= t.artifacts.Keys && s.objects.Keys <= t.objects.Keys
    && s.everCompleted <= t.everCompleted
    && forall id :: id in s.requests ==> id in t.requests && SameRequest(s.requests[id], t.requests[id])
  }

  predicate SameRequest(a: Request, b: Request) {
    match (a, b)
    case (Submission(j, u, _), Submission(j', u', _)) => j == j' && u == u'
    case _ => a == b
  }

  lemma HandlersStable(cfg: Config, s: State, t: State)
    requires Grows(s, t)
    ensures forall h :: HandlerOk(cfg, s, h) ==> HandlerOk(cfg, t, h)
    ensures forall c :: CopyOk(s, c) ==> CopyOk(t, c)
    ensures forall id :: AllRecorded(cfg, s, id) ==> AllRecorded(cfg, t, id)
  {
    forall h | HandlerOk(cfg, s, h) ensures HandlerOk(cfg, t, h) {
      assert Expected(cfg, s, h.msg.id) == Expected(cfg, t, h.msg.id);
    }
    forall id | AllRecorded(cfg, s, id) ensures AllRecorded(cfg, t, id) {
      assert Expected(cfg, s, id) == Expected(cfg, t, id);
    }
  }

  // ---- every action keeps the invariant ----

  /** A message of a known request reaches its kind's work queue and only that. */
  lemma PublishedToWork(m: Message, kind: Kind)
    requires m.key == RoutingKey(kind)
    ensures Published(JobsExchange, m) == multiset{Copy(WorkQueue(kind), m)}
  {
    JobsRouting(m.key, kind);
    assert (set q | q in Route(JobsExchange, m.key) :: Copy(q, m)) == {Copy(WorkQueue(kind), m)};
  }

  lemma PublishedToHop(x: Exchange, m: Message)
    requires x == RetryExchange || x == ParkingExchange
    ensures Published(x, m) == multiset{Copy(if x == RetryExchange then RetryQueue else ParkingQueue, m)}
  {
    HopRouting(x, m.key);
    var q' := if x == RetryExchange then RetryQueue else ParkingQueue;
    assert (set q | q in Route(x, m.key) :: Copy(q, m)) == {Copy(q', m)};
  }

  lemma ExpectedStable(cfg: Config, s: State, t: State)
    requires Grows(s, t)
    ensures forall id :: id in s.requests ==> Expected(cfg, s, id) == Expected(cfg, t, id)
  {
  }

  /** Untouched stores stay in order while the rest of the state grows. */
  lemma StoresKeep(cfg: Config, s: State, t: State)
    requires Inv(cfg, s) && Grows(s, t)
    ensures t.jobs == s.jobs ==> JobsOk(t)
    ensures t.objects == s.objects ==> ObjectsOk(cfg, t)
    ensures t.artifacts == s.artifacts ==> ArtifactsOk(cfg, t)
    ensures t.jobs == s.jobs && t.everCompleted == s.everCompleted ==> CompletionOk(cfg, t)
  {
    ExpectedStable(cfg, s, t);
    HandlersStable(cfg, s, t);
    if t.objects == s.objects {
      forall k | k in t.objects ensures ObjectOk(cfg, t, k) {
        assert ObjectOk(cfg, s, k);
      }
    }
    if t.artifacts == s.artifacts {
      forall k | k in t.artifacts ensures ArtifactOk(cfg, t, k) {
        assert ArtifactOk(cfg, s, k);
      }
    }
  }

  /** The gateway's side stays in order while only workers and the broker move. */
  lemma RequestsKeep(s: State, t: State)
    requires RequestsOk(s) && Grows(s, t)
    requires t.requests == s.requests && t.enqueued == s.enqueued && t.jobs.Keys == s.jobs.Keys
    ensures RequestsOk(t)
  {
    forall id | id in t.requests && t.requests[id].Submission?
      ensures SubmissionOk(t, id, t.requests[id])
    {
      assert SubmissionOk(s, id, s.requests[id]);
    }
  }

  lemma HandlerStable(cfg: Config, s: State, t: State, h: Handler)
    requires Grows(s, t) && HandlerOk(cfg, s, h)
    ensures HandlerOk(cfg, t, h)
  {
    assert Expected(cfg, s, h.msg.id) == Expected(cfg, t, h.msg.id);
  }

  /** Messages and handlers stay in order; only new ones need a look. */
  lemma CopiesKeep(cfg: Config, s: State, t: State, gone: multiset<Copy>, added: multiset<Copy>)
    requires Inv(cfg, s) && Grows(s, t)
    requires t.copies == s.copies - gone + added
    requires forall c :: c in added ==> CopyOk(t, c)
    ensures CopiesOk(t)
  {
    HandlersStable(cfg, s, t);
    forall c | c in t.copies ensures CopyOk(t, c) {
      if c !in added {
        assert c in s.copies;
      }
    }
  }

  lemma WorkersKeep(cfg: Config, s: State, t: State, slot: nat)
    requires Inv(cfg, s) && Grows(s, t)
    requires forall k :: k in t.workers && k != slot ==> k in s.workers && t.workers[k] == s.workers[k]
    requires slot in t.workers ==> HandlerOk(cfg, t, t.workers[slot])
    ensures WorkersOk(cfg, t)
  {
    HandlersStable(cfg, s, t);
    forall k | k in t.workers ensures HandlerOk(cfg, t, t.workers[k]) {
      if k != slot {
        assert HandlerOk(cfg, s, s.workers[k]);
      }
    }
  }

  lemma UnchangedWorkersKeep(cfg: Config, s: State, t: State)
    requires Inv(cfg, s) && Grows(s, t) && t.workers == s.workers
    ensures WorkersOk(cfg, t)
  {
    HandlersStable(cfg, s, t);
    forall k | k in t.workers ensures HandlerOk(cfg, t, t.workers[k]) {
      assert HandlerOk(cfg, s, s.workers[k]);
    }
  }

  lemma SubmitKeeps(cfg: Config, s: State, a: Action)
    requires Inv(cfg, s) && a.Submit? && Enabled(s, a)
    ensures Inv(cfg, Apply(cfg, s, a)) && Grows(s, Apply(cfg, s, a))
  {
    var t := Apply(cfg, s, a);
    var r := t.requests[a.id];
    assert t == s.(requests := s.requests[a.id := r]);
    assert r.Submission? && r.pc.StoreUpload? && r.job.id == a.id && r.job.sourceKey.job == a.id;
    NewRequestKeeps(cfg, s, a.id, r, t);
  }

  lemma NewRequestKeeps(cfg: Config, s: State, id: JobId, r: Request, t: State)
    requires Inv(cfg, s) && id !in s.requests && t == s.(requests := s.requests[id := r])
    requires r.Submission? && r.pc.StoreUpload? && r.job.id == id && Keys.SlashFree(id)
    requires r.job.sourceKey.UploadKey? && r.job.sourceKey.job == id
    ensures Inv(cfg, t) && Grows(s, t)
  {
    StoresKeep(cfg, s, t);
    NewSubmission(s, id, r, t);
    CopiesKeep(cfg, s, t, multiset{}, multiset{});
    UnchangedWorkersKeep(cfg, s, t);
  }

  lemma NewSubmission(s: State, id: JobId, r: Request, t: State)
    requires RequestsOk(s) && JobsOk(s) && id !in s.requests && t == s.(requests := s.requests[id := r])
    requires r.Submission? && r.pc.StoreUpload? && r.job.id == id && Keys.SlashFree(id)
    requires r.job.sourceKey.UploadKey? && r.job.sourceKey.job == id
    ensures RequestsOk(t)
  {
    assert id !in s.jobs && id !in s.enqueued;
    forall i | i in t.requests && t.requests[i].Submission? ensures SubmissionOk(t, i, t.requests[i]) {
      if i != id {
        assert SubmissionOk(s, i, s.requests[i]);
      }
    }
  }

  lemma InjectKeeps(cfg: Config, s: State, id: JobId, kind: Kind, raw: Bytes)
    requires Inv(cfg, s) && Enabled(s, Inject(id, kind, raw))
    ensures Inv(cfg, Apply(cfg, s, Inject(id, kind, raw))) && Grows(s, Apply(cfg, s, Inject(id, kind, raw)))
  {
    var m := Message(id, Garbage(raw), RoutingKey(kind), []);
    PublishedToWork(m, kind);
    ForeignKeeps(cfg, s, m, kind, raw, Apply(cfg, s, Inject(id, kind, raw)));
  }

  lemma ForeignKeeps(cfg: Config, s: State, m: Message, kind: Kind, raw: Bytes, t: State)
    requires Inv(cfg, s) && m.id !in s.requests && m == Message(m.id, Garbage(raw), RoutingKey(kind), [])
    requires t == s.(requests := s.requests[m.id := Foreign(kind, raw)], enqueued := s.enqueued + {m.id},
                     copies := s.copies + multiset{Copy(WorkQueue(kind), m)}, ledger := t.ledger)
    ensures Inv(cfg, t) && Grows(s, t)
  {
    StoresKeep(cfg, s, t);
    ForeignRequest(s, m.id, t);
    CopiesKeep(cfg, s, t, multiset{}, multiset{Copy(WorkQueue(kind), m)});
    UnchangedWorkersKeep(cfg, s, t);
  }

  lemma ForeignRequest(s: State, id: JobId, t: State)
    requires RequestsOk(s) && JobsOk(s) && id !in s.requests && t.jobs == s.jobs && t.objects == s.objects
    requires id in t.requests && t.requests[id].Foreign? && t.requests == s.requests[id := t.requests[id]]
    requires t.enqueued == s.enqueued + {id}
    ensures RequestsOk(t)
  {
    forall i | i in t.requests && t.requests[i].Submission? ensures SubmissionOk(t, i, t.requests[i]) {
      assert SubmissionOk(s, i, s.requests[i]);
    }
  }

  lemma NewHandlerOk(cfg: Config, t: State, c: Copy, h: Handler)
    requires CopyOk(t, c) && BoundTo(c.queue) == JobsExchange
    requires h.msg == c.msg && h.worker == WorkerOf(c.queue) && h.pc.Begin?
    ensures HandlerOk(cfg, t, h)
  {
  }

  lemma DeliverKeeps(cfg: Config, s: State, c: Copy, slot: nat)
    requires Inv(cfg, s) && Enabled(s, Deliver(c, slot))
    ensures Inv(cfg, Apply(cfg, s, Deliver(c, slot))) && Grows(s, Apply(cfg, s, Deliver(c, slot)))
  {
    var t := Apply(cfg, s, Deliver(c, slot));
    assert Grows(s, t);
    RequestsKeep(s, t);
    StoresKeep(cfg, s, t);
    CopiesKeep(cfg, s, t, multiset{c}, multiset{});
    assert CopyOk(s, c);
    NewHandlerOk(cfg, t, c, t.workers[slot]);
    WorkersKeep(cfg, s, t, slot);
  }

  lemma ExpireKeeps(cfg: Config, s: State, c: Copy)
    requires Inv(cfg, s) && Enabled(s, Expire(c))
    ensures Inv(cfg, Apply(cfg, s, Expire(c))) && Grows(s, Apply(cfg, s, Expire(c)))
  {
    var t := Apply(cfg, s, Expire(c));
    assert Grows(s, t);
    RequestsKeep(s, t);
    StoresKeep(cfg, s, t);
    assert CopyOk(s, c);
    var m := Died(c.msg, RetryQueue, Expired);
    PublishedToWork(m, KindOf(s.requests[m.id]));
    CopiesKeep(cfg, s, t, multiset{c}, Published(JobsExchange, m));
    UnchangedWorkersKeep(cfg, s, t);
  }

  lemma UnlinkedOk(cfg: Config, t: State, h: Handler)
    requires HandlerOk(cfg, t, h)
    ensures HandlerOk(cfg, t, h.(linked := false))
  {
    assert HasOutputs(h.pc) ==> Recorded(t, h.msg.id, h.outputs, RecordedBy(h));
  }

  /** Only the set of running handlers changes. */
  lemma WorkersOnly(cfg: Config, s: State, slot: nat, t: State)
    requires Inv(cfg, s) && t == s.(workers := t.workers)
    requires forall k :: k in t.workers && k != slot ==> k in s.workers && t.workers[k] == s.workers[k]
    requires slot in t.workers ==> HandlerOk(cfg, t, t.workers[slot])
    ensures Inv(cfg, t) && Grows(s, t)
  {
    RequestsKeep(s, t);
    StoresKeep(cfg, s, t);
    CopiesKeep(cfg, s, t, multiset{}, multiset{});
    WorkersKeep(cfg, s, t, slot);
  }

  lemma RequeueKeeps(cfg: Config, s: State, h: Handler)
    requires Inv(cfg, s) && HandlerOk(cfg, s, h)
    ensures Inv(cfg, Requeue(s, h)) && Grows(s, Requeue(s, h))
  {
    var t := Requeue(s, h);
    RequestsKeep(s, t);
    StoresKeep(cfg, s, t);
    var back := if h.linked then multiset{Copy(WorkQueue(h.worker), h.msg)} else multiset{};
    assert t.copies == s.copies - multiset{} + back;
    CopiesKeep(cfg, s, t, multiset{}, back);
    UnchangedWorkersKeep(cfg, s, t);
  }

  lemma CrashKeeps(cfg: Config, s: State, slot: nat)
    requires Inv(cfg, s) && slot in s.workers
    ensures Inv(cfg, Apply(cfg, s, Crash(slot))) && Grows(s, Apply(cfg, s, Crash(slot)))
  {
    var h := s.workers[slot];
    RequeueKeeps(cfg, s, h);
    WorkersOnly(cfg, Requeue(s, h), slot, Apply(cfg, s, Crash(slot)));
  }

  lemma DisconnectKeeps(cfg: Config, s: State, slot: nat)
    requires Inv(cfg, s) && Enabled(s, Disconnect(slot))
    ensures Inv(cfg, Apply(cfg, s, Disconnect(slot))) && Grows(s, Apply(cfg, s, Disconnect(slot)))
  {
    var h := s.workers[slot];
    RequeueKeeps(cfg, s, h);
    var t := Apply(cfg, s, Disconnect(slot));
    HandlerStable(cfg, s, t, h);
    UnlinkedOk(cfg, t, h);
    WorkersOnly(cfg, Requeue(s, h), slot, t);
  }

  lemma SettleKeeps(cfg: Config, s: State, slot: nat)
    requires Inv(cfg, s) && slot in s.workers && Settling(s.workers[slot].pc)
    ensures Inv(cfg, Settle(s, slot)) && Grows(s, Settle(s, slot))
  {
    var h := s.workers[slot];
    var m := Died(h.msg, WorkQueue(h.worker), Rejected);
    PublishedToHop(RetryExchange, m);
    var added := if h.linked && h.pc.Reject? then multiset{Copy(RetryQueue, m)} else multiset{};
    SettledKeeps(cfg, s, slot, added, Settle(s, slot));
  }

  lemma SettledKeeps(cfg: Config, s: State, slot: nat, added: multiset<Copy>, t: State)
    requires Inv(cfg, s) && slot in s.workers
    requires forall c :: c in added ==> c.queue == RetryQueue && c.msg == s.workers[slot].msg.(deaths := c.msg.deaths)
    requires t == s.(workers := s.workers - {slot}, copies := s.copies + added,
                     settled := t.settled, ledger := t.ledger)
    ensures Inv(cfg, t) && Grows(s, t)
  {
    assert HandlerOk(cfg, s, s.workers[slot]);
    RequestsKeep(s, t);
    StoresKeep(cfg, s, t);
    CopiesKeep(cfg, s, t, multiset{}, added);
    WorkersKeep(cfg, s, t, slot);
  }

  /** Only request id moves on; the other submissions stay in order. */
  lemma OneRequestMoves(s: State, t: State, id: JobId)
    requires RequestsOk(s) && Grows(s, t) && id in s.requests && s.requests[id].Submission?
    requires t.requests == s.requests[id := t.requests[id]]
    requires t.enqueued <= s.enqueued + {id} && t.jobs.Keys <= s.jobs.Keys + {id}
    requires t.requests[id].Submission? && SubmissionOk(t, id, t.requests[id])
    ensures RequestsOk(t)
  {
    forall i | i in t.requests && t.requests[i].Submission? ensures SubmissionOk(t, i, t.requests[i]) {
      if i != id {
        assert SubmissionOk(s, i, s.requests[i]);
      }
    }
  }

  lemma StoreUploadKeeps(cfg: Config, s: State, id: JobId, r: Request, ok: bool, applied: bool, t: State)
    requires Inv(cfg, s) && id in s.requests && r == s.requests[id]
    requires r.Submission? && r.pc.StoreUpload? && (ok ==> applied)
    requires t == s.(requests := s.requests[id := r.(pc := if ok then InsertRow else Answered(502))],
                     objects := if applied then s.objects[r.job.sourceKey := r.upload] else s.objects)
    ensures Inv(cfg, t) && Grows(s, t)
  {
    StoresKeep(cfg, s, t);
    StoredUpload(cfg, s, id, r, t);
    CopiesKeep(cfg, s, t, multiset{}, multiset{});
    UnchangedWorkersKeep(cfg, s, t);
  }

  lemma StoredUpload(cfg: Config, s: State, id: JobId, r: Request, t: State)
    requires RequestsOk(s) && ObjectsOk(cfg, s) && Grows(s, t)
    requires id in s.requests && r == s.requests[id] && r.Submission? && r.pc.StoreUpload?
    requires id in t.requests && t.requests == s.requests[id := t.requests[id]] && t.requests[id].Submission?
    requires t.requests[id] == r.(pc := t.requests[id].pc)
    requires t.requests[id].pc == Answered(502) || (t.requests[id].pc.InsertRow? && r.job.sourceKey in t.objects)
    requires t.objects == s.objects || t.objects == s.objects[r.job.sourceKey := r.upload]
    requires t.jobs == s.jobs && t.enqueued == s.enqueued
    ensures RequestsOk(t) && ObjectsOk(cfg, t)
  {
    assert SubmissionOk(s, id, r);
    ExpectedStable(cfg, s, t);
    forall k | k in t.objects ensures ObjectOk(cfg, t, k) {
      if k in s.objects {
        assert ObjectOk(cfg, s, k);
      }
    }
    OneRequestMoves(s, t, id);
  }

  lemma InsertRowKeeps(cfg: Config, s: State, id: JobId, r: Request, ok: bool, applied: bool, t: State)
    requires Inv(cfg, s) && id in s.requests && r == s.requests[id]
    requires r.Submission? && r.pc.InsertRow? && (ok ==> applied)
    requires t == s.(requests := s.requests[id := r.(pc := if ok then PublishJob else Answered(500))],
                     jobs := if applied
                             then s.jobs[id := Row(r.job.kind, Pending, r.job.sourceKey, r.job.operations)]
                             else s.jobs)
    ensures Inv(cfg, t) && Grows(s, t)
  {
    assert SubmissionOk(s, id, r);
    StoresKeep(cfg, s, t);
    CopiesKeep(cfg, s, t, multiset{}, multiset{});
    UnchangedWorkersKeep(cfg, s, t);
    InsertedRow(cfg, s, id, r, t);
  }

  lemma InsertedRow(cfg: Config, s: State, id: JobId, r: Request, t: State)
    requires RequestsOk(s) && JobsOk(s) && CompletionOk(cfg, s) && Grows(s, t)
    requires id in s.requests && r == s.requests[id] && r.Submission? && r.pc.InsertRow?
    requires id in t.requests && t.requests == s.requests[id := t.requests[id]] && t.requests[id].Submission?
    requires t.requests[id] == r.(pc := t.requests[id].pc)
    requires t.requests[id].pc == Answered(500) || (t.requests[id].pc.PublishJob? && id in t.jobs)
    requires t.jobs == s.jobs || t.jobs == s.jobs[id := Row(r.job.kind, Pending, r.job.sourceKey, r.job.operations)]
    requires t.enqueued == s.enqueued && t.objects == s.objects && t.everCompleted == s.everCompleted
    ensures RequestsOk(t) && JobsOk(t) && CompletionOk(cfg, t)
  {
    assert SubmissionOk(s, id, r);
    OneRequestMoves(s, t, id);
    JobsStable(s, t, id);
    CompletionStable(cfg, s, t);
  }

  lemma JobsStable(s: State, t: State, id: JobId)
    requires JobsOk(s) && Grows(s, t) && t.jobs.Keys <= s.jobs.Keys + {id}
    requires forall i :: i in s.jobs && i != id ==> t.jobs[i] == s.jobs[i]
    requires id in t.requests && t.requests[id].Submission?
    requires id in t.jobs ==> var j := t.requests[id].job;
                              t.jobs[id] == Row(j.kind, t.jobs[id].status, j.sourceKey, j.operations)
    ensures JobsOk(t)
  {
  }

  lemma CompletionStable(cfg: Config, s: State, t: State)
    requires CompletionOk(cfg, s) && Grows(s, t) && t.everCompleted == s.everCompleted
    requires forall id :: id in t.jobs && t.jobs[id].status.Completed? ==> id in s.jobs && s.jobs[id].status.Completed?
    ensures CompletionOk(cfg, t)
  {
    HandlersStable(cfg, s, t);
  }

  lemma PublishJobKeeps(cfg: Config, s: State, id: JobId, r: Request, ok: bool, applied: bool, t: State)
    requires Inv(cfg, s) && id in s.requests && r == s.requests[id]
    requires r.Submission? && r.pc.PublishJob? && (ok ==> applied)
    requires t == (if applied then Enqueue(s, Message(id, Wire(r.job), RoutingKey(r.job.kind), [])) else s).(
                    requests := s.requests[id := r.(pc := Answered(if ok then 202 else 502))])
    ensures Inv(cfg, t) && Grows(s, t)
  {
    var m := Message(id, Wire(r.job), RoutingKey(r.job.kind), []);
    PublishedToWork(m, r.job.kind);
    var added := if applied then multiset{Copy(WorkQueue(r.job.kind), m)} else multiset{};
    JobMessageKeeps(cfg, s, r, m, added, t);
  }

  lemma JobMessageKeeps(cfg: Config, s: State, r: Request, m: Message, added: multiset<Copy>, t: State)
    requires Inv(cfg, s) && m.id in s.requests && r == s.requests[m.id] && r.Submission? && r.pc.PublishJob?
    requires m == Message(m.id, Wire(r.job), RoutingKey(r.job.kind), [])
    requires added == multiset{} || (added == multiset{Copy(WorkQueue(r.job.kind), m)} && m.id in t.enqueued)
    requires s.enqueued <= t.enqueued <= s.enqueued + {m.id} && m.id in t.requests
    requires t.requests[m.id].Submission? && t.requests[m.id] == r.(pc := t.requests[m.id].pc)
    requires t.requests[m.id].pc.Answered? && (t.requests[m.id].pc == Answered(202) ==> m.id in t.enqueued)
    requires t == s.(requests := s.requests[m.id := t.requests[m.id]], enqueued := t.enqueued,
                     copies := s.copies + added, ledger := t.ledger)
    ensures Inv(cfg, t) && Grows(s, t)
  {
    assert SubmissionOk(s, m.id, r);
    StoresKeep(cfg, s, t);
    CopiesKeep(cfg, s, t, multiset{}, added);
    UnchangedWorkersKeep(cfg, s, t);
    OneRequestMoves(s, t, m.id);
  }

  lemma GatewayKeeps(cfg: Config, s: State, id: JobId, reply: Reply)
    requires Inv(cfg, s) && Enabled(s, Gateway(id, reply))
    ensures Inv(cfg, Serve(s, id, reply)) && Grows(s, Serve(s, id, reply))
  {
    var r := s.requests[id];
    var t := Serve(s, id, reply);
    match r.pc
    case StoreUpload => StoreUploadKeeps(cfg, s, id, r, reply.Done?, reply.Applied(), t);
    case InsertRow => InsertRowKeeps(cfg, s, id, r, reply.Done?, reply.Applied(), t);
    case PublishJob => PublishJobKeeps(cfg, s, id, r, reply.Done?, reply.Applied(), t);
  }

  // ---- effects of a delivery attempt ----

  lemma SetStatusKeeps(cfg: Config, s: State, id: JobId, status: Status, t: State)
    requires Inv(cfg, s) && (status.Completed? ==> AllRecorded(cfg, s, id))
    requires t == SetStatus(s, id, status)
    ensures Inv(cfg, t) && Grows(s, t) && t.workers == s.workers
  {
    if id in s.jobs {
      RequestsKeep(s, t);
      StoresKeep(cfg, s, t);
      StatusJobs(cfg, s, id, status, t);
      CopiesKeep(cfg, s, t, multiset{}, multiset{});
      UnchangedWorkersKeep(cfg, s, t);
    }
  }

  lemma StatusJobs(cfg: Config, s: State, id: JobId, status: Status, t: State)
    requires JobsOk(s) && CompletionOk(cfg, s) && (status.Completed? ==> AllRecorded(cfg, s, id))
    requires id in s.jobs && t == SetStatus(s, id, status)
    ensures JobsOk(t) && CompletionOk(cfg, t)
  {
    assert Grows(s, t);
    HandlersStable(cfg, s, t);
  }

  /** Storing output o of an attempt of h: the object is the full run's. */
  lemma PutKeeps(cfg: Config, s: State, h: Handler, key: ObjectKey, t: State)
    requires Inv(cfg, s) && HandlerOk(cfg, s, h) && h.pc.Put?
    requires key == RowFor(JobOf(h), h.outputs[h.pc.i]).key
    requires t == s.(objects := s.objects[key := h.outputs[h.pc.i].data])
    ensures Inv(cfg, t) && Grows(s, t)
  {
    RequestsKeep(s, t);
    StoresKeep(cfg, s, t);
    PutObjects(cfg, s, h, key, t);
    CopiesKeep(cfg, s, t, multiset{}, multiset{});
    UnchangedWorkersKeep(cfg, s, t);
  }

  lemma PutObjects(cfg: Config, s: State, h: Handler, key: ObjectKey, t: State)
    requires RequestsOk(s) && ObjectsOk(cfg, s) && HandlerOk(cfg, s, h) && h.pc.Put?
    requires key == RowFor(JobOf(h), h.outputs[h.pc.i]).key
    requires t == s.(objects := s.objects[key := h.outputs[h.pc.i].data])
    ensures ObjectsOk(cfg, t)
  {
    var j := JobOf(h);
    MessageIsOwn(cfg, s, h);
    RunsAreConsistent(cfg.codec, j, s.requests[j.id].upload);
    FullObjectsHave(j, h.outputs);
    ExpectedStable(cfg, s, t);
    forall k | k in t.objects ensures ObjectOk(cfg, t, k) {
      if k != key {
        assert ObjectOk(cfg, s, k);
      }
    }
  }

  lemma RecordKeeps(cfg: Config, s: State, h: Handler, key: (JobId, string), t: State)
    requires Inv(cfg, s) && HandlerOk(cfg, s, h) && h.pc.Record? && JobOf(h).id in s.jobs
    requires key == (JobOf(h).id, h.outputs[h.pc.i].name)
    requires t == s.(artifacts := s.artifacts[key := RowFor(JobOf(h), h.outputs[h.pc.i])])
    ensures Inv(cfg, t) && Grows(s, t)
  {
    RequestsKeep(s, t);
    StoresKeep(cfg, s, t);
    RecordRows(cfg, s, h, key, t);
    CopiesKeep(cfg, s, t, multiset{}, multiset{});
    UnchangedWorkersKeep(cfg, s, t);
    HandlersStable(cfg, s, t);
  }

  lemma RecordRows(cfg: Config, s: State, h: Handler, key: (JobId, string), t: State)
    requires RequestsOk(s) && ArtifactsOk(cfg, s) && HandlerOk(cfg, s, h) && h.pc.Record? && JobOf(h).id in s.jobs
    requires key == (JobOf(h).id, h.outputs[h.pc.i].name)
    requires t == s.(artifacts := s.artifacts[key := RowFor(JobOf(h), h.outputs[h.pc.i])])
    ensures ArtifactsOk(cfg, t)
  {
    var j := JobOf(h);
    MessageIsOwn(cfg, s, h);
    RunsAreConsistent(cfg.codec, j, s.requests[j.id].upload);
    FullRowsHave(j, h.outputs);
    ExpectedStable(cfg, s, t);
    forall k | k in t.artifacts ensures ArtifactOk(cfg, t, k) {
      if k != key {
        assert ArtifactOk(cfg, s, k);
      }
    }
  }

  lemma ParkKeeps(cfg: Config, s: State, m: Message, t: State)
    requires Inv(cfg, s) && MessageOk(s, m)
    requires t == s.(copies := s.copies + Published(ParkingExchange, m), ledger := t.ledger)
    ensures Inv(cfg, t) && Grows(s, t)
  {
    PublishedToHop(ParkingExchange, m);
    RequestsKeep(s, t);
    StoresKeep(cfg, s, t);
    CopiesKeep(cfg, s, t, multiset{}, Published(ParkingExchange, m));
    UnchangedWorkersKeep(cfg, s, t);
  }

  /** The invariant does not look at the ledger, the event log or the counters. */
  lemma LogsOnly(cfg: Config, s: State, t: State)
    requires Inv(cfg, s)
    requires t == s.(ledger := t.ledger, events := t.events, finished := t.finished)
    ensures Inv(cfg, t) && Grows(s, t)
  {
    RequestsKeep(s, t);
    StoresKeep(cfg, s, t);
    CopiesKeep(cfg, s, t, multiset{}, multiset{});
    UnchangedWorkersKeep(cfg, s, t);
  }

  lemma PerformKeeps(cfg: Config, s: State, h: Handler, t: State)
    requires Inv(cfg, s) && HandlerOk(cfg, s, h) && t == Perform(s, h)
    ensures Inv(cfg, t) && Grows(s, t) && t.workers == s.workers && Stored(s, h, t)
  {
    if h.pc.Parking? {
      if h.linked {
        ParkKeeps(cfg, s, h.msg.(deaths := []), t);
      }
    } else if h.msg.body.Wire? && !Telling(h.pc) {
      PerformStoreKeeps(cfg, s, h, t);
      PerformStores(s, h);
    } else {
      LogsOnly(cfg, s, t);
    }
  }

  /** A put stores its object, and a record its row if the job has one. */
  ghost predicate Stored(s: State, h: Handler, t: State) {
    h.msg.body.Wire? && (h.pc.Put? || h.pc.Record?) && h.pc.i < |h.outputs| ==>
      (h.pc.Put? ==> RowFor(JobOf(h), h.outputs[h.pc.i]).key in t.objects) &&
      (h.pc.Record? && JobOf(h).id in s.jobs ==> (JobOf(h).id, h.outputs[h.pc.i].name) in t.artifacts)
  }

  lemma PerformStores(s: State, h: Handler)
    requires h.msg.body.Wire? && !h.pc.Parking? && !Telling(h.pc)
    ensures Stored(s, h, Perform(s, h))
  {
    match h.pc
    case Put(_) =>
    case Record(_) =>
    case _ =>
  }

  lemma PerformStoreKeeps(cfg: Config, s: State, h: Handler, t: State)
    requires Inv(cfg, s) && HandlerOk(cfg, s, h) && h.msg.body.Wire? && t == PerformStore(s, h)
    ensures Inv(cfg, t) && Grows(s, t) && t.workers == s.workers
  {
    if h.pc.SetProcessing? || h.pc.SetCompleted? || h.pc.SetFailed? {
      WriteKeeps(cfg, s, h, t);
    } else {
      StoreKeeps(cfg, s, h, t);
    }
  }

  lemma StoreKeeps(cfg: Config, s: State, h: Handler, t: State)
    requires Inv(cfg, s) && HandlerOk(cfg, s, h) && h.msg.body.Wire? && t == PerformStore(s, h)
    requires !h.pc.SetProcessing? && !h.pc.SetCompleted? && !h.pc.SetFailed?
    ensures Inv(cfg, t) && Grows(s, t) && t.workers == s.workers
  {
    if h.pc.Put? {
      PutKeeps(cfg, s, h, RowFor(JobOf(h), h.outputs[h.pc.i]).key, t);
    } else if h.pc.Record? {
      HasRow(cfg, s, h);
      RecordKeeps(cfg, s, h, (JobOf(h).id, h.outputs[h.pc.i].name), t);
    } else {
      assert t == s;
      GrowsItself(s);
    }
  }

  lemma HasRow(cfg: Config, s: State, h: Handler)
    requires RequestsOk(s) && HandlerOk(cfg, s, h) && h.msg.body.Wire?
    ensures JobOf(h).id in s.jobs
  {
    assert SubmissionOk(s, h.msg.id, s.requests[h.msg.id]);
  }

  lemma WriteKeeps(cfg: Config, s: State, h: Handler, t: State)
    requires Inv(cfg, s) && HandlerOk(cfg, s, h) && h.msg.body.Wire? && t == PerformStore(s, h)
    requires h.pc.SetProcessing? || h.pc.SetCompleted? || h.pc.SetFailed?
    ensures Inv(cfg, t) && Grows(s, t) && t.workers == s.workers
  {
    MessageIsOwn(cfg, s, h);
    var status := if h.pc.SetProcessing? then Processing else if h.pc.SetCompleted? then Completed else Failed;
    SetStatusKeeps(cfg, s, h.msg.id, status, t);
  }

  lemma GrowsItself(s: State)
    ensures Grows(s, s)
  {
  }

  lemma MessageIsOwn(cfg: Config, s: State, h: Handler)
    requires RequestsOk(s) && HandlerOk(cfg, s, h) && h.msg.body.Wire?
    ensures JobOf(h).id == h.msg.id
  {
    assert SubmissionOk(s, h.msg.id, s.requests[h.msg.id]);
  }

  /** How a step moves a handler that has a job: it reaches a point where nothing
      about sources or outputs is known, or it moves on along the success path. */
  ghost predicate Moves(cfg: Config, h: Handler, ok: bool, data: Bytes, h': Handler)
    requires h.msg.body.Wire?
  {
    || (!HasSource(h'.pc) && !HasOutputs(h'.pc))
    || (h.pc.Fetch? && ok && h'.pc.TellFetched? && h'.source == data)
    || (h.pc.TellFetched? && h'.pc.Transform? && h'.source == h.source)
    || (h.pc.Transform? && Run(cfg.codec, JobOf(h), h.source) == Some(h'.outputs) &&
        h'.pc == (if 0 < |h'.outputs| then Put(0) else SetCompleted))
    || (h'.outputs == h.outputs &&
        match h.pc
        case Put(i) => ok && h'.pc == Record(i)
        case Record(i) => ok && h'.pc == TellArtifact(i)
        case TellArtifact(i) => h'.pc == (if i + 1 < |h.outputs| then Put(i + 1) else SetCompleted)
        case SetCompleted => h'.pc == TellCompleted
        case _ => false)
  }

  lemma GoMoves(cfg: Config, h: Handler, ok: bool, status: Option<Status>, data: Bytes, h': Handler)
    requires h.msg.body.Wire? && !Settling(h.pc) && !h.pc.Begin? && !h.pc.Raised?
    requires h' == GoNext(cfg, h, ok, status, data)
    ensures h' == h.(pc := h'.pc, cause := h'.cause, source := h'.source, outputs := h'.outputs)
    ensures Moves(cfg, h, ok, data, h')
  {
  }

  lemma PyMoves(cfg: Config, h: Handler, ok: bool, status: Option<Status>, data: Bytes, h': Handler)
    requires h.msg.body.Wire? && !Settling(h.pc) && !h.pc.Begin? && !h.pc.Raised?
    requires h' == PyNext(cfg, h, ok, status, data)
    ensures h' == h.(pc := h'.pc, cause := h'.cause, source := h'.source, outputs := h'.outputs)
    ensures Moves(cfg, h, ok, data, h')
  {
  }

  lemma NextMoves(cfg: Config, h: Handler, ok: bool, status: Option<Status>, data: Bytes, h': Handler)
    requires !Settling(h.pc) && !h.pc.Raised? && h' == Next(cfg, h, ok, status, data)
    ensures h' == h.(pc := h'.pc, cause := h'.cause, source := h'.source, outputs := h'.outputs, trace := h'.trace)
    ensures h.msg.body.Wire? ==> Moves(cfg, h, ok, data, h')
    ensures h.msg.body.Garbage? && (h.pc.Begin? || h.pc.Parking?) ==>
      h'.pc.Parking? || h'.pc.AckParked? || h'.pc.Raised?
  {
    if h.msg.body.Wire? && !h.pc.Begin? {
      if h.worker.Image? {
        GoMoves(cfg, h, ok, status, data, GoNext(cfg, h, ok, status, data));
      } else {
        PyMoves(cfg, h, ok, status, data, PyNext(cfg, h, ok, status, data));
      }
    }
  }

  /** The handler is in order at its next program point too. */
  lemma AdvanceOk(cfg: Config, t: State, h: Handler, ok: bool, data: Bytes, h': Handler)
    requires HandlerOk(cfg, t, h)
    requires h'.msg == h.msg && h'.worker == h.worker
    requires h.msg.body.Wire? ==> Moves(cfg, h, ok, data, h')
    requires h.msg.body.Garbage? ==> h'.pc.Parking? || h'.pc.AckParked? || h'.pc.Raised?
    requires h.pc.Fetch? && ok && h.msg.body.Wire? ==> data == t.requests[h.msg.id].upload
    requires h.pc.Put? && ok ==> RowFor(JobOf(h), h.outputs[h.pc.i]).key in t.objects
    requires h.pc.Record? && ok ==> (h.msg.id, h.outputs[h.pc.i].name) in t.artifacts
    ensures HandlerOk(cfg, t, h')
  {
    if h.msg.body.Wire? {
      if h.pc.Transform? {
        assert Expected(cfg, t, h.msg.id) == Run(cfg.codec, JobOf(h), h.source);
      } else if HasOutputs(h'.pc) {
        assert h'.outputs == h.outputs && HasOutputs(h.pc);
        assert Recorded(t, h.msg.id, h.outputs, RecordedBy(h));
        if h.pc.Record? {
          assert Recorded(t, h.msg.id, h.outputs, h.pc.i + 1);
        }
      }
    }
  }

  /** What a handler fetches is what the client uploaded. */
  lemma FetchedIsUploaded(cfg: Config, s: State, h: Handler)
    requires Inv(cfg, s) && HandlerOk(cfg, s, h) && h.msg.body.Wire? && JobOf(h).sourceKey in s.objects
    ensures DataRead(s, h) == s.requests[h.msg.id].upload
  {
    assert SubmissionOk(s, h.msg.id, s.requests[h.msg.id]);
    assert ObjectOk(cfg, s, JobOf(h).sourceKey);
  }

  lemma EffectedKeeps(cfg: Config, s: State, h: Handler, reply: Reply, t: State)
    requires Inv(cfg, s) && HandlerOk(cfg, s, h) && t == Effected(s, h, reply)
    ensures Inv(cfg, t) && Grows(s, t) && t.workers == s.workers && (reply.Applied() ==> Stored(s, h, t))
  {
    if h.pc.Parking? && h.linked {
      var s1 := s.(ledger := s.ledger[h.msg.id := Tally(s, h.msg.id).(parkTries := Tally(s, h.msg.id).parkTries + 1)]);
      LogsOnly(cfg, s, s1);
      HandlerStable(cfg, s, s1, h);
      if reply.Applied() {
        PerformKeeps(cfg, s1, h, t);
        GrowthComposes(s, s1, t);
      }
    } else {
      assert s == s.(ledger := s.ledger);
      if reply.Applied() {
        PerformKeeps(cfg, s, h, t);
      } else {
        GrowsItself(s);
      }
    }
  }

  lemma EffectKeeps(cfg: Config, s: State, slot: nat, reply: Reply)
    requires Inv(cfg, s) && Enabled(s, Work(slot, reply)) && !Settling(s.workers[slot].pc)
    ensures Inv(cfg, Effect(cfg, s, slot, reply)) && Grows(s, Effect(cfg, s, slot, reply))
  {
    var h := s.workers[slot];
    assert HandlerOk(cfg, s, h);
    var h' := Advance(cfg, s, h, reply);
    var t := Effected(s, h, reply);
    var ok := SeenOk(s, h, reply);
    EffectedKeeps(cfg, s, h, reply, t);
    HandlerStable(cfg, s, t, h);
    if h.pc.Fetch? && ok && h.msg.body.Wire? {
      FetchedIsUploaded(cfg, s, h);
    }
    NextMoves(cfg, h, ok, StatusRead(s, h), DataRead(s, h), h');
    if h.msg.body.Wire? {
      MessageIsOwn(cfg, s, h);
    }
    AdvanceOk(cfg, t, h, ok, DataRead(s, h), h');
    EffectEnds(cfg, s, slot, t, h', Effect(cfg, s, slot, reply));
  }

  lemma EffectEnds(cfg: Config, s: State, slot: nat, t: State, h': Handler, u: State)
    requires Inv(cfg, s) && Inv(cfg, t) && Grows(s, t) && t.workers == s.workers
    requires HandlerOk(cfg, t, h')
    requires u == t.(workers := t.workers[slot := h'], finished := u.finished)
    ensures Inv(cfg, u) && Grows(s, u)
  {
    var v := t.(finished := u.finished);
    LogsOnly(cfg, t, v);
    HandlerStable(cfg, t, u, h');
    WorkersOnly(cfg, v, slot, u);
  }

  // ---- main results ----

  /** Every action keeps the invariant and takes nothing back. */
  lemma StepKeeps(cfg: Config, s: State, a: Action)
    requires Inv(cfg, s)
    ensures Inv(cfg, Step(cfg, s, a)) && Grows(s, Step(cfg, s, a))
  {
    if Enabled(s, a) {
      match a
      case Submit(_, _, _, _, _, _) => SubmitKeeps(cfg, s, a);
      case Gateway(id, reply) => GatewayKeeps(cfg, s, id, reply);
      case Inject(id, kind, raw) => InjectKeeps(cfg, s, id, kind, raw);
      case Deliver(c, slot) => DeliverKeeps(cfg, s, c, slot);
      case Work(slot, reply) =>
        if Settling(s.workers[slot].pc) {
          SettleKeeps(cfg, s, slot);
        } else {
          EffectKeeps(cfg, s, slot, reply);
        }
      case Crash(slot) => CrashKeeps(cfg, s, slot);
      case Disconnect(slot) => DisconnectKeeps(cfg, s, slot);
      case Expire(c) => ExpireKeeps(cfg, s, c);
    }
  }

  lemma {:induction false} Reachable(cfg: Config, run: seq<Action>)
    ensures Inv(cfg, Exec(cfg, run))
  {
    if run != [] {
      Reachable(cfg, run[..|run| - 1]);
      StepKeeps(cfg, Exec(cfg, run[..|run| - 1]), run[|run| - 1]);
    }
  }

  lemma GrowthComposes(s: State, t: State, u: State)
    requires Grows(s, t) && Grows(t, u)
    ensures Grows(s, u)
  {
  }

  lemma {:induction false} RunsGrow(cfg: Config, run: seq<Action>, more: seq<Action>)
    ensures Grows(Exec(cfg, run), Exec(cfg, run + more))
  {
    if more == [] {
      assert run + more == run;
    } else {
      var n := |more| - 1;
      RunsGrow(cfg, run, more[..n]);
      assert (run + more)[..|run + more| - 1] == run + more[..n];
      var s, t := Exec(cfg, run), Exec(cfg, run + more[..n]);
      var u := Exec(cfg, run + more);
      assert u == Step(cfg, t, more[n]);
      Reachable(cfg, run + more[..n]);
      StepKeeps(cfg, t, more[n]);
      GrowthComposes(s, t, u);
    }
  }

  /** The artifact rows of one job, by name. */
  function RowsOf(s: State, id: JobId): map<string, Artifact> {
    map k | k in s.artifacts && k.0 == id :: k.1 := s.artifacts[k]
  }

  lemma RowsAreFull(cfg: Config, s: State, id: JobId)
    requires Inv(cfg, s) && id in s.everCompleted
    ensures Expected(cfg, s, id).Some?
    ensures RowsOf(s, id) == FullRows(s.requests[id].job, Expected(cfg, s, id).value)
  {
    assert AllRecorded(cfg, s, id);
    var job, outs := s.requests[id].job, Expected(cfg, s, id).value;
    RunsAreConsistent(cfg.codec, job, s.requests[id].upload);
    FullRowsHave(job, outs);
    var rows, full := RowsOf(s, id), FullRows(job, outs);
    forall n | n in rows ensures n in full && rows[n] == full[n] {
      assert ArtifactOk(cfg, s, (id, n));
    }
    forall n | n in full ensures n in rows {
      var o :| o in outs && o.name == n;
      var i :| 0 <= i < |outs| && outs[i] == o;
      assert (id, outs[i].name) in s.artifacts;
    }
  }

  /** In every interleaving, a job that shows as completed has exactly the artifact
      rows of one uninterrupted run on the uploaded bytes, and each row's object holds
      that run's bytes. */
  lemma CompletedIsOneFullRun(cfg: Config, run: seq<Action>, id: JobId, s: State)
    requires Reaches(cfg, run, s) && id in s.jobs && s.jobs[id].status.Completed?
    ensures id in s.requests && s.requests[id].Submission? && Expected(cfg, s, id).Some?
    ensures var job, outs := s.requests[id].job, Expected(cfg, s, id).value;
      && RowsOf(s, id) == FullRows(job, outs)
      && forall o :: o in outs ==>
           && (id, o.name) in s.artifacts && s.artifacts[(id, o.name)] == RowFor(job, o)
           && RowFor(job, o).key in s.objects && s.objects[RowFor(job, o).key] == o.data
  {
    assert Exec(cfg, run) == s;
    Reachable(cfg, run);
    RowsAreFull(cfg, s, id);
    var job, outs := s.requests[id].job, Expected(cfg, s, id).value;
    RunsAreConsistent(cfg.codec, job, s.requests[id].upload);
    FullRowsHave(job, outs);
    FullObjectsHave(job, outs);
    forall o | o in outs
      ensures (id, o.name) in s.artifacts && s.artifacts[(id, o.name)] == RowFor(job, o)
      ensures RowFor(job, o).key in s.objects && s.objects[RowFor(job, o).key] == o.data
    {
      assert o.name in RowsOf(s, id) && RowsOf(s, id)[o.name] == RowFor(job, o);
      assert ArtifactOk(cfg, s, (id, o.name));
      assert SubmissionOk(s, id, s.requests[id]);
      assert ObjectOk(cfg, s, RowFor(job, o).key);
    }
  }

  /** What an attempt has put on record so far is there, row and object. */
  lemma RecordedRow(cfg: Config, s: State, k: nat, i: nat)
    requires Inv(cfg, s) && k in s.workers && HasOutputs(s.workers[k].pc) && i < RecordedBy(s.workers[k])
    ensures s.workers[k].msg.body.Wire? && i < |s.workers[k].outputs|
    ensures var h := s.workers[k]; var o := h.outputs[i];
      && (h.msg.id, o.name) in s.artifacts && s.artifacts[(h.msg.id, o.name)] == RowFor(JobOf(h), o)
      && RowFor(JobOf(h), o).key in s.objects && s.objects[RowFor(JobOf(h), o).key] == o.data
  {
    var h := s.workers[k];
    assert HandlerOk(cfg, s, h) && Recorded(s, h.msg.id, h.outputs, RecordedBy(h));
    var o := h.outputs[i];
    MessageIsOwn(cfg, s, h);
    OutputOnRecord(cfg, s, h.msg.id, o);
  }

  lemma OutputOnRecord(cfg: Config, s: State, id: JobId, o: Output)
    requires Inv(cfg, s) && Expected(cfg, s, id).Some? && o in Expected(cfg, s, id).value
    requires (id, o.name) in s.artifacts
    ensures var job := s.requests[id].job;
      && s.artifacts[(id, o.name)] == RowFor(job, o)
      && RowFor(job, o).key in s.objects && s.objects[RowFor(job, o).key] == o.data
  {
    var job, outs := s.requests[id].job, Expected(cfg, s, id).value;
    RunsAreConsistent(cfg.codec, job, s.requests[id].upload);
    FullRowsHave(job, outs);
    FullObjectsHave(job, outs);
    assert ArtifactOk(cfg, s, (id, o.name));
    assert SubmissionOk(s, id, s.requests[id]);
    assert ObjectOk(cfg, s, RowFor(job, o).key);
  }

  /** The job has this artifact: its row, and the object the row names with these bytes. */
  predicate Has(s: State, id: JobId, name: string, file: string, contentType: string,
                encoded: Option<(Bytes, map<string, int>)>) {
    && encoded.Some? && (id, name) in s.artifacts
    && s.artifacts[(id, name)] ==
         Artifact(ArtifactKey(id, file), contentType, |encoded.value.0|, encoded.value.1)
    && ArtifactKey(id, file) in s.objects && s.objects[ArtifactKey(id, file)] == encoded.value.0
  }

  /** So, in full: what a completed job has for each operation it asked for, with the
      names, files and types, and what was encoded for it from the upload. First an OCR
      job, then the variants of an image job whose type is fixed, then the resized one. */
  lemma CompletedText(cfg: Config, run: seq<Action>, id: JobId, s: State)
    requires Reaches(cfg, run, s) && id in s.jobs && s.jobs[id].status.Completed?
    ensures id in s.requests && s.requests[id].Submission?
    ensures s.requests[id].job.kind.Ocr? ==>
      Has(s, id, "text", "text.txt", "text/plain; charset=utf-8", cfg.codec.extract(s.requests[id].upload))
  {
    CompletedIsOneFullRun(cfg, run, id, s);
    OwnId(cfg, run, id, s);
    if s.requests[id].job.kind.Ocr? {
      var o := Expected(cfg, s, id).value[0];
      assert o in Expected(cfg, s, id).value;
      Keys.FileNames(o);
    }
  }

  lemma CompletedVariants(cfg: Config, run: seq<Action>, id: JobId, s: State)
    requires Reaches(cfg, run, s) && id in s.jobs && s.jobs[id].status.Completed?
    requires id in s.requests && s.requests[id].Submission? && s.requests[id].job.kind.Image?
    ensures var j, src, c := s.requests[id].job, s.requests[id].upload, cfg.codec;
      && ("thumbnail" in j.operations ==>
            Has(s, id, "thumbnail", "thumbnail.png", "image/png",
                c.encode(src, Thumbnail(Chosen(j.params.thumbnailSize, c.thumbnailSize, 256)))))
      && ("grayscale" in j.operations ==>
            Has(s, id, "grayscale", "grayscale.png", "image/png", c.encode(src, Grayscale)))
      && ("blur" in j.operations ==>
            Has(s, id, "blur", "blur.png", "image/png",
                c.encode(src, Blur(if j.params.blurSigma > 0.0 then j.params.blurSigma else 3.0))))
      && ("webp" in j.operations ==>
            Has(s, id, "webp", "webp.webp", "image/webp",
                c.encode(src, WebP(Chosen(j.params.resizeMaxDim, c.resizeMaxDim, 1600)))))
  {
    var j, src, c := s.requests[id].job, s.requests[id].upload, cfg.codec;
    OneOperation(c, src, j.params, "thumbnail");
    OperationHas(cfg, run, id, s, "thumbnail",
                 c.encode(src, Thumbnail(Chosen(j.params.thumbnailSize, c.thumbnailSize, 256))),
                 "thumbnail", "thumbnail.png", "image/png");
    OneOperation(c, src, j.params, "grayscale");
    OperationHas(cfg, run, id, s, "grayscale", c.encode(src, Grayscale), "grayscale", "grayscale.png", "image/png");
    OneOperation(c, src, j.params, "blur");
    OperationHas(cfg, run, id, s, "blur",
                 c.encode(src, Blur(if j.params.blurSigma > 0.0 then j.params.blurSigma else 3.0)),
                 "blur", "blur.png", "image/png");
    OneOperation(c, src, j.params, "webp");
    OperationHas(cfg, run, id, s, "webp", c.encode(src, WebP(Chosen(j.params.resizeMaxDim, c.resizeMaxDim, 1600))),
                 "webp", "webp.webp", "image/webp");
  }

  lemma CompletedResized(cfg: Config, run: seq<Action>, id: JobId, s: State)
    requires Reaches(cfg, run, s) && id in s.jobs && s.jobs[id].status.Completed?
    requires id in s.requests && s.requests[id].Submission? && s.requests[id].job.kind.Image?
    requires "resize" in s.requests[id].job.operations
    ensures var p, src, c := s.requests[id].job.params, s.requests[id].upload, cfg.codec;
            var dim, quality := Chosen(p.resizeMaxDim, c.resizeMaxDim, 1600), if p.quality > 0 then p.quality else 85;
      if p.resizeFormat == "png" then
        Has(s, id, "resized", "resized.png", "image/png", c.encode(src, Resized(dim, "png", quality)))
      else if p.resizeFormat == "webp" then
        Has(s, id, "resized", "resized.webp", "image/webp", c.encode(src, Resized(dim, "webp", quality)))
      else Has(s, id, "resized", "resized.jpg", "image/jpeg", c.encode(src, Resized(dim, "jpeg", quality)))
  {
    var p, src, c := s.requests[id].job.params, s.requests[id].upload, cfg.codec;
    var dim, quality := Chosen(p.resizeMaxDim, c.resizeMaxDim, 1600), if p.quality > 0 then p.quality else 85;
    OneOperation(c, src, p, "resize");
    if p.resizeFormat == "png" {
      OperationHas(cfg, run, id, s, "resize", c.encode(src, Resized(dim, "png", quality)),
                   "resized", "resized.png", "image/png");
    } else if p.resizeFormat == "webp" {
      OperationHas(cfg, run, id, s, "resize", c.encode(src, Resized(dim, "webp", quality)),
                   "resized", "resized.webp", "image/webp");
    } else {
      OperationHas(cfg, run, id, s, "resize", c.encode(src, Resized(dim, "jpeg", quality)),
                   "resized", "resized.jpg", "image/jpeg");
    }
  }

  lemma OwnId(cfg: Config, run: seq<Action>, id: JobId, s: State)
    requires Reaches(cfg, run, s) && id in s.requests && s.requests[id].Submission?
    ensures s.requests[id].job.id == id
  {
    assert Exec(cfg, run) == s;
    Reachable(cfg, run);
    assert SubmissionOk(s, id, s.requests[id]);
  }

  lemma OperationHas(cfg: Config, run: seq<Action>, id: JobId, s: State, op: string,
                     encoded: Option<(Bytes, map<string, int>)>, name: string, file: string, contentType: string)
    requires Reaches(cfg, run, s) && id in s.jobs && s.jobs[id].status.Completed?
    requires id in s.requests && s.requests[id].Submission? && s.requests[id].job.kind.Image?
    requires RenderAll(cfg.codec, s.requests[id].upload, s.requests[id].job.params, [op]) ==
      Single(encoded, name, contentType)
    requires file == name + (if contentType == "image/png" then ".png"
                             else if contentType == "image/webp" then ".webp" else ".jpg")
    ensures op in s.requests[id].job.operations ==> Has(s, id, name, file, contentType, encoded)
  {
    var j, src := s.requests[id].job, s.requests[id].upload;
    CompletedIsOneFullRun(cfg, run, id, s);
    OwnId(cfg, run, id, s);
    if op in j.operations {
      EveryOperationYields(cfg.codec, src, j.params, j.operations, op);
      var o := RenderAll(cfg.codec, src, j.params, [op]).value[0];
      assert o in RenderAll(cfg.codec, src, j.params, [op]).value;
      Keys.FileNames(o);
    }
  }

  /** Once a job has been completed its artifact rows never change again, whatever
      crashes, redeliveries and stale handlers follow, and whatever they do to its
      status. */
  lemma CompletedRowsNeverChange(cfg: Config, run: seq<Action>, more: seq<Action>, id: JobId, s: State, t: State)
    requires Reaches(cfg, run, s) && id in s.jobs && s.jobs[id].status.Completed?
    requires Reaches(cfg, run + more, t)
    ensures RowsOf(t, id) == RowsOf(s, id)
  {
    assert Exec(cfg, run) == s && Exec(cfg, run + more) == t;
    Reachable(cfg, run);
    Reachable(cfg, run + more);
    RunsGrow(cfg, run, more);
    RowsAreFull(cfg, s, id);
    RowsAreFull(cfg, t, id);
    assert Expected(cfg, s, id) == Expected(cfg, t, id);
  }

  /** Referential integrity at every step: a message in the broker or in a worker's
      hands has its row and its source object, with the uploaded bytes; an artifact row
      has its job row and its object; and the texts of stored keys never collide. */
  lemma ReferencesResolve(cfg: Config, run: seq<Action>, s: State)
    requires Reaches(cfg, run, s)
    ensures
      && (forall c :: c in s.copies && c.msg.body.Wire? ==>
           c.msg.id in s.jobs && c.msg.body.job.sourceKey in s.objects &&
           c.msg.id in s.requests && s.requests[c.msg.id].Submission? &&
           s.objects[c.msg.body.job.sourceKey] == s.requests[c.msg.id].upload)
      && (forall k :: k in s.workers && s.workers[k].msg.body.Wire? ==>
           s.workers[k].msg.id in s.jobs && JobOf(s.workers[k]).sourceKey in s.objects)
      && (forall k :: k in s.artifacts ==> k.0 in s.jobs && s.artifacts[k].key in s.objects)
      && (forall k, m :: k in s.objects && m in s.objects && Keys.Text(k) == Keys.Text(m) ==> k == m)
  {
    assert Exec(cfg, run) == s;
    Reachable(cfg, run);
    forall c | c in s.copies && c.msg.body.Wire?
      ensures c.msg.id in s.jobs && c.msg.body.job.sourceKey in s.objects &&
        c.msg.id in s.requests && s.requests[c.msg.id].Submission? &&
        s.objects[c.msg.body.job.sourceKey] == s.requests[c.msg.id].upload
    {
      assert CopyOk(s, c) && SubmissionOk(s, c.msg.id, s.requests[c.msg.id]);
      assert ObjectOk(cfg, s, c.msg.body.job.sourceKey);
    }
    forall k | k in s.workers && s.workers[k].msg.body.Wire?
      ensures s.workers[k].msg.id in s.jobs && JobOf(s.workers[k]).sourceKey in s.objects
    {
      var h := s.workers[k];
      assert HandlerOk(cfg, s, h) && SubmissionOk(s, h.msg.id, s.requests[h.msg.id]);
    }
    forall k | k in s.artifacts ensures k.0 in s.jobs && s.artifacts[k].key in s.objects {
      assert ArtifactOk(cfg, s, k);
    }
    forall k, m | k in s.objects && m in s.objects && Keys.Text(k) == Keys.Text(m) ensures k == m {
      assert ObjectOk(cfg, s, k) && ObjectOk(cfg, s, m);
      assert SubmissionOk(s, k.job, s.requests[k.job]) && SubmissionOk(s, m.job, s.requests[m.job]);
      Keys.KeysNeverCollide(k, m);
    }
  }

  /** A client that was told 202 has a row and a message; the converse fails, since a
      publish whose confirm was lost is answered 502. */
  lemma AcceptedMeansEnqueued(cfg: Config, run: seq<Action>, id: JobId, s: State)
    requires Reaches(cfg, run, s) && id in s.requests && s.requests[id].Submission?
    requires s.requests[id].pc == Answered(202)
    ensures id in s.jobs && id in s.enqueued
  {
    assert Exec(cfg, run) == s;
    Reachable(cfg, run);
    assert SubmissionOk(s, id, s.requests[id]);
  }
}
