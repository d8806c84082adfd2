/** The delivery handlers of the two workers, statement by statement. Each runs against a
    cluster in which everyone else keeps acting, and its own effects are exactly the next
    steps of its attempt in the protocol: a statement left out, doubled or out of order
    would break the precondition of the call after it. */
module Workers {
  import opened Media
  import opened Amqp
  import opened Processor
  import opened Pipeline
  import opened Integrity
  import opened Clusters
  import Keys

  /** The attempt is this one, at this point, with nothing failed yet. */
  predicate Under(h: Handler, worker: Kind, job: Job, attempt: int, pc: Pc) {
    h.worker == worker && h.msg.body == Wire(job) && h.attempt == attempt && h.cause.NoCause? && h.pc == pc &&
    job.kind == worker && job.id == h.msg.id
  }

  predicate FailedWith(h: Handler, worker: Kind, job: Job, attempt: int, cause: Cause) {
    h.worker == worker && h.msg.body == Wire(job) && h.attempt == attempt && h.cause == cause && h.pc.SetFailed? &&
    job.kind == worker && job.id == h.msg.id && (cause.Transient? || cause.Permanent?)
  }

  /** Where the consumer finds the attempt once the handler function has returned or
      raised: an error names the verdict the consumer is about to reach. */
  predicate Returned(cfg: Config, h: Handler, worker: Kind, job: Job, attempt: int, err: Cause) {
    h.worker == worker && h.msg.body == Wire(job) && h.attempt == attempt && h.cause == err &&
    h.pc == (if err.NoCause? then AckDone
             else if err.Permanent? || attempt >= Limit(cfg, worker) then Parking
             else Reject)
  }

  lemma DecodedKind(cfg: Config, run: seq<Action>, slot: nat)
    requires slot in Exec(cfg, run).workers && Exec(cfg, run).workers[slot].msg.body.Wire?
    ensures var h := Exec(cfg, run).workers[slot]; h.msg.body.job.kind == h.worker && h.msg.body.job.id == h.msg.id
  {
    Reachable(cfg, run);
    var s := Exec(cfg, run);
    assert HandlerOk(cfg, s, s.workers[slot]);
    assert SubmissionOk(s, s.workers[slot].msg.id, s.requests[s.workers[slot].msg.id]);
  }

  /** The last action settled the delivery of copy d to this worker: it was acked as done or
      parked, or dead-lettered, in so far as its channel was still open. */
  ghost predicate Finished(c: Cluster, d: Copy, slot: nat, worker: Kind)
    reads c
  {
    exists h: Handler :: c.EndedBy(h, slot) && h.msg == d.msg && h.worker == worker
  }

  /** The output is in the object store, under its name and the extension of its type, and
      on record under its name. */
  predicate Saved(c: Cluster, job: Job, o: Output)
    reads c
  {
    var file := o.name + (if o.contentType == "image/png" then ".png"
                          else if o.contentType == "image/webp" then ".webp" else ".jpg");
    && (job.id, o.name) in c.artifacts
    && c.artifacts[(job.id, o.name)] == Artifact(ArtifactKey(job.id, file), o.contentType, |o.data|, o.meta)
    && ArtifactKey(job.id, file) in c.objects && c.objects[ArtifactKey(job.id, file)] == o.data
  }

  /** What an attempt has stored is there whatever others did since. */
  lemma OnRecord(c: Cluster, slot: nat, i: nat)
    requires c.Valid() && slot in c.workers && c.workers[slot].worker.Image?
    requires HasOutputs(c.workers[slot].pc) && i < RecordedBy(c.workers[slot])
    ensures c.workers[slot].msg.body.Wire? && i < |c.workers[slot].outputs|
    ensures Saved(c, c.workers[slot].msg.body.job, c.workers[slot].outputs[i])
  {
    var s := c.Snapshot();
    assert Exec(c.cfg, c.run) == s;
    Reachable(c.cfg, c.run);
    RecordedRow(c.cfg, s, slot, i);
    DecodedKind(c.cfg, c.run, slot);
    Keys.FileNames(s.workers[slot].outputs[i]);
  }

  class ImageWorker {
    const c: Cluster
    const slot: nat

    constructor (cluster: Cluster, n: nat)
      ensures c == cluster && slot == n
    {
      c, slot := cluster, n;
    }

    /** One attempt: err is the error returned, outcome the label counted on the way out. */
    method Handle(job: Job, attempt: int) returns (err: Cause, outcome: Label)
      requires c.Valid() && slot in c.workers && Under(c.Me(slot), Image, job, attempt, CheckStatus)
      modifies c
      ensures c.Valid() && Onward(old(c.run), c.run, slot) && slot in c.workers && c.Me(slot).msg == old(c.Me(slot)).msg
      ensures Returned(c.cfg, c.Me(slot), Image, job, attempt, err)
      ensures outcome == LabelOf(c.cfg, c.Me(slot))
    {
      err := Work(job, attempt);
      if err.NoCause? {
        outcome := Success;
      } else if err.Permanent? || attempt >= 5 {
        outcome := ParkedLabel;
      } else {
        outcome := Retry;
      }
    }

    method Work(job: Job, attempt: int) returns (err: Cause)
      requires c.Valid() && slot in c.workers && Under(c.Me(slot), Image, job, attempt, CheckStatus)
      modifies c
      ensures c.Valid() && Onward(old(c.run), c.run, slot) && slot in c.workers && c.Me(slot).msg == old(c.Me(slot)).msg
      ensures Returned(c.cfg, c.Me(slot), Image, job, attempt, err)
    {
      var read, status := c.Status(slot, job.id);
      if read && status == Some(Completed) {
        return NoCause;
      }

      var src := Download(job, attempt);
      if src.None? {
        return Transient;
      }
      err := Produce(job, attempt, src.value);
    }

    /** Announces the attempt and fetches the source. */
    method Download(job: Job, attempt: int) returns (src: Option<Bytes>)
      requires c.Valid() && slot in c.workers && Under(c.Me(slot), Image, job, attempt, SetProcessing)
      modifies c
      ensures c.Valid() && Onward(old(c.run), c.run, slot) && slot in c.workers && c.Me(slot).msg == old(c.Me(slot)).msg
      ensures src.Some? ==> Under(c.Me(slot), Image, job, attempt, Transform) && c.Me(slot).source == src.value
      ensures src.None? ==> Returned(c.cfg, c.Me(slot), Image, job, attempt, Transient)
    {
      var _ := c.SetStatus(slot, job.id, Processing);
      var _ := c.PublishEvent(slot, Event(job.id, job.kind, Processing, 10, ""));

      src := c.Get(slot, job.sourceKey);
      if src.None? {
        Fail(job, attempt, Transient);
        return;
      }

      var _ := c.PublishEvent(slot, Event(job.id, job.kind, Processing, 40, ""));
    }

    /** The second half of an attempt: transform, store, complete. */
    method Produce(job: Job, attempt: int, src: Bytes) returns (err: Cause)
      requires c.Valid() && slot in c.workers && Under(c.Me(slot), Image, job, attempt, Transform)
      requires c.Me(slot).source == src
      modifies c
      ensures c.Valid() && Onward(old(c.run), c.run, slot) && slot in c.workers && c.Me(slot).msg == old(c.Me(slot)).msg
      ensures Returned(c.cfg, c.Me(slot), Image, job, attempt, err)
    {
      var results := Process(c.cfg.codec, src, job.operations, job.params);
      c.Transformed(slot, results);
      if results.None? {
        Fail(job, attempt, Permanent);
        return Permanent;
      }

      err := Store(job, attempt, results.value);
      if !err.NoCause? {
        return;
      }

      var completed := c.SetStatus(slot, job.id, Completed);
      if !completed {
        Fail(job, attempt, Transient);
        return Transient;
      }
      var _ := c.PublishEvent(slot, Event(job.id, job.kind, Completed, 100, ""));
    }

    /** The loop over the results: put, record, announce. */
    method Store(job: Job, attempt: int, results: seq<Output>) returns (err: Cause)
      requires c.Valid() && slot in c.workers && c.Me(slot).outputs == results
      requires Under(c.Me(slot), Image, job, attempt, if 0 < |results| then Put(0) else SetCompleted)
      modifies c
      ensures c.Valid() && Onward(old(c.run), c.run, slot) && slot in c.workers && c.Me(slot).msg == old(c.Me(slot)).msg
      ensures err.NoCause? ==> Under(c.Me(slot), Image, job, attempt, SetCompleted)
      ensures err.NoCause? ==> forall i :: 0 <= i < |results| ==> Saved(c, job, results[i])
      ensures !err.NoCause? ==> Returned(c.cfg, c.Me(slot), Image, job, attempt, err)
    {
      for i := 0 to |results|
        invariant c.Valid() && Onward(old(c.run), c.run, slot) && slot in c.workers && c.Me(slot).outputs == results
        invariant c.Me(slot).msg == old(c.Me(slot)).msg
        invariant Under(c.Me(slot), Image, job, attempt, if i < |results| then Put(i) else SetCompleted)
      {
        err := StoreOne(job, attempt, i, results[i]);
        if !err.NoCause? {
          return;
        }
      }
      forall i | 0 <= i < |results| ensures Saved(c, job, results[i]) {
        OnRecord(c, slot, i);
      }
      return NoCause;
    }

    /** The loop's body. */
    method StoreOne(job: Job, attempt: int, i: nat, r: Output) returns (err: Cause)
      requires c.Valid() && slot in c.workers && i < |c.Me(slot).outputs| && c.Me(slot).outputs[i] == r
      requires Under(c.Me(slot), Image, job, attempt, Put(i))
      modifies c
      ensures c.Valid() && Onward(old(c.run), c.run, slot) && slot in c.workers && c.Me(slot).msg == old(c.Me(slot)).msg
      ensures err.NoCause? ==>
        c.Me(slot).outputs == old(c.Me(slot)).outputs &&
        Under(c.Me(slot), Image, job, attempt, if i + 1 < |c.Me(slot).outputs| then Put(i + 1) else SetCompleted)
      ensures err.NoCause? ==> Saved(c, job, r)
      ensures !err.NoCause? ==> Returned(c.cfg, c.Me(slot), Image, job, attempt, err)
    {
      var key := ArtifactKey(job.id, ArtifactFile(Image, r));
      var put := c.Put(slot, key, r.data);
      if !put {
        Fail(job, attempt, Transient);
        return Transient;
      }
      var added := c.AddArtifact(slot, job.id, r.name, Artifact(key, r.contentType, |r.data|, r.meta));
      if !added {
        Fail(job, attempt, Transient);
        return Transient;
      }
      var _ := c.PublishEvent(slot, Event(job.id, job.kind, Processing, 80, r.name));
      OnRecord(c, slot, i);
      return NoCause;
    }

    /** Records the failure, best effort. */
    method Fail(job: Job, attempt: int, cause: Cause)
      requires c.Valid() && slot in c.workers && FailedWith(c.Me(slot), Image, job, attempt, cause)
      modifies c
      ensures c.Valid() && Onward(old(c.run), c.run, slot) && slot in c.workers && c.Me(slot).msg == old(c.Me(slot)).msg
      ensures Returned(c.cfg, c.Me(slot), Image, job, attempt, cause)
    {
      var _ := c.SetStatus(slot, job.id, Failed);
      var _ := c.PublishEvent(slot, Event(job.id, job.kind, Failed, 0, ""));
    }

    /** The consumer's treatment of one delivery, from receipt to settlement. */
    method OnDelivery(d: Copy)
      requires c.Valid() && Enabled(c.Snapshot(), Deliver(d, slot)) && d.queue.ImageQueue?
      modifies c
      ensures c.Valid() && old(c.run) + [Deliver(d, slot)] <= c.run && Onward(old(c.run), c.run, slot)
      ensures slot !in c.workers && Finished(c, d, slot, Image)
    {
      c.Receive(d, slot);
      var attempt := AttemptOf(d.msg.deaths);
      c.Decode(slot);
      if d.msg.body.Garbage? {
        var _ := c.Park(slot);
        c.Settle(slot);
        return;
      }

      var job := d.msg.body.job;
      DecodedKind(c.cfg, c.run, slot);
      var err, _ := Handle(job, attempt);
      if !err.NoCause? {
        if err.Permanent? || attempt >= c.cfg.imageRetries {
          var _ := c.Park(slot);
          c.Settle(slot);
          return;
        }
        c.Settle(slot);
        return;
      }
      c.Settle(slot);
    }
  }

  /** A raised exception is the cause it becomes; NoCause is a normal return. */
  class OcrWorker {
    const c: Cluster
    const slot: nat

    constructor (cluster: Cluster, n: nat)
      ensures c == cluster && slot == n
    {
      c, slot := cluster, n;
    }

    /** One attempt: raised is the exception re-raised, outcome the label counted in the
        finally clause. */
    method Handle(job: Job, attempt: int) returns (raised: Cause, outcome: Label)
      requires c.Valid() && slot in c.workers && Under(c.Me(slot), Ocr, job, attempt, CheckStatus)
      modifies c
      ensures c.Valid() && Onward(old(c.run), c.run, slot) && slot in c.workers && c.Me(slot).msg == old(c.Me(slot)).msg
      ensures Returned(c.cfg, c.Me(slot), Ocr, job, attempt, raised)
      ensures outcome == LabelOf(c.cfg, c.Me(slot))
    {
      outcome := Success;
      raised := Work(job, attempt);
      if !raised.NoCause? {
        var terminal := raised.Permanent? || attempt >= c.cfg.ocrRetries;
        outcome := if terminal then ParkedLabel else Retry;
        Fail(job, attempt, raised);
      }
    }

    method Work(job: Job, attempt: int) returns (raised: Cause)
      requires c.Valid() && slot in c.workers && Under(c.Me(slot), Ocr, job, attempt, CheckStatus)
      modifies c
      ensures c.Valid() && Onward(old(c.run), c.run, slot) && slot in c.workers && c.Me(slot).msg == old(c.Me(slot)).msg
      ensures raised.NoCause? ==> Under(c.Me(slot), Ocr, job, attempt, AckDone)
      ensures !raised.NoCause? ==> FailedWith(c.Me(slot), Ocr, job, attempt, raised)
    {
      var ok, status := c.Status(slot, job.id);
      if !ok {
        return Transient;
      }
      if status == Some(Completed) {
        return NoCause;
      }
      var data := Download(job, attempt);
      if data.None? {
        return Transient;
      }
      raised := Produce(job, attempt, data.value);
    }

    /** Announces the attempt and fetches the source; None stands for a transient error. */
    method Download(job: Job, attempt: int) returns (data: Option<Bytes>)
      requires c.Valid() && slot in c.workers && Under(c.Me(slot), Ocr, job, attempt, SetProcessing)
      modifies c
      ensures c.Valid() && Onward(old(c.run), c.run, slot) && slot in c.workers && c.Me(slot).msg == old(c.Me(slot)).msg
      ensures data.Some? ==> Under(c.Me(slot), Ocr, job, attempt, Transform) && c.Me(slot).source == data.value
      ensures data.None? ==> FailedWith(c.Me(slot), Ocr, job, attempt, Transient)
    {
      var ok := c.SetStatus(slot, job.id, Processing);
      if !ok {
        return None;
      }
      ok := c.PublishEvent(slot, Event(job.id, job.kind, Processing, 10, ""));
      if !ok {
        return None;
      }
      data := c.Get(slot, job.sourceKey);
      if data.None? {
        return;
      }
      ok := c.PublishEvent(slot, Event(job.id, job.kind, Processing, 40, ""));
      if !ok {
        return None;
      }
    }

    /** Extraction is deterministic, so whatever it raises is permanent. */
    method Produce(job: Job, attempt: int, data: Bytes) returns (raised: Cause)
      requires c.Valid() && slot in c.workers && Under(c.Me(slot), Ocr, job, attempt, Transform)
      requires c.Me(slot).source == data
      modifies c
      ensures c.Valid() && Onward(old(c.run), c.run, slot) && slot in c.workers && c.Me(slot).msg == old(c.Me(slot)).msg
      ensures raised.NoCause? ==> Under(c.Me(slot), Ocr, job, attempt, AckDone)
      ensures !raised.NoCause? ==> FailedWith(c.Me(slot), Ocr, job, attempt, raised)
    {
      var result := c.cfg.codec.extract(data);
      if result.None? {
        c.Transformed(slot, None);
        return Permanent;
      }
      var (text, meta) := result.value;
      var key, mime := ArtifactKey(job.id, "text.txt"), "text/plain; charset=utf-8";
      c.Transformed(slot, Some([Output("text", mime, text, meta)]));
      raised := Store(job, attempt, key, mime, text, meta);
    }

    /** Puts, records and announces the text, then completes. */
    method Store(job: Job, attempt: int, key: ObjectKey, mime: string, text: Bytes, meta: map<string, int>)
      returns (raised: Cause)
      requires c.Valid() && slot in c.workers && Under(c.Me(slot), Ocr, job, attempt, Put(0))
      requires c.Me(slot).outputs == [Output("text", mime, text, meta)] && key == ArtifactKey(job.id, "text.txt")
      modifies c
      ensures c.Valid() && Onward(old(c.run), c.run, slot) && slot in c.workers && c.Me(slot).msg == old(c.Me(slot)).msg
      ensures raised.NoCause? ==> Under(c.Me(slot), Ocr, job, attempt, AckDone)
      ensures !raised.NoCause? ==> FailedWith(c.Me(slot), Ocr, job, attempt, raised)
    {
      var ok := c.Put(slot, key, text);
      if !ok {
        return Transient;
      }
      ok := c.AddArtifact(slot, job.id, "text", Artifact(key, mime, |text|, meta));
      if !ok {
        return Transient;
      }
      ok := c.PublishEvent(slot, Event(job.id, job.kind, Processing, 80, "text"));
      if !ok {
        return Transient;
      }
      raised := Finish(job, attempt);
    }

    method Finish(job: Job, attempt: int) returns (raised: Cause)
      requires c.Valid() && slot in c.workers && Under(c.Me(slot), Ocr, job, attempt, SetCompleted)
      modifies c
      ensures c.Valid() && Onward(old(c.run), c.run, slot) && slot in c.workers && c.Me(slot).msg == old(c.Me(slot)).msg
      ensures raised.NoCause? ==> Under(c.Me(slot), Ocr, job, attempt, AckDone)
      ensures !raised.NoCause? ==> FailedWith(c.Me(slot), Ocr, job, attempt, raised)
    {
      var ok := c.SetStatus(slot, job.id, Completed);
      if !ok {
        return Transient;
      }
      ok := c.PublishEvent(slot, Event(job.id, job.kind, Completed, 100, ""));
      if !ok {
        return Transient;
      }
      return NoCause;
    }

    /** Records the failure; an exception on the way is logged and dropped. */
    method Fail(job: Job, attempt: int, cause: Cause)
      requires c.Valid() && slot in c.workers && FailedWith(c.Me(slot), Ocr, job, attempt, cause)
      modifies c
      ensures c.Valid() && Onward(old(c.run), c.run, slot) && slot in c.workers && c.Me(slot).msg == old(c.Me(slot)).msg
      ensures Returned(c.cfg, c.Me(slot), Ocr, job, attempt, cause)
    {
      var ok := c.SetStatus(slot, job.id, Failed);
      if ok {
        var _ := c.PublishEvent(slot, Event(job.id, job.kind, Failed, 100, ""));
      }
    }

    /** The consumer's callback for one delivery. If parking raises, the callback ends
        without an ack and the delivery stays unsettled; escaped says so. */
    method OnMessage(d: Copy) returns (escaped: bool)
      requires c.Valid() && Enabled(c.Snapshot(), Deliver(d, slot)) && d.queue.OcrQueue?
      modifies c
      ensures c.Valid() && old(c.run) + [Deliver(d, slot)] <= c.run && Onward(old(c.run), c.run, slot)
      ensures !escaped ==> slot !in c.workers && Finished(c, d, slot, Ocr)
      ensures escaped ==> slot in c.workers && c.Me(slot).pc.Raised?
    {
      c.Receive(d, slot);
      var attempt := AttemptOf(d.msg.deaths);
      c.Decode(slot);
      if d.msg.body.Garbage? {
        escaped := ParkAndAck();
        return;
      }

      var job := d.msg.body.job;
      DecodedKind(c.cfg, c.run, slot);
      var raised, _ := Handle(job, attempt);
      if !raised.NoCause? && (raised.Permanent? || attempt >= c.cfg.ocrRetries) {
        escaped := ParkAndAck();
      } else {
        c.Settle(slot);
        return false;
      }
    }

    method ParkAndAck() returns (escaped: bool)
      requires c.Valid() && slot in c.workers && c.Me(slot).pc.Parking? && c.Me(slot).worker.Ocr?
      modifies c
      ensures c.Valid() && Onward(old(c.run), c.run, slot)
      ensures !escaped ==> slot !in c.workers && c.EndedBy(old(c.Me(slot)).(pc := AckParked), slot)
      ensures escaped ==> slot in c.workers && c.Me(slot).pc.Raised?
    {
      var parked := c.Park(slot);
      if parked {
        c.Settle(slot);
      }
      return !parked;
    }
  }
}
