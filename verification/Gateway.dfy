/** The gateway's submit handler, against the same cluster: store the upload, insert the
    row, publish, answer; each effect may fail, and the rest of the system acts between
    them. */
module Gateways {
  import opened Media
  import opened Amqp
  import opened Pipeline
  import opened Integrity
  import opened Custody
  import opened Clusters
  import opened Submissions

  class Gateway {
    const c: Cluster

    constructor (cluster: Cluster)
      ensures c == cluster
    {
      c := cluster;
    }

    method Others(id: JobId)
      requires c.Valid() && id in c.requests
      modifies c
      ensures c.Valid() && old(c.run) <= c.run && id in c.requests && c.requests[id] == old(c.requests[id])
    {
      var more: int := *;
      while more > 0
        invariant c.Valid() && old(c.run) <= c.run && id in c.requests && c.requests[id] == old(c.requests[id])
      {
        more := more - 1;
        var a: Action := *;
        if NotOurs(a, id) {
          RequestStays(c.cfg, c.Snapshot(), a, id);
          ExecOne(c.cfg, c.run, a);
          c.Load(Step(c.cfg, c.Snapshot(), a));
          c.run := c.run + [a];
        }
      }
    }

    method Commit(id: JobId, reply: Reply, before: State)
      requires before == Exec(c.cfg, c.run) && Enabled(before, Action.Gateway(id, reply))
      requires c.Snapshot().(requests := Serve(before, id, reply).requests) == Serve(before, id, reply)
      modifies c
      ensures c.Valid() && c.run == old(c.run) + [Action.Gateway(id, reply)]
      ensures c.Snapshot() == Serve(before, id, reply)
    {
      ExecOne(c.cfg, c.run, Action.Gateway(id, reply));
      c.requests := Serve(before, id, reply).requests;
      c.run := c.run + [Action.Gateway(id, reply)];
    }

    /** True while the handler of request id is about to do the effect at pc. */
    ghost predicate Due(id: JobId, job: Job, upload: Bytes, pc: GatewayPc)
      reads c
    {
      c.Valid() && id in c.requests && c.requests[id] == Submission(job, upload, pc)
    }

    method PutUpload(id: JobId, job: Job, upload: Bytes) returns (ok: bool)
      requires Due(id, job, upload, StoreUpload)
      modifies c
      ensures old(c.run) <= c.run && Due(id, job, upload, if ok then InsertRow else Answered(502))
    {
      Others(id);
      var before := c.Snapshot();
      var reply: Reply := *;
      ok := reply.Done?;
      if reply.Applied() {
        c.objects := c.objects[job.sourceKey := upload];
      }
      Commit(id, reply, before);
    }

    method CreateJob(id: JobId, job: Job, upload: Bytes) returns (ok: bool)
      requires Due(id, job, upload, InsertRow)
      modifies c
      ensures old(c.run) <= c.run && Due(id, job, upload, if ok then PublishJob else Answered(500))
    {
      Others(id);
      var before := c.Snapshot();
      var reply: Reply := *;
      ok := reply.Done?;
      if reply.Applied() {
        c.jobs := c.jobs[id := Row(job.kind, Pending, job.sourceKey, job.operations)];
      }
      Commit(id, reply, before);
    }

    /** The broker takes a message: one copy into each queue its key is bound to. */
    method Send(m: Message)
      modifies c
      ensures c.Snapshot() == Enqueue(old(c.Snapshot()), m) && c.run == old(c.run)
    {
      c.copies := c.copies + Published(JobsExchange, m);
      c.enqueued := c.enqueued + {m.id};
      c.ledger := c.ledger[m.id := Ledger(0, 0, 0, 0, 0)];
    }

    /** Publishes with a confirm: refused, lost or nacked publishes all report failure. */
    method PublishJSON(id: JobId, job: Job, upload: Bytes) returns (ok: bool)
      requires Due(id, job, upload, PublishJob)
      modifies c
      ensures old(c.run) <= c.run && Due(id, job, upload, Answered(if ok then 202 else 502))
    {
      Others(id);
      var before := c.Snapshot();
      var reply: Reply := *;
      ok := reply.Done?;
      if reply.Applied() {
        Send(Message(id, Wire(job), RoutingKey(job.kind), []));
      }
      Commit(id, reply, before);
    }

    /** The submit handler from the point where the upload is validated and the id drawn.
        An accepted job has its source stored, its row inserted and its message published;
        every outcome leaves the system in a state the protocol can reach. */
    method HandleSubmit(id: JobId, kind: Kind, filename: string, operations: seq<string>, params: Params,
                        upload: Bytes)
      returns (code: nat)
      requires c.Valid() && id !in c.requests && Keys.SlashFree(id)
      modifies c
      ensures old(c.run) + [Submit(id, kind, filename, operations, params, upload)] <= c.run
      ensures Due(id, Job(id, kind, UploadKey(id, Keys.Sanitize(filename)), operations, params), upload, Answered(code))
      ensures code == 202 || code == 500 || code == 502
      ensures code == 202 ==>
        id in c.enqueued && id in c.jobs && UploadKey(id, Keys.Sanitize(filename)) in c.objects
    {
      var sourceKey := UploadKey(id, Keys.Sanitize(filename));
      var job := Job(id, kind, sourceKey, operations, params);
      Accept(id, kind, filename, operations, params, upload);
      var stored := PutUpload(id, job, upload);
      if !stored {
        return 502;
      }
      var created := CreateJob(id, job, upload);
      if !created {
        return 500;
      }
      var published := PublishJSON(id, job, upload);
      if !published {
        return 502;
      }
      AcceptedHasAll(c.cfg, c.run, id);
      return 202;
    }

    method Accept(id: JobId, kind: Kind, filename: string, operations: seq<string>, params: Params, upload: Bytes)
      requires c.Valid() && id !in c.requests && Keys.SlashFree(id)
      modifies c
      ensures c.run == old(c.run) + [Submit(id, kind, filename, operations, params, upload)]
      ensures Due(id, Job(id, kind, UploadKey(id, Keys.Sanitize(filename)), operations, params), upload, StoreUpload)
    {
      var a := Submit(id, kind, filename, operations, params, upload);
      ExecOne(c.cfg, c.run, a);
      c.Load(Step(c.cfg, c.Snapshot(), a));
      c.run := c.run + [a];
    }
  }

  lemma AcceptedHasAll(cfg: Config, run: seq<Action>, id: JobId)
    requires var s := Exec(cfg, run);
      id in s.requests && s.requests[id].Submission? && s.requests[id].pc == Answered(202)
    ensures var s := Exec(cfg, run); id in s.enqueued && id in s.jobs && s.requests[id].job.sourceKey in s.objects
  {
    Reachable(cfg, run);
    assert SubmissionOk(Exec(cfg, run), id, Exec(cfg, run).requests[id]);
  }
}
