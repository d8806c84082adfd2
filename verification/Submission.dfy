/** When the row of a submitted job has a message: in every run this is decided by what
    became of the gateway's insert and publish, and by nothing else. */
module Submissions {
  import opened Media
  import opened Pipeline
  import opened Integrity
  import opened Custody
  import opened Exclusive
  import Keys

  /** Replies to the two effects of a request that touch its row and its message, once
      they were tried. */
  datatype Served = Served(insert: Option<Reply>, publish: Option<Reply>)

  predicate TookEffect(r: Option<Reply>) { r.Some? && r.value.Applied() }

  predicate Ours(s: State, a: Action, id: JobId) { a.Gateway? && a.id == id && Enabled(s, a) }

  function NextServed(s: State, a: Action, id: JobId, h: Served): Served {
    if !Ours(s, a, id) then h
    else if s.requests[id].pc.InsertRow? then h.(insert := Some(a.reply))
    else if s.requests[id].pc.PublishJob? then h.(publish := Some(a.reply))
    else h
  }

  function History(cfg: Config, run: seq<Action>, id: JobId): Served {
    if run == [] then Served(None, None)
    else
      var n := |run| - 1;
      NextServed(Exec(cfg, run[..n]), run[n], id, History(cfg, run[..n], id))
  }

  /** The run gave request id these replies; stated like Reaches. */
  ghost predicate Replied(cfg: Config, run: seq<Action>, id: JobId, h: Served) {
    forall r: seq<Action> :: r == run ==> History(cfg, r, id) == h
  }

  predicate Pointed(pc: GatewayPc, h: Served) {
    match pc
    case StoreUpload => h == Served(None, None)
    case InsertRow => h == Served(None, None)
    case PublishJob => h == Served(Some(Done), None)
    case Answered(_) => h.insert == Some(Done) ==> h.publish.Some?
  }

  ghost predicate ServedOk(s: State, id: JobId, h: Served) {
    if id !in s.requests then h == Served(None, None)
    else s.requests[id].Submission? ==>
      && (id in s.jobs <==> TookEffect(h.insert)) && (id in s.enqueued <==> TookEffect(h.publish))
      && (h.publish.Some? ==> h.insert == Some(Done)) && Pointed(s.requests[id].pc, h)
      && (id in s.jobs && id !in s.enqueued ==> StatusOf(s, id) == Some(Pending))
  }

  // ---- every action keeps it ----

  /** Actions of anyone but the request handler of this id. */
  predicate NotOurs(a: Action, id: JobId) {
    !(a.Gateway? && a.id == id)
  }

  lemma RequestStays(cfg: Config, s: State, a: Action, id: JobId)
    requires id in s.requests && NotOurs(a, id)
    ensures id in Step(cfg, s, a).requests && Step(cfg, s, a).requests[id] == s.requests[id]
  {
    if Enabled(s, a) {
      match a
      case Gateway(i, reply) => ServeLeaves(s, i, reply, id);
      case Work(slot, reply) =>
        if !Settling(s.workers[slot].pc) {
          EffectFrame(s, s.workers[slot], reply);
        }
      case _ =>
    }
  }

  lemma ServeLeaves(s: State, i: JobId, reply: Reply, id: JobId)
    requires i in s.requests && s.requests[i].Submission? && id != i
    ensures id in Serve(s, i, reply).requests <==> id in s.requests
    ensures id in s.requests ==> Serve(s, i, reply).requests[id] == s.requests[id]
  {
  }

  lemma ServeEnqueues(s: State, i: JobId, reply: Reply, t: State)
    requires i in s.requests && s.requests[i].Submission? && t == Serve(s, i, reply)
    ensures t.enqueued == if s.requests[i].pc.PublishJob? && reply.Applied() then s.enqueued + {i} else s.enqueued
  {
    ServeFrame(s, i, reply, t);
  }

  /** Messages are enqueued by the gateway and by foreign publishers only. */
  lemma EnqueuedStep(cfg: Config, s: State, a: Action, id: JobId, t: State)
    requires t == Step(cfg, s, a) && !Ours(s, a, id) && id in s.requests
    ensures id in t.enqueued <==> id in s.enqueued
  {
    if Enabled(s, a) {
      if a.Gateway? {
        ServeEnqueues(s, a.id, a.reply, t);
      } else if a.Work? && !Settling(s.workers[a.slot].pc) {
        EffectFrame(s, s.workers[a.slot], a.reply);
      }
    }
  }

  /** Where a reply takes the request. */
  function Answering(pc: GatewayPc, reply: Reply): GatewayPc {
    match pc
    case StoreUpload => if reply.Done? then InsertRow else Answered(502)
    case InsertRow => if reply.Done? then PublishJob else Answered(500)
    case PublishJob => Answered(if reply.Done? then 202 else 502)
    case Answered(_) => pc
  }

  lemma Answers(s: State, id: JobId, reply: Reply, t: State)
    requires id in s.requests && s.requests[id].Submission? && t == Serve(s, id, reply)
    ensures id in t.requests && t.requests[id].Submission?
    ensures t.requests[id].pc == Answering(s.requests[id].pc, reply)
  {
    match s.requests[id].pc
    case StoreUpload =>
    case InsertRow =>
    case PublishJob =>
    case Answered(_) =>
  }

  lemma OwnServed(cfg: Config, s: State, id: JobId, reply: Reply, h: Served, t: State)
    requires ServedOk(s, id, h) && Enabled(s, Gateway(id, reply))
    requires t == Step(cfg, s, Gateway(id, reply))
    ensures ServedOk(t, id, NextServed(s, Gateway(id, reply), id, h))
  {
    ServeStatus(s, id, reply, id, t);
    ServeEnqueues(s, id, reply, t);
    Answers(s, id, reply, t);
    NextIs(s, id, reply, h);
    OwnCases(s, id, s.requests[id].pc, reply, h, t, NextServed(s, Gateway(id, reply), id, h));
  }

  lemma NextIs(s: State, id: JobId, reply: Reply, h: Served)
    requires Enabled(s, Gateway(id, reply))
    ensures var pc := s.requests[id].pc;
      NextServed(s, Gateway(id, reply), id, h) ==
      h.(insert := if pc.InsertRow? then Some(reply) else h.insert,
         publish := if pc.PublishJob? then Some(reply) else h.publish)
  {
  }

  lemma OwnCases(s: State, id: JobId, pc: GatewayPc, reply: Reply, h: Served, t: State, h': Served)
    requires id in s.requests && s.requests[id].Submission? && ServedOk(s, id, h)
    requires pc == s.requests[id].pc && !pc.Answered?
    requires id in t.requests && t.requests[id].Submission? && t.requests[id].pc == Answering(pc, reply)
    requires StatusOf(t, id) == if pc.InsertRow? && reply.Applied() then Some(Pending) else StatusOf(s, id)
    requires id in t.enqueued <==> id in s.enqueued || (pc.PublishJob? && reply.Applied())
    requires h' == h.(insert := if pc.InsertRow? then Some(reply) else h.insert,
                      publish := if pc.PublishJob? then Some(reply) else h.publish)
    ensures ServedOk(t, id, h')
  {
  }

  /** A handler writes only rows whose message was published. */
  lemma WritesPublished(cfg: Config, s: State, a: Action, id: JobId)
    requires Inv(cfg, s) && Writes(s, a, id)
    ensures id in s.enqueued && id in s.jobs
  {
    assert HandlerOk(cfg, s, s.workers[a.slot]);
    WriterHasRow(cfg, s, s.workers[a.slot]);
  }

  lemma OtherServed(cfg: Config, s: State, a: Action, id: JobId, h: Served, t: State)
    requires Inv(cfg, s) && ServedOk(s, id, h) && id in s.requests && !Ours(s, a, id) && t == Step(cfg, s, a)
    ensures ServedOk(t, id, h)
  {
    if Enabled(s, a) {
      RequestStays(cfg, s, a, id);
      EnqueuedStep(cfg, s, a, id, t);
      StepStatus(cfg, s, a, id, t);
      if Writes(s, a, id) {
        WritesPublished(cfg, s, a, id);
      }
    }
  }

  lemma NewServed(cfg: Config, s: State, a: Action, id: JobId, t: State)
    requires Inv(cfg, s) && id !in s.requests && t == Step(cfg, s, a)
    ensures ServedOk(t, id, Served(None, None))
  {
    if Enabled(s, a) {
      if a.Gateway? {
        ServeLeaves(s, a.id, a.reply, id);
      } else if a.Work? && !Settling(s.workers[a.slot].pc) {
        EffectFrame(s, s.workers[a.slot], a.reply);
      }
    }
  }

  lemma {:induction false} ServedSoFar(cfg: Config, run: seq<Action>, id: JobId, s: State)
    requires s == Exec(cfg, run)
    ensures ServedOk(s, id, History(cfg, run, id))
  {
    if run != [] {
      var n := |run| - 1;
      var prev, a, h := Exec(cfg, run[..n]), run[n], History(cfg, run[..n], id);
      ServedSoFar(cfg, run[..n], id, prev);
      Reachable(cfg, run[..n]);
      if Ours(prev, a, id) {
        OwnServed(cfg, prev, id, a.reply, h, s);
      } else if id in prev.requests {
        OtherServed(cfg, prev, a, id, h, s);
      } else {
        NewServed(cfg, prev, a, id, s);
      }
    }
  }

  // ---- main results ----

  /** Which rows have no message, in every run: a job has a row exactly if its insert took
      effect, and a message was published for it exactly if its publish did. So a row is
      without a message exactly while its request is about to publish, or if the insert
      took effect but was reported as failed, or if the publish was refused; and then it
      is pending. */
  lemma RowsWithoutMessage(cfg: Config, run: seq<Action>, id: JobId, s: State, h: Served)
    requires Reaches(cfg, run, s) && Replied(cfg, run, id, h) && id in s.requests && s.requests[id].Submission?
    ensures id in s.jobs <==> TookEffect(h.insert)
    ensures id in s.enqueued <==> TookEffect(h.publish)
    ensures id in s.jobs && id !in s.enqueued <==>
      s.requests[id].pc.PublishJob? || h.insert == Some(Torn) || h.publish == Some(Refused)
    ensures id in s.jobs && id !in s.enqueued ==> s.jobs[id].status == Pending
  {
    assert Exec(cfg, run) == s && History(cfg, run, id) == h;
    ServedSoFar(cfg, run, id, s);
  }

  lemma {:induction false} AnsweredStays(cfg: Config, run: seq<Action>, longer: seq<Action>, id: JobId)
    requires run <= longer
    requires var s := Exec(cfg, run); id in s.requests && s.requests[id].Submission? && s.requests[id].pc.Answered?
    ensures id in Exec(cfg, longer).requests && Exec(cfg, longer).requests[id] == Exec(cfg, run).requests[id]
    ensures History(cfg, longer, id) == History(cfg, run, id)
    decreases |longer|
  {
    if |run| == |longer| {
      assert run == longer;
    } else {
      var n := |longer| - 1;
      AnsweredStays(cfg, run, longer[..n], id);
      if NotOurs(longer[n], id) {
        RequestStays(cfg, Exec(cfg, longer[..n]), longer[n], id);
      }
    }
  }

  /** Such a row is never repaired: once its request is answered, it stays pending without
      a message in every continuation. */
  lemma OrphanStays(cfg: Config, run: seq<Action>, longer: seq<Action>, id: JobId, s: State, t: State)
    requires run <= longer && Reaches(cfg, run, s) && Reaches(cfg, longer, t)
    requires id in s.requests && s.requests[id].Submission? && s.requests[id].pc.Answered?
    requires id in s.jobs && id !in s.enqueued
    ensures id in t.jobs && t.jobs[id].status == Pending && id !in t.enqueued
  {
    assert Exec(cfg, run) == s && Exec(cfg, longer) == t;
    AnsweredStays(cfg, run, longer, id);
    ServedSoFar(cfg, run, id, s);
    ServedSoFar(cfg, longer, id, t);
  }

  /** The reply to the publish decides. */
  lemma PublishDecides(cfg: Config, run: seq<Action>, id: JobId, reply: Reply, s: State, t: State)
    requires Reaches(cfg, run, s) && Reaches(cfg, run + [Gateway(id, reply)], t)
    requires id in s.requests && s.requests[id].Submission? && s.requests[id].pc.PublishJob?
    ensures id in t.jobs && (id in t.enqueued <==> reply.Applied())
  {
    assert Exec(cfg, run) == s && Exec(cfg, run + [Gateway(id, reply)]) == t;
    ExecOne(cfg, run, Gateway(id, reply));
    ServedSoFar(cfg, run, id, s);
    OwnServed(cfg, s, id, reply, History(cfg, run, id), t);
  }

  /** The request was answered with this code; its row is pending, and no queue holds
      anything. */
  predicate Orphan(s: State, id: JobId, code: nat) {
    && id in s.jobs && s.jobs[id].status.Pending? && id !in s.enqueued && s.copies == multiset{}
    && id in s.requests && s.requests[id].Submission? && s.requests[id].pc == Answered(code)
  }

  lemma SubmitThen(cfg: Config, id: JobId, kind: Kind, filename: string, operations: seq<string>, params: Params,
                   upload: Bytes, insert: Reply)
    returns (run: seq<Action>)
    requires Keys.SlashFree(id) && insert.Applied()
    ensures var s := Exec(cfg, run);
      && id in s.jobs && s.jobs[id].status.Pending? && id !in s.enqueued && s.copies == multiset{}
      && id in s.requests && s.workers == map[]
      && s.requests[id] == Submission(Job(id, kind, UploadKey(id, Keys.Sanitize(filename)), operations, params),
                                      upload, if insert.Done? then PublishJob else Answered(500))
    ensures forall a :: a in run ==> a.Submit? || a.Gateway?
  {
    var a := Submit(id, kind, filename, operations, params, upload);
    ExecOne(cfg, [], a);
    ExecOne(cfg, [] + [a], Gateway(id, Done));
    ExecOne(cfg, [] + [a] + [Gateway(id, Done)], Gateway(id, insert));
    run := [] + [a] + [Gateway(id, Done)] + [Gateway(id, insert)];
  }

  /** So "every pending row has a message" fails: for any upload there is a run that ends
      with a refused publish, and one that ends with an insert reported as failed, each
      leaving a pending row that no queue holds a message for. */
  lemma PendingWithoutMessage(cfg: Config, id: JobId, kind: Kind, filename: string, operations: seq<string>,
                              params: Params, upload: Bytes)
    requires Keys.SlashFree(id)
    ensures exists run, s: State :: Reaches(cfg, run, s) && Orphan(s, id, 502)
    ensures exists run, s: State :: Reaches(cfg, run, s) && Orphan(s, id, 500)
  {
    var run := SubmitThen(cfg, id, kind, filename, operations, params, upload, Done);
    ExecOne(cfg, run, Gateway(id, Refused));
    var refused := run + [Gateway(id, Refused)];
    assert Reaches(cfg, refused, Exec(cfg, refused));
    var torn := SubmitThen(cfg, id, kind, filename, operations, params, upload, Torn);
    assert Reaches(cfg, torn, Exec(cfg, torn));
  }
}
