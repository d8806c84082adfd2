/** The success path end to end: without faults an attempt completes its job. */
module Outcomes {
  import opened Media
  import opened Processor
  import opened Pipeline
  import opened Integrity
  import opened Custody
  import opened Retries
  import Progress

  // ---- the success path ----

  /** With every effect done, an attempt on a processable job keeps to the success path. */
  lemma DoneStaysClean(cfg: Config, s: State, h: Handler)
    requires Inv(cfg, s) && HandlerOk(cfg, s, h) && VerdictOk(cfg, s, h) && h.cause.NoCause? && h.linked
    requires h.msg.body.Wire? && Expected(cfg, s, h.msg.id).Some? && !Settling(h.pc)
    ensures SeenOk(s, h, Done) && !h.pc.Raised?
    ensures Advance(cfg, s, h, Done).cause.NoCause?
  {
    assert SubmissionOk(s, h.msg.id, s.requests[h.msg.id]);
    assert h.pc.Transform? ==> Expected(cfg, s, h.msg.id) == Run(cfg.codec, JobOf(h), h.source);
  }

  ghost predicate Clean(cfg: Config, s: State, slot: nat, id: JobId) {
    && slot in s.workers && Expected(cfg, s, id).Some?
    && var h := s.workers[slot];
       h.msg.id == id && h.msg.body.Wire? && h.linked && h.cause.NoCause? && !h.pc.Raised?
  }

  lemma CleanStep(cfg: Config, s: State, slot: nat, id: JobId, t: State)
    requires Inv(cfg, s) && AttemptsOk(cfg, s) && Clean(cfg, s, slot, id) && !Settling(s.workers[slot].pc)
    requires t == Step(cfg, s, Work(slot, Done))
    ensures Clean(cfg, t, slot, id)
    ensures Expected(cfg, t, id) == Expected(cfg, s, id)
    ensures Progress.Rank(t.workers[slot], Progress.Width(s.requests[id]))
      < Progress.Rank(s.workers[slot], Progress.Width(s.requests[id])) && t.requests == s.requests
  {
    var h := s.workers[slot];
    var h' := Advance(cfg, s, h, Done);
    assert HandlerOk(cfg, s, h) && AttemptOk(cfg, s, h);
    DoneStaysClean(cfg, s, h);
    Progress.RankDrops(cfg, s, h, Done);
    EffectFrame(s, h, Done);
    NextMoves(cfg, h, SeenOk(s, h, Done), StatusRead(s, h), DataRead(s, h), h');
    Progress.DoneNeverRaises(cfg, h, StatusRead(s, h), DataRead(s, h));
    assert t.workers[slot] == h';
  }

  lemma CleanSettles(cfg: Config, s: State, slot: nat, id: JobId, t: State)
    requires AttemptsOk(cfg, s) && Clean(cfg, s, slot, id) && Settling(s.workers[slot].pc)
    requires t == Step(cfg, s, Work(slot, Done))
    ensures id in t.settled && t.settled[id] == Succeeded && id in t.everCompleted
  {
    assert AttemptOk(cfg, s, s.workers[slot]);
    assert t == Settle(s, slot);
  }

  predicate Success(s: State, id: JobId) {
    id in s.settled && s.settled[id] == Succeeded && id in s.everCompleted
  }

  /** The run goes on by fault-free steps of this attempt alone. */
  predicate OnlyDone(run: seq<Action>, longer: seq<Action>, slot: nat) {
    run <= longer && forall i :: |run| <= i < |longer| ==> longer[i] == Work(slot, Done)
  }

  lemma {:induction false} FaultFreeRun(cfg: Config, run: seq<Action>, slot: nat, id: JobId)
    returns (longer: seq<Action>)
    requires Clean(cfg, Exec(cfg, run), slot, id)
    ensures OnlyDone(run, longer, slot)
    ensures var t := Exec(cfg, longer); id in t.settled && t.settled[id] == Succeeded && id in t.everCompleted
    decreases Progress.Rank(Exec(cfg, run).workers[slot], Progress.Width(Exec(cfg, run).requests[id]))
  {
    var s := Exec(cfg, run);
    var a := Work(slot, Done);
    Reachable(cfg, run);
    BooksBalance(cfg, run);
    Progress.OneMore(cfg, run, a, id);
    if Settling(s.workers[slot].pc) {
      longer := run + [a];
      CleanSettles(cfg, s, slot, id, Exec(cfg, longer));
    } else {
      CleanStep(cfg, s, slot, id, Exec(cfg, run + [a]));
      longer := FaultFreeRun(cfg, run + [a], slot, id);
    }
  }

  /** A delivery attempt on a processable job in which every effect is done completes
      the job and settles the message by success. */
  lemma FaultFreeAttemptSucceeds(cfg: Config, run: seq<Action>, slot: nat, id: JobId, s: State)
    requires Reaches(cfg, run, s) && Clean(cfg, s, slot, id)
    ensures exists longer: seq<Action>, t: State ::
      OnlyDone(run, longer, slot) && Reaches(cfg, longer, t) && Success(t, id)
  {
    assert Exec(cfg, run) == s;
    var longer := FaultFreeRun(cfg, run, slot, id);
    assert Reaches(cfg, longer, Exec(cfg, longer));
  }
}
