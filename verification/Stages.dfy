/** The stage the browser shows: it folds the statuses it hears, never stepping down in
    rank. What that shows of any stream, when order matters, and what it shows of the
    stream of a job. */
module Stages {
  import opened Media
  import opened Pipeline
  import opened Integrity
  import opened Custody
  import opened Retries
  import opened Exclusive
  import opened Traces
  import opened Streams

  datatype Stage = Idle | Showing(status: Status)

  function Rank(g: Stage): nat {
    match g
    case Idle => 0
    case Showing(Pending) => 1
    case Showing(Processing) => 2
    case Showing(_) => 3
  }

  function Advance(g: Stage, b: Status): Stage {
    if Rank(Showing(b)) >= Rank(g) then Showing(b) else g
  }

  /** The stage after hearing the statuses bs, in that order. */
  function Show(g: Stage, bs: seq<Status>): Stage {
    if bs == [] then g else Advance(Show(g, bs[..|bs| - 1]), bs[|bs| - 1])
  }

  predicate Terminal(b: Status) { b.Completed? || b.Failed? }

  function LastTerminal(bs: seq<Status>): Option<Status> {
    if bs == [] then None
    else if Terminal(bs[|bs| - 1]) then Some(bs[|bs| - 1])
    else LastTerminal(bs[..|bs| - 1])
  }

  // ---- any stream ----

  /** Hearing more never lowers the rank. */
  lemma {:induction false} NeverLowers(g: Stage, bs: seq<Status>, more: seq<Status>)
    ensures Rank(Show(g, bs + more)) >= Rank(Show(g, bs))
  {
    if more == [] {
      assert bs + more == bs;
    } else {
      var n := |more| - 1;
      assert (bs + more)[..|bs + more| - 1] == bs + more[..n];
      NeverLowers(g, bs, more[..n]);
    }
  }

  lemma {:induction false} TerminalHeard(bs: seq<Status>)
    ensures LastTerminal(bs).Some? <==> Completed in bs || Failed in bs
    ensures LastTerminal(bs).Some? ==> LastTerminal(bs).value in bs && Terminal(LastTerminal(bs).value)
  {
    if bs != [] {
      TerminalHeard(bs[..|bs| - 1]);
      assert bs == bs[..|bs| - 1] + [bs[|bs| - 1]];
    }
  }

  /** What is shown, exactly: the last terminal status if one was heard; else, from a
      stage that is not terminal itself, the highest status heard. */
  lemma {:induction false} WhatIsShown(g: Stage, bs: seq<Status>)
    ensures Show(g, bs) ==
      if LastTerminal(bs).Some? then Showing(LastTerminal(bs).value)
      else if Rank(g) == 3 then g
      else if Processing in bs then Showing(Processing)
      else if Pending in bs && Rank(g) <= 1 then Showing(Pending)
      else g
  {
    if bs != [] {
      WhatIsShown(g, bs[..|bs| - 1]);
      TerminalHeard(bs[..|bs| - 1]);
      assert bs == bs[..|bs| - 1] + [bs[|bs| - 1]];
    }
  }

  lemma MovedToEnd(bs: seq<Status>, i: nat) returns (other: seq<Status>)
    requires i < |bs| && Terminal(bs[i])
    ensures multiset(other) == multiset(bs) && LastTerminal(other) == Some(bs[i])
  {
    other := bs[..i] + bs[i + 1..] + [bs[i]];
    assert bs == bs[..i] + ([bs[i]] + bs[i + 1..]);
    assert other[|other| - 1] == bs[i];
  }

  ghost predicate OrderImmaterial(g: Stage, bs: seq<Status>) {
    forall other: seq<Status> :: multiset(other) == multiset(bs) ==> Show(g, other) == Show(g, bs)
  }

  lemma SameContents(bs: seq<Status>, other: seq<Status>, b: Status)
    requires multiset(other) == multiset(bs)
    ensures b in other <==> b in bs
  {
    assert b in multiset(other) <==> b in multiset(bs);
  }

  /** Completed and failed share a rank, so the order of a stream matters exactly when
      it holds both. */
  lemma OrderMattersIff(g: Stage, bs: seq<Status>)
    ensures OrderImmaterial(g, bs) <==> !(Completed in bs && Failed in bs)
  {
    TerminalHeard(bs);
    WhatIsShown(g, bs);
    if Completed in bs && Failed in bs {
      var flip := if LastTerminal(bs) == Some(Completed) then Failed else Completed;
      var i :| 0 <= i < |bs| && bs[i] == flip;
      var other := MovedToEnd(bs, i);
      WhatIsShown(g, other);
    } else {
      forall other: seq<Status> | multiset(other) == multiset(bs) ensures Show(g, other) == Show(g, bs) {
        TerminalHeard(other);
        WhatIsShown(g, other);
        SameContents(bs, other, Completed);
        SameContents(bs, other, Failed);
        SameContents(bs, other, Processing);
        SameContents(bs, other, Pending);
      }
    }
  }

  // ---- the stream of a job ----

  function Statuses(events: seq<Event>): seq<Status> {
    seq(|events|, i requires 0 <= i < |events| => events[i].status)
  }

  predicate AboutToTell(s: State, loc: Location) {
    loc.Held? && loc.slot in s.workers && s.workers[loc.slot].pc.TellCompleted?
  }

  /** A completion in a job's stream is its last event, its row says completed, and no
      other completion is about to be announced. */
  ghost predicate Closes(stream: seq<Event>, row: Option<Status>, about: bool) {
    && (about ==> row == Some(Completed))
    && (forall i :: 0 <= i < |stream| && stream[i].status.Completed? ==>
          i == |stream| - 1 && row == Some(Completed) && !about)
  }

  ghost predicate Final(s: State, id: JobId, loc: Location) {
    Closes(EventsOf(s, id), StatusOf(s, id), AboutToTell(s, loc))
  }

  lemma StillCloses(stream: seq<Event>, row: Option<Status>, about: bool, row': Option<Status>, about': bool)
    requires Closes(stream, row, about)
    requires row == Some(Completed) ==> row' == Some(Completed) && (about' ==> about)
    requires about' ==> row' == Some(Completed)
    ensures Closes(stream, row', about')
  {
  }

  /** An announcement: a completion only if one was due, and after one nothing is due. */
  lemma AnnouncedCloses(stream: seq<Event>, row: Option<Status>, about: bool, e: Event, row': Option<Status>,
                        about': bool)
    requires Closes(stream, row, about) && !about'
    requires e.status.Completed? <==> about
    requires row == Some(Completed) ==> row' == Some(Completed) && about
    ensures Closes(stream + [e], row', about')
  {
  }

  lemma CompletionEvent(h: Handler)
    requires Tells(h)
    ensures EventAt(h).status.Completed? <==> h.pc.TellCompleted?
    ensures EventAt(h).job == JobOf(h).id
    ensures Quiet(h.pc) ==> h.pc.TellCompleted?
  {
  }

  lemma OwnEvent(cfg: Config, s: State, a: Action, id: JobId, loc: Location, t: State)
    requires Inv(cfg, s) && Final(s, id, loc) && Resting(s, id, loc) && Faithful(s, a)
    requires OwnWork(s, a, id) && loc == Held(a.slot) && s.workers[a.slot].linked && t == Step(cfg, s, a)
    requires StatusOf(s, id) == Some(Completed) ==> StatusOf(t, id) == Some(Completed)
    requires Tells(s.workers[a.slot])
    ensures Final(t, id, loc)
  {
    var h := s.workers[a.slot];
    var e, stream, about := EventAt(h), EventsOf(s, id), AboutToTell(s, loc);
    assert HandlerOk(cfg, s, h);
    OwnJob(cfg, s, h);
    EventsStep(cfg, s, a, t);
    FilterLast(s.events, e, id);
    WorkerAfter(cfg, s, a.slot, a.reply, t);
    OnlyAfterCompleting(cfg, h, SeenOk(s, h, a.reply), StatusRead(s, h), DataRead(s, h));
    CompletionEvent(h);
    AnnouncedCloses(stream, StatusOf(s, id), about, e, StatusOf(t, id), AboutToTell(t, loc));
  }

  lemma OnlyAfterCompleting(cfg: Config, h: Handler, ok: bool, status: Option<Status>, data: Bytes)
    requires h.msg.body.Wire? && !Settling(h.pc) && !h.pc.Raised?
    ensures Next(cfg, h, ok, status, data).pc.TellCompleted? ==> h.pc.SetCompleted? && ok
  {
    if !h.pc.Begin? {
      assert GoNext(cfg, h, ok, status, data).pc.TellCompleted? ==> h.pc.SetCompleted? && ok;
      assert PyNext(cfg, h, ok, status, data).pc.TellCompleted? ==> h.pc.SetCompleted? && ok;
    }
  }

  lemma OwnSilent(cfg: Config, s: State, a: Action, id: JobId, loc: Location, t: State)
    requires Inv(cfg, s) && Final(s, id, loc) && Resting(s, id, loc) && Faithful(s, a)
    requires OwnWork(s, a, id) && loc == Held(a.slot) && t == Step(cfg, s, a)
    requires StatusOf(s, id) == Some(Completed) ==> StatusOf(t, id) == Some(Completed)
    requires !Tells(s.workers[a.slot]) && s.workers[a.slot].msg.body.Wire? && id in s.jobs
    ensures Final(t, id, loc)
  {
    var h := s.workers[a.slot];
    EventsStep(cfg, s, a, t);
    WorkerAfter(cfg, s, a.slot, a.reply, t);
    OnlyAfterCompleting(cfg, h, SeenOk(s, h, a.reply), StatusRead(s, h), DataRead(s, h));
    WorkStatus(cfg, s, a.slot, a.reply, id, t);
    StillCloses(EventsOf(s, id), StatusOf(s, id), AboutToTell(s, loc), StatusOf(t, id), AboutToTell(t, loc));
  }

  lemma OtherFinal(cfg: Config, s: State, a: Action, id: JobId, loc: Location, t: State, next: Location)
    requires Inv(cfg, s) && Final(s, id, loc) && At(s, id, loc) && AllLinked(s) && Faithful(s, a) && !OwnWork(s, a, id)
    requires t == Step(cfg, s, a) && next == NextLoc(s, a, id, loc) && Enabled(s, a)
    requires StatusOf(s, id) == Some(Completed) ==> StatusOf(t, id) == Some(Completed)
    ensures Final(t, id, next)
  {
    OtherEvents(cfg, s, a, id, t);
    if AboutToTell(t, next) {
      HolderPc(cfg, s, a, id, loc, t, next);
    }
    StillCloses(EventsOf(s, id), StatusOf(s, id), AboutToTell(s, loc), StatusOf(t, id), AboutToTell(t, next));
  }

  lemma HolderPc(cfg: Config, s: State, a: Action, id: JobId, loc: Location, t: State, next: Location)
    requires At(s, id, loc) && Enabled(s, a) && t == Step(cfg, s, a) && next == NextLoc(s, a, id, loc)
    requires !a.Disconnect? && AllLinked(s) && !OwnWork(s, a, id) && next.Held?
    ensures AboutToTell(t, next) ==> AboutToTell(s, loc) && loc == next
  {
    if a.Deliver? {
      DeliverFrame(cfg, s, a.copy, a.slot, t);
    } else if a.Work? {
      WorkLeavesOthers(cfg, s, a.slot, a.reply, loc, t);
    } else {
      MoveLeavesHolder(cfg, s, a, next.slot, t);
    }
  }

  lemma StepFinal(cfg: Config, s: State, a: Action, id: JobId, loc: Location, t: State, next: Location)
    requires Inv(cfg, s) && Final(s, id, loc) && Resting(s, id, loc) && At(s, id, loc) && AllLinked(s) && Faithful(s, a)
    requires t == Step(cfg, s, a) && next == NextLoc(s, a, id, loc)
    requires id in s.requests ==> s.requests[id].Submission?
    ensures Final(t, id, next)
  {
    StepRests(cfg, s, a, id, loc, t, next);
    if Enabled(s, a) {
      if OwnWork(s, a, id) {
        OwnWorkHolds(s, a, id, loc);
        assert HandlerOk(cfg, s, s.workers[a.slot]) && SubmissionOk(s, id, s.requests[id]);
        if Tells(s.workers[a.slot]) {
          OwnEvent(cfg, s, a, id, loc, t);
        } else {
          OwnSilent(cfg, s, a, id, loc, t);
        }
      } else {
        OtherFinal(cfg, s, a, id, loc, t, next);
      }
    }
  }

  lemma {:induction false} FinalSoFar(cfg: Config, run: seq<Action>, id: JobId, s: State, loc: Location)
    requires Always(cfg, run, Faithful) && s == Exec(cfg, run) && loc == Where(cfg, run, id)
    ensures (id in s.requests && s.requests[id].Foreign?) || Final(s, id, loc)
  {
    if run != [] {
      var n := |run| - 1;
      var prev, a, from := Exec(cfg, run[..n]), run[n], Where(cfg, run[..n], id);
      FinalSoFar(cfg, run[..n], id, prev, from);
      RestingSoFar(cfg, run[..n], id, prev, from);
      Reachable(cfg, run[..n]);
      TokenIsThere(cfg, run[..n], id);
      StepKeeps(cfg, prev, a);
      if !(id in s.requests && s.requests[id].Foreign?) {
        StepFinal(cfg, prev, a, id, from, s, loc);
      }
    }
  }

  /** In a faithful run a completion is published at most once and is the last event of
      its job, whatever crashes, redeliveries and retries there are and whichever other
      announcements are lost. So a browser that hears the stream in order shows completed
      exactly if a completion was published, and if not, failed exactly if a failure was. */
  lemma StageTellsOutcome(cfg: Config, run: seq<Action>, id: JobId, s: State)
    requires Throughout(cfg, run, Faithful) && Reaches(cfg, run, s)
    requires id in s.requests && s.requests[id].Submission?
    ensures forall i :: 0 <= i < |EventsOf(s, id)| && EventsOf(s, id)[i].status.Completed? ==>
      i == |EventsOf(s, id)| - 1 && StatusOf(s, id) == Some(Completed)
    ensures var heard := Statuses(EventsOf(s, id)); var shown := Show(Showing(Pending), heard);
      && (shown == Showing(Completed) <==> Completed in heard)
      && (shown == Showing(Failed) <==> Failed in heard && Completed !in heard)
  {
    assert Always(cfg, run, Faithful) && Exec(cfg, run) == s;
    FinalSoFar(cfg, run, id, s, Where(cfg, run, id));
    var heard := Statuses(EventsOf(s, id));
    WhatIsShown(Showing(Pending), heard);
    TerminalHeard(heard);
    if Completed in heard {
      var i :| 0 <= i < |heard| && heard[i] == Completed;
      assert EventsOf(s, id)[i].status.Completed?;
    }
  }
}
