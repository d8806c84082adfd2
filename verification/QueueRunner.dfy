/** The browser's queue runner: items are submitted one at a time by an asynchronous
    function guarded by a running flag, while the user keeps adding and clearing items.
    Steps are the turns of the event loop; a frame is a suspended call of the runner. */
module QueueRunners {
  import opened Media

  datatype ItemStatus = Queued | Active | DoneItem | ErrorItem

  /** Ids are drawn from a counter. */
  datatype Item = Item(id: nat, status: ItemStatus)

  /** What a request of the runner came back with. */
  datatype Reply = Rejected | Accepted | Seen(status: Status) | PollFailed

  /** Where a suspended runner waits: for the submission, for the poll of this attempt,
      for the timer before it, for the poll promise to resume it, or, with the item
      finished, for the return of processItem. */
  datatype Phase = Submitting | Requested(attempt: nat) | Waiting(attempt: nat) | Resolved(final: Status) | Finishing

  datatype Frame = Frame(id: nat, phase: Phase)

  /** log: replies by item; activated: items in the order they became active. */
  datatype Runner = Runner(
    queue: seq<Item>, running: bool, frames: seq<Frame>, count: nat,
    activated: seq<nat>, log: map<nat, seq<Reply>>)

  const LAST_ATTEMPT: nat := 90

  // ---- the code, as functions on the state ----

  function Patch(q: seq<Item>, id: nat, status: ItemStatus): seq<Item> {
    seq(|q|, i requires 0 <= i < |q| => if q[i].id == id then q[i].(status := status) else q[i])
  }

  function FirstQueued(q: seq<Item>): (i: nat)
    ensures i <= |q| && (i < |q| ==> q[i].status.Queued?)
    ensures forall k :: 0 <= k < i ==> !q[k].status.Queued?
  {
    if q == [] || q[0].status.Queued? then 0 else 1 + FirstQueued(q[1..])
  }

  function Started(r: Runner): Runner {
    var i := FirstQueued(r.queue);
    if r.running || i == |r.queue| then r
    else
      var id := r.queue[i].id;
      r.(running := true, queue := Patch(r.queue, id, Active), frames := r.frames + [Frame(id, Submitting)],
         activated := r.activated + [id], log := r.log[id := []])
  }

  function NewItems(from: nat, n: nat): seq<Item> {
    seq(n, i requires 0 <= i < n => Item(from + i, Queued))
  }

  function Enqueued(r: Runner, n: nat): Runner {
    Started(r.(queue := r.queue + NewItems(r.count, n), count := r.count + n))
  }

  predicate Unfinished(it: Item) { it.status.Queued? || it.status.Active? }

  function Kept(q: seq<Item>): (kept: seq<Item>)
    ensures forall it :: it in kept <==> it in q && Unfinished(it)
  {
    if q == [] then [] else (if Unfinished(q[0]) then [q[0]] else []) + Kept(q[1..])
  }

  function Logged(r: Runner, id: nat, reply: Reply): map<nat, seq<Reply>> {
    r.log[id := (if id in r.log then r.log[id] else []) + [reply]]
  }

  /** The submission settles. */
  function Submitted(r: Runner, k: nat, ok: bool): Runner
    requires k < |r.frames|
  {
    var id := r.frames[k].id;
    if ok then r.(frames := r.frames[k := Frame(id, Requested(0))], log := Logged(r, id, Accepted))
    else r.(frames := r.frames[k := Frame(id, Finishing)], queue := Patch(r.queue, id, ErrorItem),
            log := Logged(r, id, Rejected))
  }

  predicate TerminalStatus(s: Status) { s.Completed? || s.Failed? }

  /** A poll settles: with a terminal status, with another one, or by failing. */
  function Polled(r: Runner, k: nat, reply: Reply): Runner
    requires k < |r.frames| && r.frames[k].phase.Requested?
  {
    var id, a := r.frames[k].id, r.frames[k].phase.attempt;
    var next := if reply.Seen? && TerminalStatus(reply.status) then Resolved(reply.status)
                else if a < LAST_ATTEMPT then Waiting(a + 1)
                else Resolved(Failed);
    r.(frames := r.frames[k := Frame(id, next)], log := Logged(r, id, reply))
  }

  function Ticked(r: Runner, k: nat): Runner
    requires k < |r.frames| && r.frames[k].phase.Waiting?
  {
    r.(frames := r.frames[k := Frame(r.frames[k].id, Requested(r.frames[k].phase.attempt))])
  }

  /** processItem goes on after the poll promise. */
  function Resumed(r: Runner, k: nat): Runner
    requires k < |r.frames| && r.frames[k].phase.Resolved?
  {
    var id, final := r.frames[k].id, r.frames[k].phase.final;
    r.(frames := r.frames[k := Frame(id, Finishing)],
       queue := Patch(r.queue, id, if final.Completed? then DoneItem else ErrorItem))
  }

  predicate SomeQueued(q: seq<Item>) { exists i :: 0 <= i < |q| && q[i].status.Queued? }

  /** runNext goes on after processItem. */
  function Finished(r: Runner, k: nat): Runner
    requires k < |r.frames|
  {
    var idle := r.(frames := r.frames[..k] + r.frames[k + 1..], running := false);
    if SomeQueued(idle.queue) then Started(idle) else idle
  }

  // ---- turns ----

  datatype Turn =
    | UserEnqueues(n: nat)
    | UserClears
    | SubmitSettles(k: nat, ok: bool)
    | PollSettles(k: nat, reply: Reply)
    | TimerFires(k: nat)
    | Resumes(k: nat)
    | Returns(k: nat)

  predicate Enabled(r: Runner, t: Turn) {
    match t
    case UserEnqueues(_) => true
    case UserClears => true
    case SubmitSettles(k, _) => k < |r.frames| && r.frames[k].phase.Submitting?
    case PollSettles(k, reply) => k < |r.frames| && r.frames[k].phase.Requested? && (reply.Seen? || reply.PollFailed?)
    case TimerFires(k) => k < |r.frames| && r.frames[k].phase.Waiting?
    case Resumes(k) => k < |r.frames| && r.frames[k].phase.Resolved?
    case Returns(k) => k < |r.frames| && r.frames[k].phase.Finishing?
  }

  function Take(r: Runner, t: Turn): Runner
    requires Enabled(r, t)
  {
    match t
    case UserEnqueues(n) => Enqueued(r, n)
    case UserClears => r.(queue := Kept(r.queue))
    case SubmitSettles(k, ok) => Submitted(r, k, ok)
    case PollSettles(k, reply) => Polled(r, k, reply)
    case TimerFires(k) => Ticked(r, k)
    case Resumes(k) => Resumed(r, k)
    case Returns(k) => Finished(r, k)
  }

  const Fresh: Runner := Runner([], false, [], 0, [], map[])

  function Next(r: Runner, t: Turn): Runner { if Enabled(r, t) then Take(r, t) else r }

  function Play(turns: seq<Turn>): Runner {
    if turns == [] then Fresh else Next(Play(turns[..|turns| - 1]), turns[|turns| - 1])
  }

  // ---- invariant ----

  predicate NonTerminal(reply: Reply) { reply.PollFailed? || (reply.Seen? && !TerminalStatus(reply.status)) }

  /** Accepted, and no poll so far found the job in a terminal state. */
  ghost predicate Polling(log: seq<Reply>) {
    log != [] && log[0] == Accepted && forall i :: 1 <= i < |log| ==> NonTerminal(log[i])
  }

  /** All that was ever asked for an item: a rejected submission, or polls up to the first
      terminal answer, at most 91 of them. */
  ghost predicate Over(log: seq<Reply>) {
    || log == [Rejected]
    || (2 <= |log| <= LAST_ATTEMPT + 2 && Polling(log[..|log| - 1])
        && (if log[|log| - 1].Seen? && TerminalStatus(log[|log| - 1].status) then true
            else NonTerminal(log[|log| - 1]) && |log| == LAST_ATTEMPT + 2))
  }

  predicate Succeeded(log: seq<Reply>) { log != [] && log[|log| - 1] == Seen(Completed) }

  ghost predicate LogAt(phase: Phase, log: seq<Reply>) {
    match phase
    case Submitting => log == []
    case Requested(a) => a <= LAST_ATTEMPT && Polling(log) && |log| == a + 1
    case Waiting(a) => a <= LAST_ATTEMPT && Polling(log) && |log| == a + 1
    case Resolved(final) => Over(log) && (final.Completed? <==> Succeeded(log))
    case Finishing => Over(log)
  }

  ghost predicate Sorted(q: seq<Item>) { forall i, j :: 0 <= i < j < |q| ==> q[i].id < q[j].id }

  /** The item a frame is still working on. */
  predicate Busy(r: Runner, id: nat) {
    |r.frames| == 1 && r.frames[0].id == id && !r.frames[0].phase.Finishing?
  }

  ghost predicate StatusOk(r: Runner, it: Item) {
    match it.status
    case Queued => |r.activated| <= it.id < r.count
    case Active => Busy(r, it.id)
    case DoneItem => it.id in r.log && !Busy(r, it.id) && Succeeded(r.log[it.id])
    case ErrorItem => it.id in r.log && !Busy(r, it.id) && !Succeeded(r.log[it.id])
  }

  ghost predicate QueueOk(r: Runner) {
    && Sorted(r.queue)
    && (forall it :: it in r.queue ==> StatusOk(r, it))
    && (forall id: nat :: |r.activated| <= id < r.count ==> Item(id, Queued) in r.queue)
    && (forall id :: Busy(r, id) ==> Item(id, Active) in r.queue)
  }

  ghost predicate LogsOk(r: Runner) {
    && (forall id: nat :: id < |r.activated| <==> id in r.log)
    && (forall id :: id in r.log && !(|r.frames| == 1 && r.frames[0].id == id) ==> Over(r.log[id]))
    && (forall k :: 0 <= k < |r.frames| ==> r.frames[k].id in r.log && LogAt(r.frames[k].phase, r.log[r.frames[k].id]))
  }

  ghost predicate FramesOk(r: Runner) {
    && |r.frames| == (if r.running then 1 else 0)
    && (r.running ==> r.frames[0].id == |r.activated| - 1)
    && |r.activated| <= r.count && (!r.running ==> |r.activated| == r.count)
    && (forall i :: 0 <= i < |r.activated| ==> r.activated[i] == i)
  }

  ghost predicate Inv(r: Runner) { FramesOk(r) && LogsOk(r) && QueueOk(r) }

  // ---- the runner starts an item ----

  lemma PatchHas(q: seq<Item>, id: nat, status: ItemStatus)
    ensures Sorted(q) ==> Sorted(Patch(q, id, status))
    ensures forall it: Item :: it in Patch(q, id, status) <==>
      (if it.id == id then it.status == status && exists o :: o in q && o.id == id else it in q)
  {
    var p := Patch(q, id, status);
    forall it: Item | it in p
      ensures if it.id == id then it.status == status && exists o :: o in q && o.id == id else it in q
    {
      var i :| 0 <= i < |p| && p[i] == it;
      assert q[i] in q;
    }
    forall it: Item | (if it.id == id then it.status == status && exists o :: o in q && o.id == id else it in q)
      ensures it in p
    {
      if it.id == id {
        var o :| o in q && o.id == id;
        var i :| 0 <= i < |q| && q[i] == o;
        assert p[i] == it;
      } else {
        var i :| 0 <= i < |q| && q[i] == it;
        assert p[i] == it;
      }
    }
  }

  /** Everything but the wakeup: some queued item may still be waiting although the runner
      is idle. */
  ghost predicate Idle(r: Runner) {
    && !r.running && r.frames == [] && |r.activated| <= r.count
    && (forall i :: 0 <= i < |r.activated| ==> r.activated[i] == i)
    && LogsOk(r) && QueueOk(r)
  }

  /** The first queued item is the next in the order of enqueueing. */
  lemma FirstIsNext(r: Runner)
    requires Idle(r)
    ensures FirstQueued(r.queue) == |r.queue| <==> |r.activated| == r.count
    ensures FirstQueued(r.queue) < |r.queue| ==> r.queue[FirstQueued(r.queue)] == Item(|r.activated|, Queued)
    ensures SomeQueued(r.queue) <==> FirstQueued(r.queue) < |r.queue|
  {
    var i, n := FirstQueued(r.queue), |r.activated|;
    if n < r.count {
      assert Item(n, Queued) in r.queue;
      var k :| 0 <= k < |r.queue| && r.queue[k] == Item(n, Queued);
      assert i <= k && r.queue[i] in r.queue;
    } else {
      forall k | 0 <= k < |r.queue| ensures !r.queue[k].status.Queued? {
        assert r.queue[k] in r.queue && StatusOk(r, r.queue[k]);
      }
    }
  }

  lemma StartQueue(r: Runner, t: Runner)
    requires Idle(r) && |r.activated| < r.count && Item(|r.activated|, Queued) in r.queue
    requires t.queue == Patch(r.queue, |r.activated|, Active) && t.frames == [Frame(|r.activated|, Submitting)]
    requires |t.activated| == |r.activated| + 1 && t.count == r.count && t.log == r.log[|r.activated| := []]
    ensures QueueOk(t)
  {
    var n := |r.activated|;
    PatchHas(r.queue, n, Active);
    forall it | it in t.queue ensures StatusOk(t, it) {
      if it.id != n {
        assert it in r.queue && StatusOk(r, it);
      }
    }
  }

  lemma StartedKeeps(r: Runner)
    requires Idle(r)
    ensures Inv(Started(r))
  {
    FirstIsNext(r);
    var t := Started(r);
    if FirstQueued(r.queue) < |r.queue| {
      assert r.queue[FirstQueued(r.queue)] in r.queue;
      StartQueue(r, t);
    }
  }

  // ---- the frame moves on ----

  /** A step of the frame that leaves the queue alone. */
  lemma FrameMoves(r: Runner, t: Runner, id: nat)
    requires Inv(r) && r.running && r.frames[0].id == id && !r.frames[0].phase.Finishing?
    requires t == r.(frames := t.frames, log := t.log)
    requires |t.frames| == 1 && t.frames[0].id == id && !t.frames[0].phase.Finishing?
    requires id in t.log && t.log.Keys == r.log.Keys && forall i :: i in r.log && i != id ==> t.log[i] == r.log[i]
    requires LogAt(t.frames[0].phase, t.log[id])
    ensures Inv(t)
  {
    forall it | it in t.queue ensures StatusOk(t, it) {
      assert StatusOk(r, it);
    }
  }

  /** The frame's item is done with. */
  lemma FrameEnds(r: Runner, t: Runner, id: nat, status: ItemStatus)
    requires Inv(r) && r.running && r.frames[0].id == id && !r.frames[0].phase.Finishing?
    requires t == r.(frames := [Frame(id, Finishing)], log := t.log, queue := Patch(r.queue, id, status))
    requires id in t.log && t.log.Keys == r.log.Keys && forall i :: i in r.log && i != id ==> t.log[i] == r.log[i]
    requires Over(t.log[id]) && status == if Succeeded(t.log[id]) then DoneItem else ErrorItem
    ensures Inv(t)
  {
    PatchHas(r.queue, id, status);
    assert Busy(r, id);
    forall it | it in t.queue ensures StatusOk(t, it) {
      if it.id != id {
        assert it in r.queue && StatusOk(r, it);
      }
    }
  }

  lemma SubmitKeeps(r: Runner, k: nat, ok: bool)
    requires Inv(r) && Enabled(r, SubmitSettles(k, ok))
    ensures Inv(Submitted(r, k, ok))
  {
    var id, t := r.frames[0].id, Submitted(r, k, ok);
    if ok {
      assert t.log[id] == [Accepted];
      FrameMoves(r, t, id);
    } else {
      assert t.log[id] == [Rejected];
      FrameEnds(r, t, id, ErrorItem);
    }
  }

  lemma PolledLog(log: seq<Reply>, a: nat, reply: Reply)
    requires a <= LAST_ATTEMPT && Polling(log) && |log| == a + 1 && (reply.Seen? || reply.PollFailed?)
    ensures NonTerminal(reply) ==> Polling(log + [reply])
    ensures !NonTerminal(reply) || a == LAST_ATTEMPT ==> Over(log + [reply])
    ensures Succeeded(log + [reply]) <==> reply == Seen(Completed)
  {
    assert (log + [reply])[..|log + [reply]| - 1] == log;
  }

  lemma PollKeeps(r: Runner, k: nat, reply: Reply)
    requires Inv(r) && Enabled(r, PollSettles(k, reply))
    ensures Inv(Polled(r, k, reply))
  {
    var id, a := r.frames[0].id, r.frames[0].phase.attempt;
    PolledLog(r.log[id], a, reply);
    FrameMoves(r, Polled(r, k, reply), id);
  }

  lemma ResumeKeeps(r: Runner, k: nat)
    requires Inv(r) && Enabled(r, Resumes(k))
    ensures Inv(Resumed(r, k))
  {
    var id := r.frames[0].id;
    FrameEnds(r, Resumed(r, k), id, if r.frames[0].phase.final.Completed? then DoneItem else ErrorItem);
  }

  lemma ReturnKeeps(r: Runner, k: nat)
    requires Inv(r) && Enabled(r, Returns(k))
    ensures Inv(Finished(r, k))
  {
    var idle := r.(frames := [], running := false);
    assert r.frames[..k] + r.frames[k + 1..] == [];
    forall it | it in idle.queue ensures StatusOk(idle, it) {
      assert StatusOk(r, it);
    }
    FirstIsNext(idle);
    StartedKeeps(idle);
  }

  // ---- the user ----

  lemma GrownQueue(r: Runner, n: nat, t: Runner)
    requires Inv(r)
    requires t == r.(queue := r.queue + NewItems(r.count, n), count := r.count + n)
    ensures QueueOk(t)
  {
    forall it | it in t.queue ensures StatusOk(t, it) {
      if it in r.queue {
        assert StatusOk(r, it);
      }
    }
    forall i, j | 0 <= i < j < |t.queue| ensures t.queue[i].id < t.queue[j].id {
      if i < |r.queue| {
        assert r.queue[i] in r.queue && StatusOk(r, r.queue[i]);
        assert r.queue[i].id < r.count;
      }
    }
    forall id: nat | |t.activated| <= id < t.count ensures Item(id, Queued) in t.queue {
      if id >= r.count {
        assert NewItems(r.count, n)[id - r.count] == Item(id, Queued);
      }
    }
  }

  lemma EnqueueKeeps(r: Runner, n: nat)
    requires Inv(r)
    ensures Inv(Enqueued(r, n))
  {
    var t := r.(queue := r.queue + NewItems(r.count, n), count := r.count + n);
    GrownQueue(r, n, t);
    SameLogs(r, t);
    assert Enqueued(r, n) == Started(t);
    if r.running {
      GrownFrames(r, t);
    } else {
      StartedKeeps(t);
    }
  }

  lemma GrownFrames(r: Runner, t: Runner)
    requires FramesOk(r) && r.running && LogsOk(t) && QueueOk(t) && r.count <= t.count
    requires t.running && t.frames == r.frames && t.activated == r.activated
    ensures Inv(Started(t))
  {
  }

  lemma SameLogs(r: Runner, t: Runner)
    requires LogsOk(r) && t.activated == r.activated && t.log == r.log && t.frames == r.frames
    ensures LogsOk(t)
  {
  }

  lemma {:induction false} KeptSorted(q: seq<Item>)
    requires Sorted(q)
    ensures Sorted(Kept(q))
  {
    if q != [] {
      KeptSorted(q[1..]);
      forall i | 0 <= i < |Kept(q[1..])| ensures q[0].id < Kept(q[1..])[i].id {
        assert Kept(q[1..])[i] in q[1..];
      }
    }
  }

  lemma ClearKeeps(r: Runner)
    requires Inv(r)
    ensures Inv(Take(r, UserClears))
  {
    var t := Take(r, UserClears);
    KeptSorted(r.queue);
    forall it | it in t.queue ensures StatusOk(t, it) {
      assert StatusOk(r, it);
    }
  }

  lemma TickKeeps(r: Runner, k: nat)
    requires Inv(r) && Enabled(r, TimerFires(k))
    ensures Inv(Ticked(r, k))
  {
    FrameMoves(r, Ticked(r, k), r.frames[0].id);
  }

  lemma StepKeeps(r: Runner, t: Turn)
    requires Inv(r)
    ensures Inv(Next(r, t))
  {
    if Enabled(r, t) {
      match t
      case UserEnqueues(n) => EnqueueKeeps(r, n);
      case UserClears => ClearKeeps(r);
      case SubmitSettles(k, ok) => SubmitKeeps(r, k, ok);
      case PollSettles(k, reply) => PollKeeps(r, k, reply);
      case TimerFires(k) => TickKeeps(r, k);
      case Resumes(k) => ResumeKeeps(r, k);
      case Returns(k) => ReturnKeeps(r, k);
    }
  }

  lemma {:induction false} Reachable(turns: seq<Turn>)
    ensures Inv(Play(turns))
  {
    if turns != [] {
      Reachable(turns[..|turns| - 1]);
      StepKeeps(Play(turns[..|turns| - 1]), turns[|turns| - 1]);
    }
  }

  // ---- main results ----

  /** No lost wakeup: over all interleavings, whenever the runner is idle no item is
      queued; at most one item is active at any time. */
  lemma NoLostWakeup(turns: seq<Turn>, r: Runner)
    requires r == Play(turns)
    ensures !r.running ==> !SomeQueued(r.queue)
    ensures |r.frames| == (if r.running then 1 else 0)
    ensures forall a, b :: a in r.queue && b in r.queue && a.status.Active? && b.status.Active? ==> a == b
  {
    Reachable(turns);
    if !r.running {
      forall i | 0 <= i < |r.queue| ensures !r.queue[i].status.Queued? {
        assert r.queue[i] in r.queue && StatusOk(r, r.queue[i]);
      }
    }
    forall a, b | a in r.queue && b in r.queue && a.status.Active? && b.status.Active? ensures a == b {
      assert StatusOk(r, a) && StatusOk(r, b);
    }
  }

  /** Items become active in the order they were enqueued, each exactly once, and none is
      skipped or dropped: an item not yet active is still queued. */
  lemma ActivatedInOrder(turns: seq<Turn>, r: Runner)
    requires r == Play(turns)
    ensures forall i :: 0 <= i < |r.activated| ==> r.activated[i] == i
    ensures forall id: nat :: |r.activated| <= id < r.count ==> Item(id, Queued) in r.queue
  {
    Reachable(turns);
  }

  /** Every item that was active and is so no longer was rejected on submission, or was
      accepted and then asked about until the job was completed or had failed, or 91 times;
      before that every answer was pending or processing or no answer at all. It shows done
      exactly if the last answer was completed. */
  lemma OutcomeIsHonest(turns: seq<Turn>, r: Runner, it: Item)
    requires r == Play(turns) && it in r.queue && (it.status.DoneItem? || it.status.ErrorItem?)
    ensures it.id in r.log && r.log[it.id] != []
    ensures var log := r.log[it.id]; var last := log[|log| - 1];
      log == [Rejected] ||
      (&& 2 <= |log| <= 92 && log[0] == Accepted
       && (forall i :: 1 <= i < |log| - 1 ==>
             log[i] == Seen(Pending) || log[i] == Seen(Processing) || log[i] == PollFailed)
       && (|| last == Seen(Completed) || last == Seen(Failed)
           || (|log| == 92 && (last == Seen(Pending) || last == Seen(Processing) || last == PollFailed))))
    ensures it.status.DoneItem? <==> r.log[it.id][|r.log[it.id]| - 1] == Seen(Completed)
  {
    Reachable(turns);
    assert StatusOk(r, it);
    OverMeans(r.log[it.id]);
  }

  /** The predicates on logs, in terms of the answers. */
  lemma OverMeans(log: seq<Reply>)
    requires Over(log)
    ensures log == [Rejected] || (2 <= |log| <= 92 && log[0] == Accepted)
    ensures forall i :: 1 <= i < |log| - 1 ==>
      log[i] == Seen(Pending) || log[i] == Seen(Processing) || log[i] == PollFailed
    ensures log != [Rejected] ==>
      var last := log[|log| - 1];
      last == Seen(Completed) || last == Seen(Failed) ||
      (|log| == 92 && (last == Seen(Pending) || last == Seen(Processing) || last == PollFailed))
  {
    if log != [Rejected] {
      var polls := log[..|log| - 1];
      forall i | 1 <= i < |log| - 1
        ensures log[i] == Seen(Pending) || log[i] == Seen(Processing) || log[i] == PollFailed
      {
        assert polls[i] == log[i] && NonTerminal(polls[i]);
      }
    }
  }

  /** Before the 91st, a poll that finds the job pending or processing, or fails, leaves
      the item active and sets the next timer. */
  lemma PollGoesOn(turns: seq<Turn>, k: nat, reply: Reply, r: Runner, t: Runner)
    requires r == Play(turns) && Enabled(r, PollSettles(k, reply)) && t == Next(r, PollSettles(k, reply))
    requires reply == Seen(Pending) || reply == Seen(Processing) || reply == PollFailed
    requires r.frames[k].phase.attempt <= 89
    ensures var id := r.frames[k].id;
      && t.queue == r.queue && Item(id, Active) in t.queue
      && t.frames == [Frame(id, Waiting(r.frames[k].phase.attempt + 1))] && Enabled(t, TimerFires(k))
      && id in r.log && t.log == r.log[id := r.log[id] + [reply]]
  {
    Reachable(turns);
    assert Busy(r, r.frames[k].id);
  }

  /** And a poll that finds it completed or failed, like any 91st, is the last: the item
      becomes done, or in error, in the runner's next turn. */
  lemma PollEnds(turns: seq<Turn>, k: nat, reply: Reply, r: Runner, t: Runner)
    requires r == Play(turns) && Enabled(r, PollSettles(k, reply))
    requires t == Next(Next(r, PollSettles(k, reply)), Resumes(k))
    requires reply == Seen(Completed) || reply == Seen(Failed) || r.frames[k].phase.attempt == 90
    ensures var id := r.frames[k].id;
      && Item(id, if reply == Seen(Completed) then DoneItem else ErrorItem) in t.queue
      && t.frames == [Frame(id, Finishing)]
  {
    Reachable(turns);
    var id := r.frames[k].id;
    assert Busy(r, id);
    PatchHas(r.queue, id, if reply == Seen(Completed) then DoneItem else ErrorItem);
    assert Item(id, Active) in r.queue;
  }

  /** Turns left until everything is finished, at most. */
  function Due(phase: Phase): nat
  {
    match phase
    case Submitting => 184
    case Requested(a) => if a <= LAST_ATTEMPT then 2 * (LAST_ATTEMPT - a) + 3 else 3
    case Waiting(a) => if a <= LAST_ATTEMPT then 2 * (LAST_ATTEMPT - a) + 4 else 4
    case Resolved(_) => 2
    case Finishing => 1
  }

  function Remaining(r: Runner): int {
    184 * (r.count - |r.activated|) + if |r.frames| == 1 then Due(r.frames[0].phase) else 0
  }

  predicate ByUser(t: Turn) { t.UserEnqueues? || t.UserClears? }

  lemma StartedRemaining(r: Runner)
    requires Idle(r)
    ensures Remaining(Started(r)) == Remaining(r)
  {
    FirstIsNext(r);
  }

  lemma TurnPays(r: Runner, t: Turn)
    requires Inv(r) && Enabled(r, t)
    ensures !ByUser(t) ==> Remaining(Take(r, t)) < Remaining(r)
    ensures ByUser(t) ==> Remaining(Take(r, t)) == Remaining(r) + if t.UserEnqueues? then 184 * t.n else 0
  {
    match t
    case UserEnqueues(n) =>
      var grown := r.(queue := r.queue + NewItems(r.count, n), count := r.count + n);
      GrownQueue(r, n, grown);
      if !r.running {
        StartedRemaining(grown);
      }
    case Returns(k) =>
      var idle := r.(frames := [], running := false);
      assert r.frames[..k] + r.frames[k + 1..] == [];
      forall it | it in idle.queue ensures StatusOk(idle, it) {
        assert StatusOk(r, it);
      }
      FirstIsNext(idle);
      StartedRemaining(idle);
    case _ =>
  }

  /** Turns taken by the runner, not the user. */
  function Worked(turns: seq<Turn>): nat {
    if turns == [] then 0
    else
      var past, t := turns[..|turns| - 1], turns[|turns| - 1];
      Worked(past) + if Enabled(Play(past), t) && !ByUser(t) then 1 else 0
  }

  /** Every item ends: the runner takes at most 184 turns per item ever enqueued, in any
      interleaving, and as long as an item has not ended it has a turn to take. */
  lemma {:induction false} EveryItemEnds(turns: seq<Turn>, r: Runner)
    requires r == Play(turns)
    ensures Worked(turns) + Remaining(r) <= 184 * r.count
    ensures (forall t :: Enabled(r, t) ==> ByUser(t)) ==>
      forall it :: it in r.queue ==> it.status.DoneItem? || it.status.ErrorItem?
  {
    Reachable(turns);
    if turns != [] {
      var past, t := turns[..|turns| - 1], turns[|turns| - 1];
      EveryItemEnds(past, Play(past));
      Reachable(past);
      if Enabled(Play(past), t) {
        TurnPays(Play(past), t);
      }
    }
    SomeTurnIsDue(r);
  }

  lemma SomeTurnIsDue(r: Runner)
    requires Inv(r)
    ensures (forall t :: Enabled(r, t) ==> ByUser(t)) ==>
      forall it :: it in r.queue ==> it.status.DoneItem? || it.status.ErrorItem?
  {
    if r.running {
      var t := match r.frames[0].phase
        case Submitting => SubmitSettles(0, true)
        case Requested(_) => PollSettles(0, PollFailed)
        case Waiting(_) => TimerFires(0)
        case Resolved(_) => Resumes(0)
        case Finishing => Returns(0);
      assert Enabled(r, t) && !ByUser(t);
    } else {
      forall it | it in r.queue ensures it.status.DoneItem? || it.status.ErrorItem? {
        assert StatusOk(r, it);
      }
    }
  }

  // ---- the component ----

  /** Item i, the first queued one, became active. */
  ghost predicate Starts(q: seq<Item>, i: nat, q': seq<Item>)
    requires i < |q|
  {
    && q[i].status == Queued && (forall k :: 0 <= k < i ==> q[k].status != Queued)
    && |q'| == |q| && q'[i] == q[i].(status := Active)
    && forall k :: 0 <= k < |q| && q[k].id != q[i].id ==> q'[k] == q[k]
  }

  class App {
    var queue: seq<Item>
    var running: bool
    var frames: seq<Frame>
    var count: nat
    var activated: seq<nat>
    var log: map<nat, seq<Reply>>

    function State(): Runner
      reads this
    {
      Runner(queue, running, frames, count, activated, log)
    }

    constructor ()
      ensures State() == Fresh
    {
      queue, running, frames, count, activated, log := [], false, [], 0, [], map[];
    }

    method PatchItem(id: nat, status: ItemStatus)
      modifies this`queue
      ensures queue == Patch(old(queue), id, status)
    {
      var patched: seq<Item> := [];
      for i := 0 to |queue|
        invariant patched == Patch(queue[..i], id, status) && queue == old(queue)
      {
        patched := patched + [if queue[i].id == id then queue[i].(status := status) else queue[i]];
        assert queue[..i + 1] == queue[..i] + [queue[i]];
      }
      assert queue[..|queue|] == queue;
      queue := patched;
    }

    /** Index of the first queued item, or the length of the queue. */
    method FindQueued() returns (i: nat)
      ensures i == FirstQueued(queue)
    {
      i := 0;
      while i < |queue| && !queue[i].status.Queued?
        invariant i <= |queue| && forall k :: 0 <= k < i ==> !queue[k].status.Queued?
      {
        i := i + 1;
      }
    }

    /** Up to the first await: guard, mark active, submit. */
    method RunNext()
      modifies this
      ensures State() == Started(old(State()))
      ensures old(running) || (forall i :: 0 <= i < |old(queue)| ==> !old(queue)[i].status.Queued?) ==>
        State() == old(State())
      ensures !old(running) && running ==>
        exists i :: 0 <= i < |old(queue)| && Starts(old(queue), i, queue) && activated == old(activated) + [queue[i].id]
    {
      if running {
        return;
      }
      var i := FindQueued();
      if i == |queue| {
        return;
      }
      running := true;
      var id := queue[i].id;
      PatchItem(id, Active);
      activated := activated + [id];
      log := log[id := []];
      frames := frames + [Frame(id, Submitting)];
      assert Starts(old(queue), i, queue);
    }

    method Enqueue(n: nat)
      modifies this
      ensures State() == Enqueued(old(State()), n)
    {
      var items: seq<Item> := [];
      for i := 0 to n
        invariant items == NewItems(old(count), i) && count == old(count) + i
        invariant State() == old(State()).(count := count)
      {
        items := items + [Item(count, Queued)];
        count := count + 1;
      }
      queue := queue + items;
      RunNext();
    }

    method ClearFinished()
      modifies this`queue
      ensures queue == Kept(old(queue))
      ensures forall it :: it in queue <==> it in old(queue) && (it.status == Queued || it.status == Active)
    {
      var kept: seq<Item> := [];
      for i := |queue| downto 0
        invariant kept == Kept(queue[i..]) && queue == old(queue)
      {
        assert queue[i..][1..] == queue[i + 1..];
        if Unfinished(queue[i]) {
          kept := [queue[i]] + kept;
        }
      }
      queue := kept;
    }

    method OnSubmitted(k: nat, ok: bool)
      requires Enabled(State(), SubmitSettles(k, ok))
      modifies this
      ensures State() == Submitted(old(State()), k, ok)
      ensures |frames| == |old(frames)| && frames[k] == Frame(old(frames)[k].id, if ok then Requested(0) else Finishing)
      ensures ok ==> queue == old(queue)
    {
      var id := frames[k].id;
      log := Logged(State(), id, if ok then Accepted else Rejected);
      if ok {
        frames := frames[k := Frame(id, Requested(0))];
      } else {
        PatchItem(id, ErrorItem);
        frames := frames[k := Frame(id, Finishing)];
      }
    }

    method OnPolled(k: nat, reply: Reply)
      requires Enabled(State(), PollSettles(k, reply))
      modifies this
      ensures State() == Polled(old(State()), k, reply)
      ensures queue == old(queue) && |frames| == |old(frames)| && frames[k].id == old(frames)[k].id
      ensures reply == Seen(Completed) || reply == Seen(Failed) ==> frames[k].phase == Resolved(reply.status)
      ensures reply == Seen(Pending) || reply == Seen(Processing) || reply == PollFailed ==>
        frames[k].phase ==
          if old(frames)[k].phase.attempt < 90 then Waiting(old(frames)[k].phase.attempt + 1) else Resolved(Failed)
    {
      var id, attempt := frames[k].id, frames[k].phase.attempt;
      log := Logged(State(), id, reply);
      if reply.Seen? && (reply.status.Completed? || reply.status.Failed?) {
        frames := frames[k := Frame(id, Resolved(reply.status))];
      } else if attempt < 90 {
        frames := frames[k := Frame(id, Waiting(attempt + 1))];
      } else {
        frames := frames[k := Frame(id, Resolved(Failed))];
      }
    }

    method OnTimer(k: nat)
      requires Enabled(State(), TimerFires(k))
      modifies this`frames
      ensures State() == Ticked(old(State()), k)
    {
      frames := frames[k := Frame(frames[k].id, Requested(frames[k].phase.attempt))];
    }

    method OnResolved(k: nat)
      requires Enabled(State(), Resumes(k))
      modifies this
      ensures State() == Resumed(old(State()), k)
    {
      var id := frames[k].id;
      PatchItem(id, if frames[k].phase.final == Completed then DoneItem else ErrorItem);
      frames := frames[k := Frame(id, Finishing)];
    }

    method OnReturned(k: nat)
      requires Enabled(State(), Returns(k))
      modifies this
      ensures State() == Finished(old(State()), k)
    {
      frames := frames[..k] + frames[k + 1..];
      running := false;
      var i := FindQueued();
      if i < |queue| {
        assert SomeQueued(queue);
        RunNext();
      }
    }
  }
}
