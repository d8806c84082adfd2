/** The event stream of one job over a whole run: the published announcements of its
    delivery attempts, one attempt after the other. */
module Streams {
  import opened Media
  import opened Pipeline
  import opened Integrity
  import opened Custody
  import opened Retries
  import opened Exclusive
  import opened Traces

  // ---- the stream of one job ----

  function Filter(events: seq<Event>, id: JobId): seq<Event> {
    if events == [] then []
    else
      var n := |events| - 1;
      Filter(events[..n], id) + if events[n].job == id then [events[n]] else []
  }

  function EventsOf(s: State, id: JobId): seq<Event> { Filter(s.events, id) }

  function Flatten(traces: seq<seq<Event>>): seq<Event> {
    if traces == [] then [] else Flatten(traces[..|traces| - 1]) + traces[|traces| - 1]
  }

  predicate Tells(h: Handler) { h.msg.body.Wire? && Telling(h.pc) }

  /** The broker takes an announcement of this job: its handler's channel is open. */
  predicate Publishes(s: State, a: Action, id: JobId) {
    OwnWork(s, a, id) && Tells(s.workers[a.slot]) && s.workers[a.slot].linked && a.reply.Applied()
  }

  /** Published announcements, grouped by attempt: a delivery opens a group, an
      announcement joins the last one. */
  function NextTold(s: State, a: Action, id: JobId, told: seq<seq<Event>>): seq<seq<Event>> {
    if a.Deliver? && Enabled(s, a) && a.copy.msg.id == id then told + [[]]
    else if Publishes(s, a, id) && told != [] then
      told[..|told| - 1] + [told[|told| - 1] + [EventAt(s.workers[a.slot])]]
    else told
  }

  function Told(cfg: Config, run: seq<Action>, id: JobId): seq<seq<Event>> {
    if run == [] then []
    else
      var n := |run| - 1;
      NextTold(Exec(cfg, run[..n]), run[n], id, Told(cfg, run[..n], id))
  }

  /** The run publishes these groups for job id; stated like Reaches. */
  ghost predicate Grouped(cfg: Config, run: seq<Action>, id: JobId, told: seq<seq<Event>>) {
    forall r: seq<Action> :: r == run ==> Told(cfg, r, id) == told
  }

  /** The broker takes every announcement made over an open channel. */
  predicate Heard(s: State, a: Action) {
    a.Work? && a.slot in s.workers && Telling(s.workers[a.slot].pc) && s.workers[a.slot].linked ==> a.reply.Applied()
  }

  /** a is b with some elements left out. */
  predicate Sub<T(==)>(a: seq<T>, b: seq<T>) {
    a == [] ||
    (b != [] && ((a[|a| - 1] == b[|b| - 1] && Sub(a[..|a| - 1], b[..|b| - 1])) || Sub(a, b[..|b| - 1])))
  }

  /** What was published of what an attempt tried to: all of it, or some. */
  predicate Matches(exact: bool, g: seq<Event>, tr: seq<Event>) { if exact then g == tr else Sub(g, tr) }

  /** The trace is one a delivery attempt of this job can leave. */
  ghost predicate Scripted(cfg: Config, s: State, id: JobId, tr: seq<Event>) {
    id in s.requests && s.requests[id].Submission? &&
    AttemptTrace(Script(s.requests[id].job, Expected(cfg, s, id)), FailedEvent(s.requests[id].job), tr)
  }

  ghost predicate GroupOk(exact: bool, cfg: Config, s: State, id: JobId, g: seq<Event>) {
    exists tr :: Scripted(cfg, s, id, tr) && Matches(exact, g, tr)
  }

  ghost predicate GroupsOk(exact: bool, cfg: Config, s: State, id: JobId, told: seq<seq<Event>>) {
    forall g :: g in told ==> GroupOk(exact, cfg, s, id, g)
  }

  ghost predicate ToldOk(exact: bool, cfg: Config, s: State, id: JobId, loc: Location, told: seq<seq<Event>>) {
    && EventsOf(s, id) == Flatten(told)
    && (loc.Held? ==>
          loc.slot in s.workers && told != [] && Matches(exact, told[|told| - 1], s.workers[loc.slot].trace))
    && GroupsOk(exact, cfg, s, id, told)
  }

  lemma FilterLast(events: seq<Event>, e: Event, id: JobId)
    ensures Filter(events + [e], id) == Filter(events, id) + if e.job == id then [e] else []
  {
    assert (events + [e])[..|events|] == events;
  }

  lemma FlattenLast(told: seq<seq<Event>>, e: Event)
    requires told != []
    ensures Flatten(told[..|told| - 1] + [told[|told| - 1] + [e]]) == Flatten(told) + [e]
  {
    var n := |told| - 1;
    assert (told[..n] + [told[n] + [e]])[..n] == told[..n];
  }

  lemma FlattenNew(told: seq<seq<Event>>)
    ensures Flatten(told + [[]]) == Flatten(told)
  {
    assert (told + [[]])[..|told|] == told;
  }

  lemma EventsStep(cfg: Config, s: State, a: Action, t: State)
    requires t == Step(cfg, s, a)
    ensures t.events ==
      if a.Work? && Enabled(s, a) && Tells(s.workers[a.slot]) && s.workers[a.slot].linked && a.reply.Applied()
      then s.events + [EventAt(s.workers[a.slot])] else s.events
  {
    if Enabled(s, a) {
      if a.Gateway? {
        ServeFrame(s, a.id, a.reply, t);
      } else if a.Work? && !Settling(s.workers[a.slot].pc) {
        EffectEvents(s, s.workers[a.slot], a.reply);
      }
    }
  }

  lemma EffectEvents(s: State, h: Handler, reply: Reply)
    ensures Effected(s, h, reply).events ==
      if Tells(h) && h.linked && reply.Applied() then s.events + [EventAt(h)] else s.events
  {
    if h.msg.body.Wire? && !Telling(h.pc) && !h.pc.Parking? {
      PerformStoreFrame(s, h, PerformStore(s, h));
    }
  }

  // ---- every action extends the stream as said ----

  lemma NextTrace(cfg: Config, h: Handler, ok: bool, status: Option<Status>, data: Bytes)
    requires !Settling(h.pc) && !h.pc.Raised?
    ensures Next(cfg, h, ok, status, data).trace == if Tells(h) then h.trace + [EventAt(h)] else h.trace
  {
    if h.msg.body.Wire? && !h.pc.Begin? {
      assert GoNext(cfg, h, ok, status, data).trace == h.trace;
      assert PyNext(cfg, h, ok, status, data).trace == h.trace;
    }
  }

  lemma WorkerAfter(cfg: Config, s: State, slot: nat, reply: Reply, t: State)
    requires Enabled(s, Work(slot, reply)) && !Settling(s.workers[slot].pc)
    requires t == Step(cfg, s, Work(slot, reply))
    ensures t.workers == s.workers[slot := Advance(cfg, s, s.workers[slot], reply)]
    ensures t.workers[slot].trace ==
      var h := s.workers[slot]; if Tells(h) then h.trace + [EventAt(h)] else h.trace
  {
    var h := s.workers[slot];
    EffectFrame(s, h, reply);
    NextTrace(cfg, h, SeenOk(s, h, reply), StatusRead(s, h), DataRead(s, h));
  }

  lemma SubLonger<T>(a: seq<T>, b: seq<T>, e: T)
    requires Sub(a, b)
    ensures Sub(a, b + [e]) && Sub(a + [e], b + [e])
  {
    assert (b + [e])[..|b|] == b && (a + [e])[..|a|] == a;
  }

  lemma HandlerScripted(cfg: Config, s: State, k: nat)
    requires WorkersOk(cfg, s) && TracesOk(cfg, s) && k in s.workers
    requires s.workers[k].msg.body.Wire?
    ensures Scripted(cfg, s, s.workers[k].msg.id, s.workers[k].trace)
  {
    assert HandlerOk(cfg, s, s.workers[k]) && TraceOk(cfg, s, s.workers[k]);
  }

  /** Groups stay in order as the system grows. */
  lemma GroupsStable(exact: bool, cfg: Config, s: State, t: State, id: JobId, told: seq<seq<Event>>)
    requires Grows(s, t) && GroupsOk(exact, cfg, s, id, told)
    ensures GroupsOk(exact, cfg, t, id, told)
  {
    forall g | g in told ensures GroupOk(exact, cfg, t, id, g) {
      assert GroupOk(exact, cfg, s, id, g);
      var tr :| Scripted(cfg, s, id, tr) && Matches(exact, g, tr);
      assert Expected(cfg, t, id) == Expected(cfg, s, id);
      assert Scripted(cfg, t, id, tr);
    }
  }

  /** Only the last group is new. */
  lemma LastGroup(exact: bool, cfg: Config, t: State, id: JobId, told: seq<seq<Event>>, told': seq<seq<Event>>)
    requires GroupsOk(exact, cfg, t, id, told) && told' != [] && GroupOk(exact, cfg, t, id, told'[|told'| - 1])
    requires forall i :: 0 <= i < |told'| - 1 ==> i < |told| && told'[i] == told[i]
    ensures GroupsOk(exact, cfg, t, id, told')
  {
    forall g | g in told' ensures GroupOk(exact, cfg, t, id, g) {
      var i :| 0 <= i < |told'| && told'[i] == g;
      assert i < |told'| - 1 ==> told[i] in told;
    }
  }

  /** A linked handler at work on the job is the one holding its message. */
  lemma LinkedHolds(s: State, a: Action, id: JobId, loc: Location)
    requires At(s, id, loc) && OwnWork(s, a, id) && s.workers[a.slot].linked
    ensures loc == Held(a.slot) && NextLoc(s, a, id, loc) == loc && id in s.enqueued
  {
    assert Holds(s, a.slot, id);
  }

  lemma PublishedEvent(cfg: Config, s: State, a: Action, id: JobId, t: State)
    requires Inv(cfg, s) && Publishes(s, a, id) && t == Step(cfg, s, a)
    ensures EventsOf(t, id) == EventsOf(s, id) + [EventAt(s.workers[a.slot])]
  {
    var h := s.workers[a.slot];
    assert HandlerOk(cfg, s, h);
    OwnJob(cfg, s, h);
    EventsStep(cfg, s, a, t);
    FilterLast(s.events, EventAt(h), id);
  }

  lemma AnnouncedTrace(exact: bool, cfg: Config, s: State, slot: nat, reply: Reply, g: seq<Event>, t: State)
    requires Inv(cfg, t) && TracesOk(cfg, t) && Enabled(s, Work(slot, reply)) && t == Step(cfg, s, Work(slot, reply))
    requires Tells(s.workers[slot]) && Matches(exact, g, s.workers[slot].trace)
    ensures slot in t.workers && Matches(exact, g + [EventAt(s.workers[slot])], t.workers[slot].trace)
    ensures GroupOk(exact, cfg, t, s.workers[slot].msg.id, g + [EventAt(s.workers[slot])])
  {
    var h := s.workers[slot];
    WorkerAfter(cfg, s, slot, reply, t);
    NextMoves(cfg, h, SeenOk(s, h, reply), StatusRead(s, h), DataRead(s, h), t.workers[slot]);
    if !exact {
      SubLonger(g, h.trace, EventAt(h));
    }
    HandlerScripted(cfg, t, slot);
  }

  lemma LongerLast(told: seq<seq<Event>>, e: Event, told': seq<seq<Event>>)
    requires told != [] && told' == told[..|told| - 1] + [told[|told| - 1] + [e]]
    ensures |told'| == |told| && told'[|told'| - 1] == told[|told| - 1] + [e]
    ensures forall i :: 0 <= i < |told'| - 1 ==> i < |told| && told'[i] == told[i]
  {
  }

  lemma PublicationTold(exact: bool, cfg: Config, s: State, a: Action, id: JobId, told: seq<seq<Event>>, t: State,
                        told': seq<seq<Event>>)
    requires Inv(cfg, s) && Inv(cfg, t) && Grows(s, t) && TracesOk(cfg, t) && t == Step(cfg, s, a)
    requires Publishes(s, a, id) && ToldOk(exact, cfg, s, id, Held(a.slot), told) && told' == NextTold(s, a, id, told)
    ensures ToldOk(exact, cfg, t, id, Held(a.slot), told')
  {
    var n := |told| - 1;
    LongerLast(told, EventAt(s.workers[a.slot]), told');
    PublishedEvent(cfg, s, a, id, t);
    FlattenLast(told, EventAt(s.workers[a.slot]));
    AnnouncedTrace(exact, cfg, s, a.slot, a.reply, told[n], t);
    GroupsStable(exact, cfg, s, t, id, told);
    LastGroup(exact, cfg, t, id, told, told');
  }

  lemma DeliveryTold(exact: bool, cfg: Config, s: State, a: Action, id: JobId, loc: Location, told: seq<seq<Event>>,
                     t: State)
    requires Inv(cfg, s) && Inv(cfg, t) && Grows(s, t) && s.requests == t.requests
    requires a.Deliver? && Enabled(s, a) && a.copy.msg.id == id
    requires id in s.requests && s.requests[id].Submission?
    requires ToldOk(exact, cfg, s, id, loc, told) && t == Step(cfg, s, a)
    ensures ToldOk(exact, cfg, t, id, Held(a.slot), told + [[]])
  {
    EventsStep(cfg, s, a, t);
    FlattenNew(told);
    DeliverFrame(cfg, s, a.copy, a.slot, t);
    GroupsStable(exact, cfg, s, t, id, told);
    assert Scripted(cfg, t, id, []) && Matches(exact, [], []);
    LastGroup(exact, cfg, t, id, told, told + [[]]);
  }

  /** Any other action leaves the holder's announcements as they are, or adds one that
      was not published. */
  lemma HolderTrace(cfg: Config, s: State, a: Action, id: JobId, loc: Location, t: State, next: Location)
    requires At(s, id, loc) && Enabled(s, a) && t == Step(cfg, s, a) && next == NextLoc(s, a, id, loc)
    requires !(a.Deliver? && a.copy.msg.id == id) && next.Held?
    ensures loc == next && next.slot in s.workers && next.slot in t.workers
    ensures var h, tr := s.workers[next.slot], t.workers[next.slot].trace;
      tr == h.trace || (OwnWork(s, a, id) && a.slot == next.slot && Tells(h) && tr == h.trace + [EventAt(h)])
  {
    if a.Work? {
      if loc == Held(a.slot) {
        WorkerAfter(cfg, s, a.slot, a.reply, t);
      } else {
        WorkLeavesOthers(cfg, s, a.slot, a.reply, loc, t);
      }
    } else if a.Deliver? {
      DeliverFrame(cfg, s, a.copy, a.slot, t);
    } else if !a.Disconnect? {
      MoveLeavesHolder(cfg, s, a, next.slot, t);
    }
  }

  /** An action that publishes no announcement of this job leaves its stream as it is. */
  lemma OtherEvents(cfg: Config, s: State, a: Action, id: JobId, t: State)
    requires Inv(cfg, s) && t == Step(cfg, s, a) && !Publishes(s, a, id)
    ensures EventsOf(t, id) == EventsOf(s, id)
  {
    EventsStep(cfg, s, a, t);
    if a.Work? && Enabled(s, a) && Tells(s.workers[a.slot]) {
      assert HandlerOk(cfg, s, s.workers[a.slot]);
      OwnJob(cfg, s, s.workers[a.slot]);
      FilterLast(s.events, EventAt(s.workers[a.slot]), id);
    }
  }

  lemma OtherTold(exact: bool, cfg: Config, s: State, a: Action, id: JobId, loc: Location, told: seq<seq<Event>>,
                  t: State, next: Location)
    requires Inv(cfg, s) && Grows(s, t) && At(s, id, loc) && ToldOk(exact, cfg, s, id, loc, told)
    requires exact ==> Heard(s, a)
    requires t == Step(cfg, s, a) && next == NextLoc(s, a, id, loc) && Enabled(s, a)
    requires !(a.Deliver? && a.copy.msg.id == id) && !Publishes(s, a, id)
    ensures ToldOk(exact, cfg, t, id, next, told)
  {
    OtherEvents(cfg, s, a, id, t);
    GroupsStable(exact, cfg, s, t, id, told);
    if next.Held? {
      HolderTrace(cfg, s, a, id, loc, t, next);
      assert Holds(s, next.slot, id);
      if t.workers[next.slot].trace != s.workers[next.slot].trace {
        SubLonger(told[|told| - 1], s.workers[next.slot].trace, EventAt(s.workers[next.slot]));
      }
    }
  }

  lemma DeliveredWas(cfg: Config, s: State, c: Copy, slot: nat, loc: Location)
    requires Inv(cfg, s) && Enabled(s, Deliver(c, slot)) && At(s, c.msg.id, loc)
    ensures loc == Ready(c) && c.msg.id in s.requests
  {
    assert CopyOk(s, c) && Live(c, c.msg.id);
  }

  lemma StepTold(exact: bool, cfg: Config, s: State, a: Action, id: JobId, loc: Location, told: seq<seq<Event>>,
                 t: State, next: Location, told': seq<seq<Event>>)
    requires Inv(cfg, s) && At(s, id, loc) && ToldOk(exact, cfg, s, id, loc, told) && (exact ==> Heard(s, a))
    requires t == Step(cfg, s, a) && next == NextLoc(s, a, id, loc) && told' == NextTold(s, a, id, told)
    requires Inv(cfg, t) && Grows(s, t) && TracesOk(cfg, t)
    requires id in s.requests ==> s.requests[id].Submission?
    ensures ToldOk(exact, cfg, t, id, next, told')
  {
    if Publishes(s, a, id) {
      LinkedHolds(s, a, id, loc);
      PublicationTold(exact, cfg, s, a, id, told, t, told');
    } else if a.Deliver? && Enabled(s, a) && a.copy.msg.id == id {
      DeliveredWas(cfg, s, a.copy, a.slot, loc);
      assert next == Held(a.slot);
      DeliveryTold(exact, cfg, s, a, id, loc, told, t);
    } else if Enabled(s, a) {
      OtherTold(exact, cfg, s, a, id, loc, told, t, next);
    } else {
      assert t == s && next == loc && told' == told;
    }
  }

  lemma {:induction false} ToldSoFar(exact: bool, cfg: Config, run: seq<Action>, id: JobId, s: State, loc: Location)
    requires exact ==> Always(cfg, run, Heard)
    requires s == Exec(cfg, run) && loc == Where(cfg, run, id)
    ensures (id in s.requests && s.requests[id].Foreign?) || ToldOk(exact, cfg, s, id, loc, Told(cfg, run, id))
  {
    if run != [] {
      var n := |run| - 1;
      var prev, a, from := Exec(cfg, run[..n]), run[n], Where(cfg, run[..n], id);
      ToldSoFar(exact, cfg, run[..n], id, prev, from);
      Reachable(cfg, run[..n]);
      TokenIsThere(cfg, run[..n], id);
      TracedSoFar(cfg, run, s);
      StepKeeps(cfg, prev, a);
      if !(id in s.requests && s.requests[id].Foreign?) {
        StepTold(exact, cfg, prev, a, id, from, Told(cfg, run[..n], id), s, loc, Told(cfg, run, id));
      }
    }
  }

  /** In every run, with stale handlers, crashes, redeliveries and lost announcements, the
      events of a job are groups, one per delivery and in that order, and each group is
      what was published of one attempt: of a prefix of 10, 40, one 80 per output, 100, or
      of such a prefix and then the failure, in order, with some perhaps left out. */
  lemma StreamIsAttempts(cfg: Config, run: seq<Action>, id: JobId, s: State, told: seq<seq<Event>>)
    requires Reaches(cfg, run, s) && Grouped(cfg, run, id, told)
    requires id in s.requests && s.requests[id].Submission?
    ensures EventsOf(s, id) == Flatten(told)
    ensures forall g :: g in told ==> exists tr :: Scripted(cfg, s, id, tr) && Sub(g, tr)
  {
    assert Exec(cfg, run) == s && Told(cfg, run, id) == told;
    ToldSoFar(false, cfg, run, id, s, Where(cfg, run, id));
    forall g | g in told ensures exists tr :: Scripted(cfg, s, id, tr) && Sub(g, tr) {
      assert GroupOk(false, cfg, s, id, g);
      var tr :| Scripted(cfg, s, id, tr) && Matches(false, g, tr);
    }
  }

  /** And if the broker takes the announcements made over open channels, each group is
      such an attempt's trace in full. */
  lemma StreamIsExact(cfg: Config, run: seq<Action>, id: JobId, s: State, told: seq<seq<Event>>)
    requires Throughout(cfg, run, Heard) && Reaches(cfg, run, s) && Grouped(cfg, run, id, told)
    requires id in s.requests && s.requests[id].Submission?
    ensures EventsOf(s, id) == Flatten(told)
    ensures forall g :: g in told ==>
      AttemptTrace(Script(s.requests[id].job, Expected(cfg, s, id)), FailedEvent(s.requests[id].job), g)
  {
    assert Always(cfg, run, Heard) && Exec(cfg, run) == s && Told(cfg, run, id) == told;
    ToldSoFar(true, cfg, run, id, s, Where(cfg, run, id));
    forall g | g in told
      ensures AttemptTrace(Script(s.requests[id].job, Expected(cfg, s, id)), FailedEvent(s.requests[id].job), g)
    {
      assert GroupOk(true, cfg, s, id, g);
      var tr :| Scripted(cfg, s, id, tr) && Matches(true, g, tr);
    }
  }
}
