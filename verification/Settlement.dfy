/** What the retry loop promises: attempts are numbered, retries are bounded, a
    settlement is honest, and nothing is lost as long as parking publishes are accepted;
    and the run that shows the last condition to be needed. */
module Settlement {
  import opened Media
  import opened Amqp
  import opened Pipeline
  import opened Integrity
  import opened Custody
  import opened Retries
  import opened Exclusive

  // ---- attempt numbers ----

  /** The token's header after every run: in its work queue it counts the completed
      trips, and in the retry queue its two counters differ by exactly one. */
  ghost predicate HeaderCountsTrips(s: State, id: JobId, c: Copy) {
    id in s.requests &&
    if c.queue == RetryQueue
    then Tally(s, id).trips >= 1 && c.msg.deaths == WaitDeaths(WorkQueue(KindOf(s.requests[id])), Tally(s, id).trips)
    else AttemptOf(c.msg.deaths) == Tally(s, id).trips + 1
  }

  lemma QueuedHeaders(cfg: Config, run: seq<Action>, id: JobId, s: State, c: Copy)
    requires Reaches(cfg, run, s) && Located(cfg, run, id, Ready(c))
    ensures HeaderCountsTrips(s, id, c)
  {
    assert Exec(cfg, run) == s && Where(cfg, run, id) == Ready(c);
    BooksBalance(cfg, run);
    TokenHeader(cfg, s, id, c);
  }

  lemma TokenHeader(cfg: Config, s: State, id: JobId, c: Copy)
    requires TokenOk(cfg, s, id, Ready(c))
    ensures HeaderCountsTrips(s, id, c)
  {
    AttemptNumbering(WorkQueue(KindOf(s.requests[id])), Tally(s, id).trips);
  }

  lemma HandlerNumber(cfg: Config, s: State, k: nat, h: Handler, loc: Location)
    requires WorkersOk(cfg, s) && AttemptsOk(cfg, s) && At(s, h.msg.id, loc) && TokenOk(cfg, s, h.msg.id, loc)
    requires k in s.workers && s.workers[k] == h
    ensures 1 <= h.attempt <= Attempts(cfg, h.worker)
    ensures h.msg.deaths == LoopDeaths(WorkQueue(h.worker), h.attempt - 1)
    ensures h.linked ==> h.attempt == Tally(s, h.msg.id).trips + 1
  {
    assert HandlerOk(cfg, s, h) && AttemptOk(cfg, s, h);
    assert h.linked ==> Holds(s, k, h.msg.id);
  }

  lemma RunningAttempt(cfg: Config, run: seq<Action>, s: State, k: nat, h: Handler)
    requires Reaches(cfg, run, s) && k in s.workers && s.workers[k] == h
    ensures 1 <= h.attempt <= Attempts(cfg, h.worker)
    ensures h.msg.deaths == LoopDeaths(WorkQueue(h.worker), h.attempt - 1)
    ensures h.linked ==> h.attempt == Tally(s, h.msg.id).trips + 1
  {
    assert Exec(cfg, run) == s;
    BooksBalance(cfg, run);
    Reachable(cfg, run);
    TokenIsThere(cfg, run, h.msg.id);
    HandlerNumber(cfg, s, k, h, Where(cfg, run, h.msg.id));
  }

  /** Every attempt ever under way carries the number both workers' decoders read off
      its header, never more than N; the attempt that holds the message is number one
      plus the completed trips around the loop. */
  lemma AttemptsAreNumbered(cfg: Config, run: seq<Action>, s: State, k: nat, h: Handler)
    requires Reaches(cfg, run, s) && k in s.workers && s.workers[k] == h
    ensures 1 <= h.attempt <= Attempts(cfg, h.worker)
    ensures h.attempt == AttemptOf(h.msg.deaths)
    ensures PyDeathCount(Encode(h.msg.deaths)) == Some(h.attempt - 1)
    ensures h.linked ==> h.attempt == Tally(s, h.msg.id).trips + 1
  {
    RunningAttempt(cfg, run, s, k, h);
    NumberDecodes(h.msg.deaths, h.worker, h.attempt - 1);
  }

  lemma NumberDecodes(deaths: seq<Death>, worker: Kind, trips: nat)
    requires deaths == LoopDeaths(WorkQueue(worker), trips)
    ensures AttemptOf(deaths) == trips + 1 && PyDeathCount(Encode(deaths)) == Some(trips)
  {
    DecodersAgree(deaths);
    AttemptNumbering(WorkQueue(worker), trips);
  }

  // ---- bounds ----

  /** A message starts at most N attempts plus one per crash requeue, takes at most
      N - 1 trips through the retry queue, and an attempt that failed for good, or used
      up the last try, is never rejected into it. */
  lemma RetriesAreBounded(cfg: Config, run: seq<Action>, id: JobId, s: State)
    requires Reaches(cfg, run, s) && id in s.enqueued
    ensures id in s.requests
    ensures var max := if KindOf(s.requests[id]).Image? then cfg.imageRetries else cfg.ocrRetries;
            var n, l := if max < 1 then 1 else max, Tally(s, id);
      l.trips <= n - 1 && l.starts <= n + l.requeues
    ensures forall k :: k in s.workers && s.workers[k].pc.Reject? ==>
      s.workers[k].cause == Transient && s.workers[k].attempt < Limit(cfg, s.workers[k].worker)
  {
    assert Exec(cfg, run) == s;
    BooksBalance(cfg, run);
    TokenIsThere(cfg, run, id);
    assert TokenOk(cfg, s, id, Where(cfg, run, id));
    forall k | k in s.workers && s.workers[k].pc.Reject?
      ensures s.workers[k].cause == Transient && s.workers[k].attempt < Limit(cfg, s.workers[k].worker)
    {
      assert AttemptOk(cfg, s, s.workers[k]);
    }
  }

  // ---- honest settlement ----

  /** The parking queue holds the message, with the body its request published. */
  ghost predicate InParking(s: State, id: JobId) {
    exists m: Message :: Copy(ParkingQueue, m) in s.copies && m.id == id && MessageOk(s, m)
  }

  /** Nothing leaves the parking queue. */
  lemma ParkingGrows(cfg: Config, s: State, a: Action, t: State)
    requires t == Step(cfg, s, a)
    ensures forall c: Copy :: c in s.copies && c.queue == ParkingQueue ==> c in t.copies
  {
    if Enabled(s, a) {
      if a.Gateway? {
        ServeAdds(s, a.id, a.reply, t);
      } else if a.Work? && !Settling(s.workers[a.slot].pc) {
        EffectAdds(s, s.workers[a.slot], a.reply);
      }
    }
  }

  lemma ServeAdds(s: State, i: JobId, reply: Reply, t: State)
    requires i in s.requests && s.requests[i].Submission? && t == Serve(s, i, reply)
    ensures s.copies <= t.copies
  {
    ServeFrame(s, i, reply, t);
    if s.requests[i].pc.PublishJob? && reply.Applied() {
      var j := s.requests[i].job;
      assert t.copies == s.copies + Published(JobsExchange, Message(i, Wire(j), RoutingKey(j.kind), []));
    }
  }

  lemma EffectAdds(s: State, h: Handler, reply: Reply)
    ensures s.copies <= Effected(s, h, reply).copies
  {
    if h.pc.Parking? {
      ParkAdds(s, h, reply);
    } else if h.msg.body.Wire? && !Telling(h.pc) {
      PerformStoreFrame(s, h, PerformStore(s, h));
      assert s == s.(ledger := s.ledger);
    }
  }

  lemma ParkAdds(s: State, h: Handler, reply: Reply)
    requires h.pc.Parking?
    ensures s.copies <= Effected(s, h, reply).copies
  {
    assert Effected(s, h, reply).copies ==
      if h.linked && reply.Applied() then s.copies + Published(ParkingExchange, h.msg.(deaths := [])) else s.copies;
  }

  /** A parking publish that takes effect. */
  predicate Parks(s: State, a: Action) {
    a.Work? && Enabled(s, a) && s.workers[a.slot].pc.Parking? && s.workers[a.slot].linked && a.reply.Applied()
  }

  lemma ParkedBooks(cfg: Config, s: State, a: Action, id: JobId, t: State)
    requires t == Step(cfg, s, a) && !Parks(s, a)
    ensures Tally(t, id).parked <= Tally(s, id).parked
  {
    if Enabled(s, a) {
      if a.Gateway? {
        ServeFrame(s, a.id, a.reply, t);
      } else if a.Work? && !Settling(s.workers[a.slot].pc) {
        UnparkedLedger(s, s.workers[a.slot], a.reply, id);
      } else {
        OtherParked(cfg, s, a, id, t);
      }
    }
  }

  lemma OtherParked(cfg: Config, s: State, a: Action, id: JobId, t: State)
    requires Enabled(s, a) && !a.Gateway? && !(a.Work? && !Settling(s.workers[a.slot].pc)) && t == Apply(cfg, s, a)
    ensures Tally(t, id).parked <= Tally(s, id).parked
  {
  }

  lemma UnparkedLedger(s: State, h: Handler, reply: Reply, id: JobId)
    requires !(h.pc.Parking? && h.linked && reply.Applied())
    ensures Tally(Effected(s, h, reply), id).parked == Tally(s, id).parked
  {
    EffectFrame(s, h, reply);
  }

  lemma ParksCopy(cfg: Config, s: State, a: Action, t: State)
    requires Inv(cfg, s) && Parks(s, a) && t == Step(cfg, s, a)
    ensures InParking(t, s.workers[a.slot].msg.id)
    ensures forall id :: id != s.workers[a.slot].msg.id ==> Tally(t, id) == Tally(s, id)
    ensures Tally(t, s.workers[a.slot].msg.id).parked >= 1
    ensures forall c :: c in t.copies && c.msg.id != s.workers[a.slot].msg.id ==> c in s.copies
  {
    var h := s.workers[a.slot];
    var m := h.msg.(deaths := []);
    assert HandlerOk(cfg, s, h);
    PublishedToHop(ParkingExchange, m);
    EffectFrame(s, h, a.reply);
    EffectLedgers(s, h, a.reply);
    ParkedOnce(s, h, a.reply);
    assert Copy(ParkingQueue, m) in t.copies && MessageOk(t, m);
  }

  lemma ParkedOnce(s: State, h: Handler, reply: Reply)
    requires h.pc.Parking? && h.linked && reply.Applied()
    ensures Tally(Effected(s, h, reply), h.msg.id).parked >= 1
    ensures Effected(s, h, reply).copies == s.copies + Published(ParkingExchange, h.msg.(deaths := []))
  {
  }

  lemma EffectLedgers(s: State, h: Handler, reply: Reply)
    ensures forall id :: id != h.msg.id ==> Tally(Effected(s, h, reply), id) == Tally(s, id)
  {
    forall id | id != h.msg.id ensures Tally(Effected(s, h, reply), id) == Tally(s, id) {
      EffectLedger(s, h, reply, id);
    }
  }

  lemma InParkingStays(cfg: Config, s: State, a: Action, id: JobId, t: State)
    requires InParking(s, id) && Grows(s, t) && t == Step(cfg, s, a)
    ensures InParking(t, id)
  {
    ParkingGrows(cfg, s, a, t);
    var m: Message :| Copy(ParkingQueue, m) in s.copies && m.id == id && MessageOk(s, m);
    assert Copy(ParkingQueue, m) in t.copies && MessageOk(t, m);
  }

  lemma {:induction false} ParkedIsInParking(cfg: Config, run: seq<Action>, id: JobId, s: State)
    requires s == Exec(cfg, run) && Tally(s, id).parked >= 1
    ensures InParking(s, id)
  {
    if run != [] {
      var n := |run| - 1;
      var prev, a := Exec(cfg, run[..n]), run[n];
      Reachable(cfg, run[..n]);
      StepKeeps(cfg, prev, a);
      if Parks(prev, a) && prev.workers[a.slot].msg.id == id {
        ParksCopy(cfg, prev, a, s);
      } else {
        if Parks(prev, a) {
          ParksCopy(cfg, prev, a, s);
        } else {
          ParkedBooks(cfg, prev, a, id, s);
        }
        ParkedIsInParking(cfg, run[..n], id, prev);
        InParkingStays(cfg, prev, a, id, s);
      }
    }
  }

  // ---- exactly when a parked message is lost ----

  /** Nothing but a parking publish that takes effect adds to the parking queue. */
  lemma NoNewParking(cfg: Config, s: State, a: Action, t: State)
    requires Inv(cfg, s) && t == Step(cfg, s, a) && !Parks(s, a)
    ensures forall c: Copy :: c in t.copies && c.queue == ParkingQueue ==> c in s.copies
  {
    if Enabled(s, a) {
      if a.Gateway? {
        ServeNoParking(cfg, s, a.id, a.reply, t);
      } else if a.Work? {
        WorkNoParking(cfg, s, a.slot, a.reply, t);
      } else if a.Inject? {
        InjectNoParking(cfg, s, a.id, a.kind, a.raw, t);
      } else if a.Expire? {
        ExpireNoParking(cfg, s, a.copy, t);
      } else {
        OtherNoParking(cfg, s, a, t);
      }
    }
  }

  lemma OtherNoParking(cfg: Config, s: State, a: Action, t: State)
    requires Enabled(s, a) && (a.Submit? || a.Deliver? || a.Crash? || a.Disconnect?) && t == Apply(cfg, s, a)
    ensures forall c: Copy :: c in t.copies && c.queue == ParkingQueue ==> c in s.copies
  {
  }

  lemma InjectNoParking(cfg: Config, s: State, i: JobId, kind: Kind, raw: Bytes, t: State)
    requires Enabled(s, Inject(i, kind, raw)) && t == Apply(cfg, s, Inject(i, kind, raw))
    ensures forall c: Copy :: c in t.copies && c.queue == ParkingQueue ==> c in s.copies
  {
    var m := Message(i, Garbage(raw), RoutingKey(kind), []);
    PublishedToWork(m, kind);
    assert t.copies == s.copies + Published(JobsExchange, m);
  }

  lemma ExpireNoParking(cfg: Config, s: State, d: Copy, t: State)
    requires CopiesOk(s) && Enabled(s, Expire(d)) && t == Apply(cfg, s, Expire(d))
    ensures forall c: Copy :: c in t.copies && c.queue == ParkingQueue ==> c in s.copies
  {
    assert CopyOk(s, d);
    var m := Died(d.msg, RetryQueue, Expired);
    PublishedToWork(m, KindOf(s.requests[d.msg.id]));
    assert t.copies == s.copies - multiset{d} + Published(JobsExchange, m);
  }

  lemma ServeNoParking(cfg: Config, s: State, i: JobId, reply: Reply, t: State)
    requires i in s.requests && s.requests[i].Submission? && t == Serve(s, i, reply)
    ensures forall c: Copy :: c in t.copies && c.queue == ParkingQueue ==> c in s.copies
  {
    ServeFrame(s, i, reply, t);
    if s.requests[i].pc.PublishJob? && reply.Applied() {
      var m := Message(i, Wire(s.requests[i].job), RoutingKey(s.requests[i].job.kind), []);
      PublishedToWork(m, s.requests[i].job.kind);
      assert t.copies == s.copies + Published(JobsExchange, m);
    }
  }

  lemma WorkNoParking(cfg: Config, s: State, slot: nat, reply: Reply, t: State)
    requires Enabled(s, Work(slot, reply)) && !Parks(s, Work(slot, reply)) && t == Apply(cfg, s, Work(slot, reply))
    ensures forall c: Copy :: c in t.copies && c.queue == ParkingQueue ==> c in s.copies
  {
    var h := s.workers[slot];
    if Settling(h.pc) {
      var m := Died(h.msg, WorkQueue(h.worker), Rejected);
      PublishedToHop(RetryExchange, m);
      assert t.copies == if h.linked && h.pc.Reject? then s.copies + multiset{Copy(RetryQueue, m)} else s.copies;
    } else {
      UnparkedCopies(s, h, reply);
    }
  }

  lemma UnparkedCopies(s: State, h: Handler, reply: Reply)
    requires !(h.pc.Parking? && h.linked && reply.Applied())
    ensures Effected(s, h, reply).copies == s.copies
  {
    if !h.pc.Parking? && h.msg.body.Wire? && !Telling(h.pc) {
      assert s == s.(ledger := s.ledger);
      PerformStoreFrame(s, h, PerformStore(s, h));
    }
  }

  lemma {:induction false} ParkingIsCounted(cfg: Config, run: seq<Action>, id: JobId, s: State)
    requires s == Exec(cfg, run)
    ensures forall c :: c in s.copies && c.queue == ParkingQueue && c.msg.id == id ==> Tally(s, id).parked >= 1
  {
    if run != [] {
      var n := |run| - 1;
      var prev, a := Exec(cfg, run[..n]), run[n];
      ParkingIsCounted(cfg, run[..n], id, prev);
      Reachable(cfg, run[..n]);
      if Parks(prev, a) {
        ParksCopy(cfg, prev, a, s);
      } else {
        NoNewParking(cfg, prev, a, s);
        NoneUnpublished(cfg, run[..n], prev);
        StepCounts(cfg, prev, a, s);
      }
    }
  }

  lemma NoneUnpublished(cfg: Config, run: seq<Action>, s: State)
    requires s == Exec(cfg, run)
    ensures forall id :: id !in s.enqueued ==> Tally(s, id) == Ledger(0, 0, 0, 0, 0)
  {
    BooksBalance(cfg, run);
    forall id | id !in s.enqueued ensures Tally(s, id) == Ledger(0, 0, 0, 0, 0) {
      TokenIsThere(cfg, run, id);
      assert TokenOk(cfg, s, id, Where(cfg, run, id));
    }
  }

  /** No queue holds any copy of the message. */
  ghost predicate NoCopy(s: State, id: JobId) { forall c :: c in s.copies ==> c.msg.id != id }

  /** When a message settled by parking is lost, exactly: no queue holds it if and only
      if the broker never took one of its parking publishes. */
  lemma LostIffNeverParked(cfg: Config, run: seq<Action>, id: JobId, s: State)
    requires Reaches(cfg, run, s) && id in s.settled && s.settled[id].Parked?
    ensures NoCopy(s, id) <==> Tally(s, id).parked == 0
  {
    assert Exec(cfg, run) == s;
    TokenIsThere(cfg, run, id);
    ParkingIsCounted(cfg, run, id, s);
    if Tally(s, id).parked >= 1 {
      ParkedIsInParking(cfg, run, id, s);
    } else {
      forall c | c in s.copies ensures c.msg.id != id {
        assert c.queue != ParkingQueue && c.msg.id == id ==> Live(c, id);
      }
    }
  }

  /** Nothing is lost silently: an acked message either belongs to a job that was
      completed, or was offered to the parking queue. Offered by the OCR worker, or
      accepted by the broker at least once, it lies in the parking queue. */
  lemma SettlementIsHonest(cfg: Config, run: seq<Action>, id: JobId, s: State)
    requires Reaches(cfg, run, s) && id in s.settled
    ensures id in s.requests
    ensures s.settled[id].Succeeded? ==> id in s.everCompleted
    ensures s.settled[id].Parked? ==> Tally(s, id).parkTries >= 1
    ensures s.settled[id].Parked? && (KindOf(s.requests[id]).Ocr? || Tally(s, id).parked >= 1) ==> InParking(s, id)
  {
    assert Exec(cfg, run) == s;
    BooksBalance(cfg, run);
    TokenIsThere(cfg, run, id);
    assert TokenOk(cfg, s, id, Where(cfg, run, id));
    if Tally(s, id).parked >= 1 {
      ParkedIsInParking(cfg, run, id, s);
    }
  }

  /** The broker takes every parking publish. */
  predicate ParkingAccepts(s: State, a: Action) {
    a.Work? && a.slot in s.workers && s.workers[a.slot].pc.Parking? ==> a.reply.Applied()
  }

  predicate TriesCount(l: Ledger) { l.parkTries <= l.parked }

  lemma TriesStep(cfg: Config, s: State, a: Action, id: JobId, t: State)
    requires t == Step(cfg, s, a) && ParkingAccepts(s, a) && TriesCount(Tally(s, id))
    ensures TriesCount(Tally(t, id))
  {
    if Enabled(s, a) {
      if a.Gateway? {
        ServeFrame(s, a.id, a.reply, t);
      } else if a.Work? && !Settling(s.workers[a.slot].pc) {
        EffectTries(s, s.workers[a.slot], a.reply, id);
      } else {
        OtherTries(cfg, s, a, id, t);
      }
    }
  }

  lemma EffectTries(s: State, h: Handler, reply: Reply, id: JobId)
    requires h.pc.Parking? ==> reply.Applied()
    requires TriesCount(Tally(s, id))
    ensures TriesCount(Tally(Effected(s, h, reply), id))
  {
    if !h.pc.Parking? {
      EffectFrame(s, h, reply);
    }
  }

  lemma OtherTries(cfg: Config, s: State, a: Action, id: JobId, t: State)
    requires Enabled(s, a) && !a.Gateway? && !(a.Work? && !Settling(s.workers[a.slot].pc)) && t == Apply(cfg, s, a)
    requires TriesCount(Tally(s, id))
    ensures TriesCount(Tally(t, id))
  {
  }

  lemma {:induction false} TriesSoFar(cfg: Config, run: seq<Action>, id: JobId, s: State)
    requires Always(cfg, run, ParkingAccepts) && s == Exec(cfg, run)
    ensures TriesCount(Tally(s, id))
  {
    if run != [] {
      var n := |run| - 1;
      TriesSoFar(cfg, run[..n], id, Exec(cfg, run[..n]));
      TriesStep(cfg, Exec(cfg, run[..n]), run[n], id, s);
    }
  }

  /** No loss, for both workers, as long as the parking publishes are accepted: an acked
      message belongs to a job that was completed, or lies in the parking queue. */
  lemma NothingLostIfParkingAccepts(cfg: Config, run: seq<Action>, id: JobId, s: State)
    requires Throughout(cfg, run, ParkingAccepts) && Reaches(cfg, run, s) && id in s.settled
    ensures if s.settled[id].Succeeded? then id in s.everCompleted else InParking(s, id)
  {
    assert Always(cfg, run, ParkingAccepts) && Exec(cfg, run) == s;
    TriesSoFar(cfg, run, id, s);
    SettlementIsHonest(cfg, run, id, s);
  }

  /** The image worker acks although its parking publish failed. From any reachable state
      in which an attempt holding its message is about to park, a refused publish and the
      ack settle the message by parking; it is then lost if and only if no earlier parking
      publish of it was taken, that is, unless an earlier attempt crashed between its
      parking and its ack. */
  lemma RefusedParkLoses(cfg: Config, run: seq<Action>, slot: nat, s: State, t: State)
    requires Reaches(cfg, run, s) && slot in s.workers && s.workers[slot].linked
    requires s.workers[slot].pc.Parking? && s.workers[slot].worker.Image?
    requires Reaches(cfg, run + [Work(slot, Refused), Work(slot, Done)], t)
    ensures var id := s.workers[slot].msg.id;
      && id in t.settled && t.settled[id] == Parked && t.copies == s.copies
      && (NoCopy(t, id) <==> Tally(s, id).parked == 0)
  {
    var longer := run + [Work(slot, Refused), Work(slot, Done)];
    assert Exec(cfg, run) == s && Exec(cfg, longer) == t;
    assert longer == run + [Work(slot, Refused)] + [Work(slot, Done)];
    ExecOne(cfg, run, Work(slot, Refused));
    ExecOne(cfg, run + [Work(slot, Refused)], Work(slot, Done));
    RefusedPark(cfg, s, slot);
    LostIffNeverParked(cfg, longer, s.workers[slot].msg.id, t);
  }

  lemma RefusedPark(cfg: Config, s: State, slot: nat)
    requires slot in s.workers && s.workers[slot].linked
    requires s.workers[slot].pc.Parking? && s.workers[slot].worker.Image?
    ensures var id, t := s.workers[slot].msg.id, Step(cfg, Step(cfg, s, Work(slot, Refused)), Work(slot, Done));
      id in t.settled && t.settled[id] == Parked && t.copies == s.copies && Tally(t, id).parked == Tally(s, id).parked
  {
    var u := Step(cfg, s, Work(slot, Refused));
    assert u == Effect(cfg, s, slot, Refused);
    assert u.workers[slot] ==
      Next(cfg, s.workers[slot], false, StatusRead(s, s.workers[slot]), DataRead(s, s.workers[slot]));
    assert u.workers[slot].pc == AckParked && u.workers[slot].linked && u.copies == s.copies;
    assert Step(cfg, u, Work(slot, Done)) == Settle(u, slot);
  }

  lemma InjectedState(cfg: Config, id: JobId, c: Copy, a: Action)
    requires c == Copy(ImageQueue, Message(id, Garbage([]), RoutingKey(Image), []))
    requires a == Inject(id, Image, [])
    ensures var s := Step(cfg, Init, a);
      s.copies == multiset{c} && s.workers == map[] && Tally(s, id) == Ledger(0, 0, 0, 0, 0)
  {
    PublishedToWork(c.msg, Image);
  }

  /** An undecodable message in the image queue is two steps from being parked. */
  lemma MalformedParks(cfg: Config, s: State, c: Copy, slot: nat)
    requires s.copies == multiset{c} && slot !in s.workers && c.queue == ImageQueue && c.msg.body.Garbage?
    ensures var t := Step(cfg, Step(cfg, s, Deliver(c, slot)), Work(slot, Done));
      && slot in t.workers && t.workers[slot].linked && t.workers[slot].pc.Parking?
      && t.workers[slot].worker.Image? && t.workers[slot].msg == c.msg
      && t.copies == multiset{} && Tally(t, c.msg.id).parked == Tally(s, c.msg.id).parked
  {
    var u := Step(cfg, s, Deliver(c, slot));
    assert u.copies == multiset{} && u.workers[slot].pc.Begin?;
    assert Step(cfg, u, Work(slot, Done)) == Effect(cfg, u, slot, Done);
  }

  lemma MalformedReachesParking(cfg: Config) returns (run: seq<Action>)
    ensures var s := Exec(cfg, run);
      && 0 in s.workers && s.workers[0].linked && s.workers[0].pc.Parking? && s.workers[0].worker.Image?
      && s.workers[0].msg.id == "m" && s.copies == multiset{} && Tally(s, "m").parked == 0
  {
    var c := Copy(ImageQueue, Message("m", Garbage([]), RoutingKey(Image), []));
    var a := Inject("m", Image, []);
    ExecOne(cfg, [], a);
    ExecOne(cfg, [] + [a], Deliver(c, 0));
    ExecOne(cfg, [] + [a] + [Deliver(c, 0)], Work(0, Done));
    InjectedState(cfg, "m", c, a);
    MalformedParks(cfg, Step(cfg, Init, a), c, 0);
    run := [] + [a] + [Deliver(c, 0)] + [Work(0, Done)];
  }

  /** So "no message is ever lost" fails of the image worker, by this run. */
  lemma ImageWorkerCanLose(cfg: Config)
    ensures exists run :: var s := Exec(cfg, run);
      "m" in s.settled && s.settled["m"] == Parked && Tally(s, "m").parked == 0 && s.copies == multiset{}
  {
    var run := MalformedReachesParking(cfg);
    RefusedPark(cfg, Exec(cfg, run), 0);
    ExecOne(cfg, run, Work(0, Refused));
    ExecOne(cfg, run + [Work(0, Refused)], Work(0, Done));
    var s := Exec(cfg, run + [Work(0, Refused)] + [Work(0, Done)]);
    assert "m" in s.settled;
  }
}
