/** The subscription protocol: a browser, the server and the FIFO channels between them,
    under any disconnects. While a connection is open at both ends, what the server knows
    of it and what is still on its way add up to what the browser subscribed to. */
module Subscriptions {
  import opened Media
  import opened Hubs
  import opened Servers
  import opened RealtimeClients

  /** wires: frames in flight to the server, oldest first, by connection. */
  datatype World = World(browser: Browser, server: View, wires: map<Client, seq<ClientFrame>>)

  const Start: World := World(Browser([], None, None, false, 0, NoSocket, {}, {}, 0, 0), View({}, {}), map[])

  datatype Step =
    | UserConnect
    | UserSubscribe(job: JobId)
    | UserClose
    | Accept
    | Opens
    | Beat
    | TimerFires(timer: TimerId)
    | Arrives(client: Client)
    | BrowserCloses
    | BrowserErrs
    | ServerCloses(client: Client)

  predicate Enabled(w: World, s: Step) {
    match s
    case UserConnect => w.browser.phase.NoSocket?
    case UserSubscribe(_) => true
    case UserClose => true
    case Accept => w.browser.phase.Connecting? && w.browser.socket !in w.wires
    case Opens => w.browser.phase.Connecting? && w.browser.socket in w.wires
    case Beat => w.browser.intervals != {}
    case TimerFires(t) => t in w.browser.pending
    case Arrives(c) => c in w.wires && c in w.server.open && w.wires[c] != []
    case BrowserCloses => w.browser.phase.Connecting? || w.browser.phase.Open? || w.browser.phase.Closing?
    case BrowserErrs => w.browser.phase.Connecting? || w.browser.phase.Open?
    case ServerCloses(c) => c in w.server.open
  }

  /** The browser hands frames to its socket. */
  function OnWire(w: World, frames: seq<ClientFrame>): map<Client, seq<ClientFrame>> {
    var id := w.browser.socket;
    if id in w.wires then w.wires[id := w.wires[id] + frames] else w.wires
  }

  function Take(w: World, s: Step): World
    requires Enabled(w, s)
  {
    var b := w.browser;
    match s
    case UserConnect => w.(browser := Connected(b))
    case UserSubscribe(j) =>
      w.(browser := b.(subscriptions := Add(b.subscriptions, j)), wires := OnWire(w, Sends(b, SubscribeTo(j))))
    case UserClose => w.(browser := UserClosed(b))
    case Accept => w.(server := Serve(w.server, Connect(b.socket)), wires := w.wires[b.socket := []])
    case Opens => w.(browser := Opened(b), wires := OnWire(w, Subscribes(b.subscriptions)))
    case Beat => w.(wires := OnWire(w, Sends(b, Ping)))
    case TimerFires(t) => w.(browser := Connected(b.(pending := b.pending - {t})))
    case Arrives(c) =>
      w.(server := Serve(w.server, Receive(c, w.wires[c][0])), wires := w.wires[c := w.wires[c][1..]])
    case BrowserCloses => w.(browser := SocketClosed(b))
    case BrowserErrs => w.(browser := b.(phase := Closing))
    case ServerCloses(c) => w.(server := Serve(w.server, Close(c)))
  }

  function Next(w: World, s: Step): World { if Enabled(w, s) then Take(w, s) else w }

  function Play(steps: seq<Step>): World {
    if steps == [] then Start else Next(Play(steps[..|steps| - 1]), steps[|steps| - 1])
  }

  // ---- invariants ----

  function HubJobs(w: World, c: Client): set<JobId> { set p | p in w.server.pairs && p.0 == c :: p.1 }

  function InFlight(wire: seq<ClientFrame>): set<JobId> {
    set i | 0 <= i < |wire| && wire[i].SubscribeTo? :: wire[i].job
  }

  /** The hub ignores the empty job id. */
  function Named(jobs: set<JobId>): set<JobId> { jobs - {""} }

  function Asked(b: Browser): set<JobId> { set i | 0 <= i < |b.subscriptions| :: b.subscriptions[i] }

  ghost predicate OpenBothEnds(w: World) {
    w.browser.phase.Open? && w.browser.socket in w.server.open && w.browser.socket in w.wires
  }

  /** Timers: the fields name all that is running; a timeout is pending exactly while
      there is no live socket and the user has not closed. */
  ghost predicate TimersOk(b: Browser) {
    && b.intervals == IdSet(b.heartbeat)
    && (forall t :: t in b.pending ==> b.reconnectTimer == Some(t))
    && (b.heartbeat.Some? ==> b.heartbeat.value < b.timers)
    && (b.reconnectTimer.Some? ==> b.reconnectTimer.value < b.timers)
    && (b.pending != {} <==> b.phase.Closed? && !b.closedByUser)
    && (b.intervals != {} ==> b.phase.Open? || b.phase.Closing?)
    && (b.phase.Open? ==> b.heartbeat.Some?)
    && (b.closedByUser ==> b.heartbeat.None? && (b.phase.NoSocket? || b.phase.Closing? || b.phase.Closed?))
  }

  ghost predicate SocketsOk(w: World) {
    && (w.browser.phase.NoSocket? ==> w.browser.sockets == 0 && w.wires == map[] && w.server == View({}, {}))
    && (!w.browser.phase.NoSocket? ==> w.browser.socket == w.browser.sockets - 1)
    && (forall c :: c in w.wires || c in w.server.open ==> 0 <= c < w.browser.sockets)
    && (forall p :: p in w.server.pairs ==> p.0 in w.server.open)
    && (forall c :: c in w.server.open ==> c in w.wires)
    && (w.browser.phase.Open? ==> w.browser.socket in w.wires)
  }

  ghost predicate Converges(w: World) {
    var id := w.browser.socket;
    && (w.browser.phase.Connecting? && id in w.wires ==> w.wires[id] == [] && HubJobs(w, id) == {})
    && (w.browser.phase.Connecting? && id !in w.wires ==> HubJobs(w, id) == {})
    && (forall c :: c in w.wires ==> forall f :: f in w.wires[c] ==> f.SubscribeTo? || f.Ping?)
    && (OpenBothEnds(w) ==> HubJobs(w, id) + Named(InFlight(w.wires[id])) == Named(Asked(w.browser)))
  }

  ghost predicate Inv(w: World) { TimersOk(w.browser) && SocketsOk(w) && Converges(w) }

  lemma TimersStep(w: World, s: Step)
    requires Inv(w)
    ensures TimersOk(Next(w, s).browser)
  {
    var b := w.browser;
    assert CleanedUp(b).pending == {} && CleanedUp(b).intervals == {};
    if Enabled(w, s) {
      match s
      case Opens => assert b.pending == {} && Opened(b).intervals == {b.timers};
      case TimerFires(t) => assert b.phase.Closed? && b.intervals == {} && b.pending - {t} == {};
      case _ =>
    }
  }

  lemma SocketsStep(w: World, s: Step)
    requires Inv(w)
    ensures SocketsOk(Next(w, s))
  {
  }

  // ---- convergence ----

  lemma InFlightAppends(wire: seq<ClientFrame>, frames: seq<ClientFrame>)
    ensures InFlight(wire + frames) == InFlight(wire) + InFlight(frames)
  {
    forall j | j in InFlight(wire) + InFlight(frames) ensures j in InFlight(wire + frames) {
      if j in InFlight(wire) {
        var i :| 0 <= i < |wire| && wire[i].SubscribeTo? && wire[i].job == j;
        assert (wire + frames)[i] == wire[i];
      } else {
        var i :| 0 <= i < |frames| && frames[i].SubscribeTo? && frames[i].job == j;
        assert (wire + frames)[|wire| + i] == frames[i];
      }
    }
  }

  lemma InFlightOne(frame: ClientFrame)
    ensures InFlight([frame]) == if frame.SubscribeTo? then {frame.job} else {}
  {
    if frame.SubscribeTo? {
      assert [frame][0] == frame;
      assert frame.job in InFlight([frame]);
    }
  }

  lemma InFlightAll(b: Browser)
    ensures InFlight(Subscribes(b.subscriptions)) == Asked(b)
  {
    var frames := Subscribes(b.subscriptions);
    forall j | j in Asked(b) ensures j in InFlight(frames) {
      var i :| 0 <= i < |b.subscriptions| && b.subscriptions[i] == j;
      assert frames[i] == SubscribeTo(j);
    }
  }

  lemma AskedAdds(b: Browser, j: JobId)
    ensures Asked(b.(subscriptions := Add(b.subscriptions, j))) == Asked(b) + {j}
  {
    var c := b.(subscriptions := Add(b.subscriptions, j));
    if j in b.subscriptions {
      var i :| 0 <= i < |b.subscriptions| && b.subscriptions[i] == j;
      assert b.subscriptions[i] in Asked(b);
    } else {
      assert c.subscriptions[|b.subscriptions|] == j;
      forall k | k in Asked(b) ensures k in Asked(c) {
        var i :| 0 <= i < |b.subscriptions| && b.subscriptions[i] == k;
        assert c.subscriptions[i] == k;
      }
    }
  }

  lemma SubscribeConverges(w: World, j: JobId)
    requires Inv(w)
    ensures Converges(Next(w, UserSubscribe(j)))
  {
    var b := w.browser;
    var t := Next(w, UserSubscribe(j));
    AskedAdds(b, j);
    if b.socket in w.wires {
      InFlightAppends(w.wires[b.socket], Sends(b, SubscribeTo(j)));
      InFlightOne(SubscribeTo(j));
      assert OpenBothEnds(t) ==> InFlight(t.wires[b.socket]) == InFlight(w.wires[b.socket]) + {j};
    }
    assert HubJobs(t, b.socket) == HubJobs(w, b.socket);
    assert forall f :: f in Sends(b, SubscribeTo(j)) ==> f.SubscribeTo?;
    if OpenBothEnds(t) {
      var id := b.socket;
      assert Named(InFlight(w.wires[id]) + {j}) == Named(InFlight(w.wires[id])) + Named({j});
      assert Named(Asked(b) + {j}) == Named(Asked(b)) + Named({j});
    }
  }

  lemma OpensConverges(w: World)
    requires Inv(w)
    ensures Converges(Next(w, Opens))
  {
    var b := w.browser;
    if Enabled(w, Opens) {
      InFlightAppends(w.wires[b.socket], Subscribes(b.subscriptions));
      InFlightAll(b);
      assert HubJobs(Next(w, Opens), b.socket) == HubJobs(w, b.socket);
    }
  }

  lemma BeatConverges(w: World)
    requires Inv(w)
    ensures Converges(Next(w, Beat))
  {
    var b := w.browser;
    if Enabled(w, Beat) && b.socket in w.wires {
      InFlightAppends(w.wires[b.socket], Sends(b, Ping));
      InFlightOne(Ping);
      assert HubJobs(Next(w, Beat), b.socket) == HubJobs(w, b.socket);
    }
  }

  /** Taking a frame off the wire moves its job, if it names one, to the hub. */
  lemma ArrivesConverges(w: World, c: Client)
    requires Inv(w)
    ensures Converges(Next(w, Arrives(c)))
  {
    if Enabled(w, Arrives(c)) {
      var t, id, frame := Next(w, Arrives(c)), w.browser.socket, w.wires[c][0];
      assert frame in w.wires[c];
      assert w.wires[c] == [frame] + w.wires[c][1..];
      InFlightAppends([frame], w.wires[c][1..]);
      InFlightOne(frame);
      assert HubJobs(t, id) == if c == id then HubJobs(w, id) + Named(InFlight([frame])) else HubJobs(w, id);
    }
  }

  lemma OtherConverges(w: World, s: Step)
    requires Inv(w) && !s.UserSubscribe? && !s.Opens? && !s.Beat? && !s.Arrives?
    ensures Converges(Next(w, s))
  {
    if Enabled(w, s) {
      var t := Next(w, s);
      var id := w.browser.socket;
      if s.TimerFires? || s.UserConnect? {
        assert HubJobs(t, t.browser.socket) == {};
      } else if s.ServerCloses? && s.client == id {
        assert HubJobs(t, id) == {};
      } else {
        assert HubJobs(t, id) == HubJobs(w, id);
      }
    }
  }

  lemma StepKeeps(w: World, s: Step)
    requires Inv(w)
    ensures Inv(Next(w, s))
  {
    TimersStep(w, s);
    SocketsStep(w, s);
    match s
    case UserSubscribe(j) => SubscribeConverges(w, j);
    case Opens => OpensConverges(w);
    case Beat => BeatConverges(w);
    case Arrives(c) => ArrivesConverges(w, c);
    case _ => OtherConverges(w, s);
  }

  lemma {:induction false} Reachable(steps: seq<Step>)
    ensures Inv(Play(steps))
  {
    if steps != [] {
      Reachable(steps[..|steps| - 1]);
      StepKeeps(Play(steps[..|steps| - 1]), steps[|steps| - 1]);
    }
  }

  // ---- main results ----

  /** In every reachable world with a connection open at both ends, the jobs the hub has
      for it and the subscriptions on their way are together exactly what the browser
      asked for. */
  lemma SubscriptionsConverge(steps: seq<Step>, w: World)
    requires w == Play(steps) && OpenBothEnds(w)
    ensures HubJobs(w, w.browser.socket) + Named(InFlight(w.wires[w.browser.socket])) == Named(Asked(w.browser))
  {
    Reachable(steps);
  }

  /** So once the channel has drained, a broadcast reaches the browser if and only if it
      subscribed to that job. */
  lemma BroadcastReachesIffAsked(steps: seq<Step>, w: World, j: JobId)
    requires w == Play(steps) && OpenBothEnds(w) && w.wires[w.browser.socket] == [] && j != ""
    ensures w.browser.socket in Subscribers(w.server.pairs, j) <==> j in w.browser.subscriptions
  {
    SubscriptionsConverge(steps, w);
    assert InFlight([]) == {};
    assert w.browser.socket in Subscribers(w.server.pairs, j) <==> j in HubJobs(w, w.browser.socket);
  }

  /** Never more than one timeout is pending, and none while a socket is live: so the
      client never has two sockets. */
  lemma OneTimerOneSocket(steps: seq<Step>, w: World)
    requires w == Play(steps)
    ensures |w.browser.pending| <= 1 && |w.browser.intervals| <= 1
    ensures w.browser.pending != {} ==> w.browser.phase.Closed?
  {
    Reachable(steps);
    assert w.browser.pending == {} || (w.browser.reconnectTimer.Some? &&
      w.browser.pending == {w.browser.reconnectTimer.value});
  }

  /** After close() nothing is scheduled, no heartbeat runs, the socket is closing or
      closed, and no socket is ever opened again. */
  lemma {:induction false} ClosedForGood(steps: seq<Step>, more: seq<Step>)
    requires steps <= more && Play(steps).browser.closedByUser && !Play(steps).browser.phase.NoSocket?
    ensures Play(more).browser.closedByUser && Play(more).browser.pending == {}
    ensures Play(more).browser.intervals == {}
    ensures Play(more).browser.phase == Closing || Play(more).browser.phase == Closed
    ensures Play(more).browser.sockets == Play(steps).browser.sockets && !Play(more).browser.phase.NoSocket?
  {
    Reachable(more);
    if steps != more {
      ClosedForGood(steps, more[..|more| - 1]);
      Reachable(more[..|more| - 1]);
    }
  }

  /** Connections can be lost at either end at any time: the server forgets the client's
      subscriptions, the browser's socket is closed and, unless the user closed it, a
      timeout is set to make another. */
  lemma LostAtAnyTime(steps: seq<Step>, w: World, c: Client)
    requires w == Play(steps) && c in w.server.open
    ensures c !in Play(steps + [ServerCloses(c)]).server.open && HubJobs(Play(steps + [ServerCloses(c)]), c) == {}
    ensures w.browser.phase == Connecting || w.browser.phase == Open || w.browser.phase == Closing ==>
      var b := Play(steps + [BrowserCloses]).browser;
      b.phase == Closed && (b.pending == {} <==> w.browser.closedByUser) && b.subscriptions == w.browser.subscriptions
    ensures w.browser.phase == Open ==> Play(steps + [BrowserErrs]).browser == w.browser.(phase := Closing)
  {
    Reachable(steps);
    Reachable(steps + [BrowserCloses]);
    PlayOne(steps, ServerCloses(c));
    PlayOne(steps, BrowserCloses);
    PlayOne(steps, BrowserErrs);
  }

  /** An open socket has its heartbeat, exactly one, and each beat puts one ping on the
      wire; a socket that is connecting or closed has none. */
  lemma HeartbeatWhileOpen(steps: seq<Step>, w: World)
    requires w == Play(steps)
    ensures w.browser.phase == Open ==> |w.browser.intervals| == 1
    ensures w.browser.phase == Connecting || w.browser.phase == Closed ==> w.browser.intervals == {}
    ensures w.browser.phase == Open ==>
      w.browser.socket in w.wires &&
      Play(steps + [Beat]) == w.(wires := w.wires[w.browser.socket := w.wires[w.browser.socket] + [Ping]])
    ensures w.browser.phase != Open ==> Play(steps + [Beat]).wires == w.wires
  {
    Reachable(steps);
    PlayOne(steps, Beat);
    if w.browser.phase != Open && w.browser.socket in w.wires {
      assert w.wires[w.browser.socket] + [] == w.wires[w.browser.socket];
    }
  }

  lemma PlayOne(steps: seq<Step>, s: Step)
    ensures Play(steps + [s]) == Next(Play(steps), s)
  {
    assert (steps + [s])[..|steps|] == steps;
  }

  predicate ByUser(s: Step) { s.UserConnect? || s.UserSubscribe? || s.UserClose? }

  /** The continuation holds no step of the user's. */
  predicate Unaided(steps: seq<Step>, more: seq<Step>) {
    steps <= more && forall i :: |steps| <= i < |more| ==> !ByUser(more[i])
  }

  lemma {:induction false} Drains(steps: seq<Step>) returns (more: seq<Step>)
    requires OpenBothEnds(Play(steps))
    ensures Unaided(steps, more) && OpenBothEnds(Play(more))
    ensures Play(more).browser == Play(steps).browser && Play(more).wires[Play(more).browser.socket] == []
    decreases |Play(steps).wires[Play(steps).browser.socket]|
  {
    var w := Play(steps);
    var id := w.browser.socket;
    if w.wires[id] == [] {
      more := steps;
    } else {
      PlayOne(steps, Arrives(id));
      more := Drains(steps + [Arrives(id)]);
    }
  }

  lemma Reopens(steps: seq<Step>, t: TimerId) returns (more: seq<Step>)
    requires t in Play(steps).browser.pending
    ensures Unaided(steps, more) && OpenBothEnds(Play(more))
    ensures Play(more).browser.subscriptions == Play(steps).browser.subscriptions
  {
    Reachable(steps);
    var s1 := steps + [TimerFires(t)];
    var s2 := s1 + [Accept];
    more := s2 + [Opens];
    PlayOne(steps, TimerFires(t));
    PlayOne(s1, Accept);
    PlayOne(s2, Opens);
  }

  /** The client always comes back: from every reachable world in which the user has
      connected and not closed, its own timers, the server and the network lead, without
      any help from the user, to a world in which a broadcast reaches it exactly for the
      jobs it had asked for. */
  lemma AlwaysComesBack(steps: seq<Step>) returns (more: seq<Step>)
    requires !Play(steps).browser.closedByUser && !Play(steps).browser.phase.NoSocket?
    ensures Unaided(steps, more) && OpenBothEnds(Play(more))
    ensures Play(more).browser.subscriptions == Play(steps).browser.subscriptions
    ensures forall j :: j != "" ==>
      (Play(more).browser.socket in Subscribers(Play(more).server.pairs, j) <==> j in Play(steps).browser.subscriptions)
  {
    Reachable(steps);
    var down := steps;
    if !Play(steps).browser.phase.Closed? {
      down := steps + [BrowserCloses];
      PlayOne(steps, BrowserCloses);
    }
    Reachable(down);
    var t :| t in Play(down).browser.pending;
    more := Reopens(down, t);
    more := Drains(more);
    forall j | j != ""
      ensures Play(more).browser.socket in Subscribers(Play(more).server.pairs, j) <==>
        j in Play(steps).browser.subscriptions
    {
      BroadcastReachesIffAsked(more, Play(more), j);
    }
  }
}
