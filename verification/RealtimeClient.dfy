/** The browser's realtime client: one socket, the subscriptions it restores on every
    connection, a heartbeat and a reconnect timer. The class is the client; the functions
    say what each of its methods and callbacks does to its fields, to the timers of the
    runtime and to the socket. */
module RealtimeClients {
  import opened Media
  import opened Servers

  datatype Phase = NoSocket | Connecting | Open | Closing | Closed

  type TimerId = nat

  /** The client's fields, and what the runtime knows of it: the socket in use and its
      readyState, the intervals running, the timeouts pending, and how many timers and
      sockets were ever made. */
  datatype Browser = Browser(
    subscriptions: seq<JobId>, heartbeat: Option<TimerId>, reconnectTimer: Option<TimerId>, closedByUser: bool,
    socket: nat, phase: Phase, intervals: set<TimerId>, pending: set<TimerId>, timers: nat, sockets: nat)

  function IdSet(t: Option<TimerId>): set<TimerId> { if t.Some? then {t.value} else {} }

  /** Insertion order, no duplicates. */
  function Add(subs: seq<JobId>, j: JobId): seq<JobId> { if j in subs then subs else subs + [j] }

  function Subscribes(subs: seq<JobId>): seq<ClientFrame> {
    seq(|subs|, i requires 0 <= i < |subs| => SubscribeTo(subs[i]))
  }

  function Sends(b: Browser, frame: ClientFrame): seq<ClientFrame> { if b.phase.Open? then [frame] else [] }

  function CleanedUp(b: Browser): Browser {
    b.(intervals := b.intervals - IdSet(b.heartbeat), pending := b.pending - IdSet(b.reconnectTimer),
       heartbeat := None, reconnectTimer := None)
  }

  function Connected(b: Browser): Browser {
    b.(closedByUser := false, socket := b.sockets, phase := Connecting, sockets := b.sockets + 1)
  }

  function Opened(b: Browser): Browser {
    b.(phase := Open, heartbeat := Some(b.timers), intervals := b.intervals + {b.timers}, timers := b.timers + 1)
  }

  function SocketClosed(b: Browser): Browser {
    var c := CleanedUp(b).(phase := Closed);
    if c.closedByUser then c
    else c.(reconnectTimer := Some(c.timers), pending := c.pending + {c.timers}, timers := c.timers + 1)
  }

  function UserClosed(b: Browser): Browser {
    CleanedUp(b).(closedByUser := true, phase := if b.phase.Connecting? || b.phase.Open? then Closing else b.phase)
  }

  class RealtimeClient {
    var subscriptions: seq<JobId>
    var heartbeat: Option<TimerId>
    var reconnectTimer: Option<TimerId>
    var closedByUser: bool

    var socket: nat
    var phase: Phase
    var intervals: set<TimerId>
    var pending: set<TimerId>
    var timers: nat
    var sockets: nat
    /** Frames handed to the current socket. */
    var sent: seq<ClientFrame>

    function State(): Browser
      reads this
    {
      Browser(subscriptions, heartbeat, reconnectTimer, closedByUser, socket, phase,
              intervals, pending, timers, sockets)
    }

    constructor ()
      ensures State() == Browser([], None, None, false, 0, NoSocket, {}, {}, 0, 0) && sent == []
    {
      subscriptions, heartbeat, reconnectTimer, closedByUser := [], None, None, false;
      socket, phase, intervals, pending, timers, sockets, sent := 0, NoSocket, {}, {}, 0, 0, [];
    }

    method SetTimer() returns (id: TimerId)
      modifies this`timers
      ensures id == old(timers) && timers == old(timers) + 1
    {
      id := timers;
      timers := timers + 1;
    }

    method Send(frame: ClientFrame)
      modifies this`sent
      ensures sent == old(sent) + Sends(State(), frame)
      ensures sent == if phase == Open then old(sent) + [frame] else old(sent)
    {
      if phase.Open? {
        sent := sent + [frame];
      }
    }

    method Cleanup()
      modifies this`heartbeat, this`reconnectTimer, this`intervals, this`pending
      ensures State() == CleanedUp(old(State()))
    {
      if heartbeat.Some? {
        intervals := intervals - {heartbeat.value};
      }
      if reconnectTimer.Some? {
        pending := pending - {reconnectTimer.value};
      }
      heartbeat := None;
      reconnectTimer := None;
    }

    method Connect()
      modifies this
      ensures State() == Connected(old(State())) && sent == []
      ensures phase == Connecting && socket == old(sockets) && sockets == old(sockets) + 1 && !closedByUser
      ensures subscriptions == old(subscriptions) && pending == old(pending) && intervals == old(intervals)
    {
      closedByUser := false;
      socket, phase, sent := sockets, Connecting, [];
      sockets := sockets + 1;
    }

    /** Restores every subscription, in the order they were made. */
    method OnOpen()
      modifies this
      ensures State() == Opened(old(State()))
      ensures sent == old(sent) + Subscribes(subscriptions)
      ensures phase == Open && heartbeat == Some(old(timers)) && intervals == old(intervals) + {old(timers)}
      ensures |sent| == |old(sent)| + |subscriptions| && old(sent) <= sent
      ensures forall i :: 0 <= i < |subscriptions| ==> sent[|old(sent)| + i] == SubscribeTo(subscriptions[i])
    {
      phase := Open;
      for i := 0 to |subscriptions|
        invariant State() == old(State()).(phase := Open)
        invariant sent == old(sent) + Subscribes(subscriptions[..i])
      {
        Send(SubscribeTo(subscriptions[i]));
        assert Subscribes(subscriptions[..i + 1]) == Subscribes(subscriptions[..i]) + [SubscribeTo(subscriptions[i])];
      }
      assert subscriptions[..|subscriptions|] == subscriptions;
      var id := SetTimer();
      heartbeat := Some(id);
      intervals := intervals + {id};
    }

    method OnHeartbeat()
      modifies this`sent
      ensures sent == old(sent) + Sends(State(), Ping)
      ensures sent == if phase == Open then old(sent) + [Ping] else old(sent)
    {
      Send(Ping);
    }

    method OnClose()
      modifies this
      ensures State() == SocketClosed(old(State())) && sent == old(sent)
      ensures phase == Closed && heartbeat == None && subscriptions == old(subscriptions)
      ensures old(heartbeat).Some? ==> old(heartbeat).value !in intervals
      ensures closedByUser ==> reconnectTimer == None && pending <= old(pending)
      ensures !closedByUser ==> reconnectTimer == Some(old(timers)) && old(timers) in pending
    {
      phase := Closed;
      Cleanup();
      if !closedByUser {
        var id := SetTimer();
        reconnectTimer := Some(id);
        pending := pending + {id};
      }
    }

    method Subscribe(job: JobId)
      modifies this`subscriptions, this`sent
      ensures State() == old(State()).(subscriptions := Add(old(subscriptions), job))
      ensures sent == old(sent) + Sends(State(), SubscribeTo(job))
      ensures subscriptions == if job in old(subscriptions) then old(subscriptions) else old(subscriptions) + [job]
      ensures sent == if phase == Open then old(sent) + [SubscribeTo(job)] else old(sent)
    {
      if job !in subscriptions {
        subscriptions := subscriptions + [job];
      }
      Send(SubscribeTo(job));
    }

    method Close()
      modifies this
      ensures State() == UserClosed(old(State())) && sent == old(sent)
      ensures closedByUser && heartbeat == None && reconnectTimer == None && subscriptions == old(subscriptions)
      ensures old(heartbeat).Some? ==> old(heartbeat).value !in intervals
      ensures old(reconnectTimer).Some? ==> old(reconnectTimer).value !in pending
      ensures phase == if old(phase) == Connecting || old(phase) == Open then Closing else old(phase)
    {
      closedByUser := true;
      Cleanup();
      if phase.Connecting? || phase.Open? {
        phase := Closing;
      }
    }
  }
}
