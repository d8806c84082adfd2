/** The realtime gateway's server: it ties the hub to the lives of its connections and
    keeps the counters it reports. */
module Servers {
  import opened Media
  import opened Hubs

  /** What a client may send; a missing job id is the empty one. */
  datatype ClientFrame = Garbled | SubscribeTo(job: JobId) | UnsubscribeFrom(job: JobId) | Ping | Other

  datatype ServerFrame = Welcome(client: Client) | InvalidJson | Subscribed(job: JobId) | Pong

  // ---- specification ----

  /** Open connections and who is subscribed to what. */
  datatype View = View(open: set<Client>, pairs: set<(Client, JobId)>)

  datatype Input = Connect(client: Client) | Receive(client: Client, frame: ClientFrame) | Close(client: Client)
                 | Deliver(job: JobId)

  function Forget(pairs: set<(Client, JobId)>, client: Client): set<(Client, JobId)> {
    set p | p in pairs && p.0 != client
  }

  function Serve(v: View, i: Input): View {
    match i
    case Connect(c) => v.(open := v.open + {c})
    case Receive(c, SubscribeTo(j)) => if j == "" then v else v.(pairs := v.pairs + {(c, j)})
    case Receive(c, UnsubscribeFrom(j)) => if j == "" then v else v.(pairs := v.pairs - {(c, j)})
    case Close(c) => View(v.open - {c}, Forget(v.pairs, c))
    case _ => v
  }

  function ServeAll(inputs: seq<Input>): View {
    if inputs == [] then View({}, {}) else Serve(ServeAll(inputs[..|inputs| - 1]), inputs[|inputs| - 1])
  }

  /** What a socket does: it connects once, under a fresh id, and sends and closes only
      while open. */
  predicate Lifelike(inputs: seq<Input>) {
    inputs == [] ||
    var past, i := inputs[..|inputs| - 1], inputs[|inputs| - 1];
    Lifelike(past) &&
    match i
    case Connect(c) => Connect(c) !in past
    case Receive(c, _) => c in ServeAll(past).open
    case Close(c) => c in ServeAll(past).open
    case Deliver(_) => true
  }

  /** Whether the last thing heard from c that concerns j asked for it. */
  predicate Wants(inputs: seq<Input>, c: Client, j: JobId) {
    inputs != [] &&
    var past, i := inputs[..|inputs| - 1], inputs[|inputs| - 1];
    if i == Receive(c, SubscribeTo(j)) then true
    else if i == Receive(c, UnsubscribeFrom(j)) || i == Close(c) then false
    else Wants(past, c, j)
  }

  /** Over all lives of all connections: a client is subscribed to a job exactly if its
      last word on it, since it connected, was to subscribe; and only open connections
      are subscribed to anything, so nothing leaks after a close. */
  lemma {:induction false} SubscribedIffWanted(inputs: seq<Input>, c: Client, j: JobId)
    requires Lifelike(inputs) && j != ""
    ensures (c, j) in ServeAll(inputs).pairs <==> Wants(inputs, c, j)
    ensures Clients(ServeAll(inputs).pairs) <= ServeAll(inputs).open
  {
    if inputs != [] {
      SubscribedIffWanted(inputs[..|inputs| - 1], c, j);
    }
  }

  /** Open are exactly the connections made and not yet closed, and nobody is ever
      subscribed to the empty job id. */
  lemma {:induction false} OpenIffNotClosed(inputs: seq<Input>, c: Client)
    requires Lifelike(inputs)
    ensures c in ServeAll(inputs).open <==> Connect(c) in inputs && Close(c) !in inputs
    ensures (c, "") !in ServeAll(inputs).pairs
  {
    if inputs != [] {
      var n := |inputs| - 1;
      OpenIffNotClosed(inputs[..n], c);
      assert inputs == inputs[..n] + [inputs[n]];
      if inputs[n] == Connect(c) {
        NotYetClosed(inputs[..n], c);
      }
    }
  }

  lemma {:induction false} NotYetClosed(inputs: seq<Input>, c: Client)
    requires Lifelike(inputs) && Connect(c) !in inputs
    ensures Close(c) !in inputs && c !in ServeAll(inputs).open
  {
    if inputs != [] {
      var n := |inputs| - 1;
      assert inputs == inputs[..n] + [inputs[n]];
      NotYetClosed(inputs[..n], c);
    }
  }

  // ---- implementation ----

  class Server {
    const hub: Hub
    var connected: int
    var trackedJobs: nat
    var eventsDelivered: nat
    ghost var open: set<Client>

    ghost predicate Valid()
      reads this, hub
    {
      && hub.Valid() && hub.byClient.Keys <= open
      && connected == |open|
      && trackedJobs == |Jobs(hub.Pairs())|
    }

    ghost function State(): View
      reads this, hub
    {
      View(open, hub.Pairs())
    }

    constructor ()
      ensures Valid() && fresh(hub) && State() == View({}, {}) && eventsDelivered == 0
    {
      hub := new Hub();
      connected, trackedJobs, eventsDelivered, open := 0, 0, 0, {};
      new;
      assert Jobs(hub.Pairs()) == {};
    }

    method OnConnection(client: Client) returns (greeting: ServerFrame)
      requires Valid() && client !in open
      modifies this
      ensures Valid() && State() == Serve(old(State()), Connect(client)) && eventsDelivered == old(eventsDelivered)
      ensures greeting == Welcome(client)
    {
      connected := connected + 1;
      open := open + {client};
      greeting := Welcome(client);
    }

    method OnMessage(client: Client, frame: ClientFrame) returns (replies: seq<ServerFrame>)
      requires Valid() && client in open
      modifies this, hub
      ensures Valid() && State() == Serve(old(State()), Receive(client, frame))
      ensures eventsDelivered == old(eventsDelivered)
      ensures replies ==
        match frame
        case Garbled => [InvalidJson]
        case SubscribeTo(j) => if j == "" then [] else [Subscribed(j)]
        case Ping => [Pong]
        case _ => []
    {
      replies := [];
      match frame {
        case Garbled =>
          return [InvalidJson];
        case SubscribeTo(job) =>
          if job != "" {
            hub.Subscribe(client, job);
            replies := [Subscribed(job)];
          }
        case UnsubscribeFrom(job) =>
          if job != "" {
            hub.Unsubscribe(client, job);
          }
        case Ping =>
          replies := [Pong];
        case Other =>
      }
      trackedJobs := hub.JobCount();
    }

    method OnClose(client: Client)
      requires Valid() && client in open
      modifies this, hub
      ensures Valid() && State() == Serve(old(State()), Close(client)) && eventsDelivered == old(eventsDelivered)
    {
      hub.Remove(client);
      assert hub.Pairs() == Forget(old(hub.Pairs()), client);
      assert hub.byClient.Keys <= open - {client};
      Disconnected(client);
      trackedJobs := hub.JobCount();
    }

    method Disconnected(client: Client)
      requires client in open && connected == |open|
      modifies this`connected, this`open
      ensures open == old(open) - {client} && connected == |open|
    {
      connected := connected - 1;
      open := open - {client};
    }

    /** The consumer's callback for a lifecycle event. */
    method OnEvent(job: JobId) returns (log: seq<Sent>)
      requires Valid()
      modifies this
      ensures Valid() && State() == Serve(old(State()), Deliver(job))
      ensures multiset(Receivers(log)) == multiset(Subscribers(hub.Pairs(), job))
      ensures eventsDelivered == old(eventsDelivered) + Successes(log)
    {
      var delivered: nat;
      delivered, log := hub.Broadcast(job);
      eventsDelivered := eventsDelivered + delivered;
      trackedJobs := hub.JobCount();
    }
  }
}
