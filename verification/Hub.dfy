/** The realtime gateway's hub: two mutable indexes over one relation between clients
    and jobs. Every operation is specified by what it does to the relation. */
module Hubs {
  import opened Media

  /** A connected client; only identity matters. */
  type Client = int

  /** What became of one attempt to send. */
  datatype Sent = Sent(client: Client, ok: bool)

  function Successes(log: seq<Sent>): nat {
    if log == [] then 0
    else Successes(log[..|log| - 1]) + if log[|log| - 1].ok then 1 else 0
  }

  function Receivers(log: seq<Sent>): seq<Client> { seq(|log|, i requires 0 <= i < |log| => log[i].client) }

  function Clients(pairs: set<(Client, JobId)>): set<Client> { set p | p in pairs :: p.0 }

  function Subscribers(pairs: set<(Client, JobId)>, job: JobId): set<Client> {
    set p | p in pairs && p.1 == job :: p.0
  }

  function Jobs(pairs: set<(Client, JobId)>): set<JobId> { set p | p in pairs :: p.1 }

  predicate Listed(m: map<JobId, set<Client>>, j: JobId, c: Client) { j in m && c in m[j] }

  ghost function PairsOf(m: map<JobId, set<Client>>): (pairs: set<(Client, JobId)>)
    ensures forall c, j :: (c, j) in pairs <==> Listed(m, j, c)
  {
    set c, j | j in m && c in m[j] :: (c, j)
  }

  lemma SamePairs(pairs: set<(Client, JobId)>, other: set<(Client, JobId)>)
    requires forall c, j :: (c, j) in pairs <==> (c, j) in other
    ensures pairs == other
  {
    forall p | p in pairs ensures p in other {
      var (c, j) := p;
      assert (c, j) in pairs && (c, j) in other;
    }
    forall p | p in other ensures p in pairs {
      var (c, j) := p;
      assert (c, j) in other && (c, j) in pairs;
    }
  }

  class Hub {
    var byJob: map<JobId, set<Client>>
    var byClient: map<Client, set<JobId>>

    ghost predicate Valid()
      reads this
    {
      && (forall j :: j in byJob ==> byJob[j] != {})
      && (forall j, c :: Listed(byJob, j, c) <==> c in byClient && j in byClient[c])
    }

    ghost function Pairs(): set<(Client, JobId)>
      reads this
    {
      PairsOf(byJob)
    }

    constructor ()
      ensures Valid() && Pairs() == {} && byClient == map[]
    {
      byJob, byClient := map[], map[];
    }

    method Subscribe(client: Client, job: JobId)
      requires Valid()
      modifies this
      ensures Valid() && Pairs() == old(Pairs()) + {(client, job)}
      ensures byClient.Keys == old(byClient.Keys) + {client}
    {
      if job !in byJob {
        byJob := byJob[job := {}];
      }
      byJob := byJob[job := byJob[job] + {client}];
      if client !in byClient {
        byClient := byClient[client := {}];
      }
      byClient := byClient[client := byClient[client] + {job}];
      assert forall j, c :: Listed(byJob, j, c) <==> Listed(old(byJob), j, c) || (j == job && c == client);
      SamePairs(Pairs(), old(Pairs()) + {(client, job)});
    }

    /** An emptied job is forgotten; a client with no job left is not. */
    method Unsubscribe(client: Client, job: JobId)
      requires Valid()
      modifies this
      ensures Valid() && Pairs() == old(Pairs()) - {(client, job)}
      ensures byClient.Keys == old(byClient.Keys)
    {
      DropFrom(client, job);
      if client in byClient {
        byClient := byClient[client := byClient[client] - {job}];
      }
      SamePairs(Pairs(), old(Pairs()) - {(client, job)});
    }

    method DropFrom(client: Client, job: JobId)
      requires forall j :: j in byJob ==> byJob[j] != {}
      modifies this`byJob
      ensures forall j :: j in byJob ==> byJob[j] != {}
      ensures forall j, c :: Listed(byJob, j, c) <==> Listed(old(byJob), j, c) && !(j == job && c == client)
    {
      if job in byJob {
        byJob := byJob[job := byJob[job] - {client}];
        if byJob[job] == {} {
          assert forall c :: Listed(old(byJob), job, c) ==> c == client || c in byJob[job];
          byJob := byJob - {job};
        }
      }
    }

    /** Erases exactly one client's pairs, and its entry. */
    method Remove(client: Client)
      requires Valid()
      modifies this
      ensures Valid() && Pairs() == set p | p in old(Pairs()) && p.0 != client
      ensures byClient == old(byClient) - {client}
    {
      if client !in byClient {
        SamePairs(Pairs(), set p | p in old(Pairs()) && p.0 != client);
        return;
      }
      var jobs := byClient[client];
      var todo := jobs;
      while todo != {}
        invariant todo <= jobs && byClient == old(byClient)
        invariant forall j :: j in byJob ==> byJob[j] != {}
        invariant forall j, c :: Listed(byJob, j, c) <==> Listed(old(byJob), j, c) && !(c == client && j in jobs - todo)
      {
        var job :| job in todo;
        DropFrom(client, job);
        todo := todo - {job};
      }
      byClient := byClient - {client};
      SamePairs(Pairs(), set p | p in old(Pairs()) && p.0 != client);
    }

    /** One attempt per subscriber of the event's job, in some order; a client whose send
        fails is skipped. Returns the number of sends that succeeded. */
    method Broadcast(job: JobId) returns (delivered: nat, log: seq<Sent>)
      requires Valid()
      ensures multiset(Receivers(log)) == multiset(Subscribers(Pairs(), job))
      ensures delivered == Successes(log)
    {
      delivered, log := 0, [];
      var clients := if job in byJob then byJob[job] else {};
      SubscribersAreIndexed(job, clients);
      var todo := clients;
      while todo != {}
        invariant todo <= clients && delivered == Successes(log)
        invariant multiset(Receivers(log)) == multiset(clients - todo)
      {
        var client :| client in todo;
        var ok: bool := *;
        OneMoreSent(log, Sent(client, ok), clients, todo);
        log := log + [Sent(client, ok)];
        if ok {
          delivered := delivered + 1;
        }
        todo := todo - {client};
      }
    }

    /** The number of distinct jobs someone is subscribed to. */
    method JobCount() returns (n: nat)
      requires Valid()
      ensures n == |Jobs(Pairs())| == |byJob|
    {
      KeysAreJobs();
      SizeOfKeys(byJob);
      n := |byJob|;
    }

    /** The number of clients with an entry: at least the distinct clients subscribed to
        something, and more exactly if some client unsubscribed from all its jobs. */
    method ClientCount() returns (n: nat)
      requires Valid()
      ensures n == |byClient| && n >= |Clients(Pairs())|
      ensures n == |Clients(Pairs())| <==> forall c :: c in byClient ==> byClient[c] != {}
    {
      n := |byClient|;
      SizeOfKeys(byClient);
      assert forall c :: c in Clients(Pairs()) ==> exists j :: Listed(byJob, j, c);
      assert Clients(Pairs()) <= byClient.Keys;
      SubsetSizes(Clients(Pairs()), byClient.Keys);
      forall c | c in byClient ensures byClient[c] != {} <==> c in Clients(Pairs()) {
        if byClient[c] != {} {
          var j :| j in byClient[c];
          assert Listed(byJob, j, c) && (c, j) in Pairs();
        }
        if c in Clients(Pairs()) {
          var p :| p in Pairs() && p.0 == c;
          assert Listed(byJob, p.1, c);
        }
      }
      if forall c :: c in byClient ==> byClient[c] != {} {
        assert Clients(Pairs()) == byClient.Keys;
      }
    }

    lemma SubscribersAreIndexed(job: JobId, clients: set<Client>)
      requires clients == if job in byJob then byJob[job] else {}
      ensures clients == Subscribers(Pairs(), job)
    {
      forall c | c in clients ensures c in Subscribers(Pairs(), job) {
        assert (c, job) in Pairs();
      }
    }

    lemma KeysAreJobs()
      requires Valid()
      ensures Jobs(Pairs()) == byJob.Keys
    {
      forall j | j in byJob ensures j in Jobs(Pairs()) {
        var c := AnyOf(byJob[j]);
        assert (c, j) in Pairs();
      }
    }
  }

  /** Successes counts the attempts that succeeded. */
  lemma {:induction false} SuccessesAre(log: seq<Sent>)
    ensures Successes(log) == |set i | 0 <= i < |log| && log[i].ok|
  {
    if log != [] {
      var n := |log| - 1;
      SuccessesAre(log[..n]);
      var before, all := set i | 0 <= i < n && log[..n][i].ok, set i | 0 <= i < |log| && log[i].ok;
      assert all == before + if log[n].ok then {n} else {};
    }
  }

  lemma OneMoreSent(log: seq<Sent>, s: Sent, clients: set<Client>, todo: set<Client>)
    requires s.client in todo && todo <= clients && multiset(Receivers(log)) == multiset(clients - todo)
    ensures multiset(Receivers(log + [s])) == multiset(clients - (todo - {s.client}))
    ensures Successes(log + [s]) == Successes(log) + if s.ok then 1 else 0
  {
    assert Receivers(log + [s]) == Receivers(log) + [s.client];
    assert (log + [s])[..|log|] == log;
    assert clients - (todo - {s.client}) == (clients - todo) + {s.client};
    assert s.client !in clients - todo;
  }

  lemma AnyOf<T>(s: set<T>) returns (x: T)
    requires s != {}
    ensures x in s
  {
    x :| x in s;
  }

  lemma SizeOfKeys<K, V>(m: map<K, V>)
    ensures |m.Keys| == |m|
  {
  }

  lemma {:induction false} SubsetSizes<T>(a: set<T>, b: set<T>)
    requires a <= b
    ensures |a| <= |b| && (|a| == |b| <==> a == b)
  {
    if a == {} {
    } else {
      var x :| x in a;
      SubsetSizes(a - {x}, b - {x});
      assert a == (a - {x}) + {x} && b == (b - {x}) + {x};
    }
  }
}
