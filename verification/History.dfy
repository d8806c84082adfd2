/** The browser's bounded history: the eight most recently pushed distinct jobs. */
module Histories {
  import opened Media

  datatype Entry = Entry(job: JobId, ts: int)

  const MAX: nat := 8

  function Without(list: seq<Entry>, job: JobId): (rest: seq<Entry>)
    ensures forall e :: e in rest <==> e in list && e.job != job
  {
    if list == [] then []
    else (if list[0].job == job then [] else [list[0]]) + Without(list[1..], job)
  }

  function Take(list: seq<Entry>, n: nat): seq<Entry> { if |list| <= n then list else list[..n] }

  /** One push: to the front, without its older namesake, cut to length. */
  function Pushed(list: seq<Entry>, e: Entry): seq<Entry> { Take([e] + Without(list, e.job), MAX) }

  /** The store: its value, or something that does not parse. */
  datatype Stored = Nothing | Unreadable | Saved(list: seq<Entry>)

  class History {
    var stored: Stored

    constructor ()
      ensures stored == Nothing
    {
      stored := Nothing;
    }

    method Read() returns (list: seq<Entry>)
      ensures list == if stored.Saved? then stored.list else []
    {
      match stored
      case Saved(saved) => return saved;
      case _ => return [];
    }

    /** Best effort: if the store refuses, the old list stays, and the caller still gets
        the new one. saves says what the store does. */
    method Push(e: Entry, saves: bool) returns (list: seq<Entry>)
      modifies this
      ensures list == Pushed(if old(stored).Saved? then old(stored).list else [], e)
      ensures stored == if saves then Saved(list) else old(stored)
      ensures 1 <= |list| <= 8 && list[0] == e
      ensures forall i :: 1 <= i < |list| ==>
        list[i].job != e.job && old(stored).Saved? && list[i] in old(stored).list
    {
      var prev := Read();
      var kept: seq<Entry> := [];
      for i := |prev| downto 0
        invariant kept == Without(prev[i..], e.job) && stored == old(stored)
      {
        assert prev[i..][1..] == prev[i + 1..];
        if prev[i].job != e.job {
          kept := [prev[i]] + kept;
        }
      }
      list := [e] + kept;
      if |list| > MAX {
        list := list[..MAX];
      }
      if saves {
        stored := Saved(list);
      }
    }
  }

  // ---- any sequence of pushes ----

  /** The list after these pushes, oldest push first. */
  function After(pushes: seq<Entry>): seq<Entry> {
    if pushes == [] then [] else Pushed(After(pushes[..|pushes| - 1]), pushes[|pushes| - 1])
  }

  /** The latest push of every job, newest first: what the list would be without a bound. */
  function Latest(pushes: seq<Entry>): seq<Entry> {
    if pushes == [] then []
    else
      var n := |pushes| - 1;
      [pushes[n]] + Without(Latest(pushes[..n]), pushes[n].job)
  }

  lemma {:induction false} WithoutShortens(list: seq<Entry>, job: JobId)
    ensures |Without(list, job)| <= |list|
  {
    if list != [] {
      WithoutShortens(list[1..], job);
    }
  }

  ghost predicate DistinctJobs(list: seq<Entry>) {
    forall i, j :: 0 <= i < j < |list| ==> list[i].job != list[j].job
  }

  lemma {:induction false} WithoutAbsent(list: seq<Entry>, job: JobId)
    requires forall e :: e in list ==> e.job != job
    ensures Without(list, job) == list
  {
    if list != [] {
      WithoutAbsent(list[1..], job);
    }
  }

  /** Dropping a job and cutting to n or, if the job was there, to n + 1 first. */
  lemma {:induction false} CutCommutes(list: seq<Entry>, job: JobId, n: nat)
    requires DistinctJobs(list)
    ensures Take(Without(Take(list, n + 1), job), n) == Take(Without(list, job), n)
  {
    if list != [] && n > 0 {
      var rest := list[1..];
      assert forall i :: 0 <= i < |rest| ==> rest[i] == list[i + 1];
      assert Take(list, n + 1) == [list[0]] + Take(rest, n);
      if list[0].job == job {
        assert forall e :: e in rest ==> e.job != job;
        WithoutAbsent(rest, job);
        WithoutAbsent(Take(rest, n), job);
      } else {
        CutCommutes(rest, job, n - 1);
        assert Without(list, job) == [list[0]] + Without(rest, job);
        assert Without(Take(list, n + 1), job) == [list[0]] + Without(Take(rest, n), job);
        TakeCons(list[0], Without(rest, job), n);
        TakeCons(list[0], Without(Take(rest, n), job), n);
      }
    }
  }

  lemma TakeCons(e: Entry, list: seq<Entry>, n: nat)
    requires n > 0
    ensures Take([e] + list, n) == [e] + Take(list, n - 1)
  {
  }

  /** Truncation commutes with the de-duplicating push. */
  lemma PushOfCut(list: seq<Entry>, e: Entry)
    requires DistinctJobs(list)
    ensures Pushed(Take(list, MAX), e) == Pushed(list, e)
  {
    CutCommutes(list, e.job, MAX - 1);
    TakeCons(e, Without(Take(list, MAX), e.job), MAX);
    TakeCons(e, Without(list, e.job), MAX);
  }

  lemma {:induction false} WithoutDistinct(list: seq<Entry>, job: JobId)
    requires DistinctJobs(list)
    ensures DistinctJobs(Without(list, job))
  {
    if list != [] {
      WithoutDistinct(list[1..], job);
      var rest := Without(list[1..], job);
      forall i | 0 <= i < |rest| ensures rest[i].job != list[0].job {
        assert rest[i] in list[1..];
      }
    }
  }

  /** Position of a job's latest push. */
  function LastPush(pushes: seq<Entry>, job: JobId): (i: int)
    ensures -1 <= i < |pushes| && (i >= 0 ==> pushes[i].job == job)
    ensures forall k :: i < k < |pushes| ==> pushes[k].job != job
  {
    if pushes == [] then -1
    else if pushes[|pushes| - 1].job == job then |pushes| - 1
    else LastPush(pushes[..|pushes| - 1], job)
  }

  /** Newest first. */
  ghost predicate Falling(list: seq<Entry>, pushes: seq<Entry>) {
    forall i, j :: 0 <= i < j < |list| ==> LastPush(pushes, list[i].job) > LastPush(pushes, list[j].job)
  }

  lemma {:induction false} WithoutFalling(list: seq<Entry>, job: JobId, pushes: seq<Entry>)
    requires Falling(list, pushes)
    ensures Falling(Without(list, job), pushes)
  {
    if list != [] {
      var tail := list[1..];
      assert forall i :: 0 <= i < |tail| ==> tail[i] == list[i + 1];
      WithoutFalling(tail, job, pushes);
      forall e | e in Without(tail, job) ensures LastPush(pushes, list[0].job) > LastPush(pushes, e.job) {
        assert e in tail;
      }
    }
  }

  lemma LastPushAfter(pushes: seq<Entry>, e: Entry, job: JobId)
    ensures LastPush(pushes + [e], job) == if e.job == job then |pushes| else LastPush(pushes, job)
  {
    assert (pushes + [e])[..|pushes|] == pushes;
  }

  lemma FallingAfter(list: seq<Entry>, pushes: seq<Entry>, e: Entry)
    requires Falling(list, pushes) && forall o :: o in list ==> o.job != e.job
    ensures Falling([e] + list, pushes + [e])
  {
    forall o | o in list ensures LastPush(pushes + [e], o.job) == LastPush(pushes, o.job) {
      LastPushAfter(pushes, e, o.job);
    }
    LastPushAfter(pushes, e, e.job);
  }

  /** Latest is what it says: one entry per job pushed, its last push, newest first. */
  lemma {:induction false} LatestMeans(pushes: seq<Entry>)
    ensures DistinctJobs(Latest(pushes)) && Falling(Latest(pushes), pushes)
    ensures forall e :: e in Latest(pushes) <==>
      LastPush(pushes, e.job) >= 0 && pushes[LastPush(pushes, e.job)] == e
  {
    if pushes != [] {
      var n := |pushes| - 1;
      var before, e := Latest(pushes[..n]), pushes[n];
      assert pushes == pushes[..n] + [e];
      LatestMeans(pushes[..n]);
      WithoutDistinct(before, e.job);
      WithoutFalling(before, e.job, pushes[..n]);
      FallingAfter(Without(before, e.job), pushes[..n], e);
    }
  }

  /** After any pushes the list is the eight most recently pushed distinct jobs, newest
      first, each with its latest entry. */
  lemma {:induction false} EightMostRecent(pushes: seq<Entry>)
    ensures After(pushes) == if |Latest(pushes)| <= 8 then Latest(pushes) else Latest(pushes)[..8]
  {
    if pushes != [] {
      var n := |pushes| - 1;
      EightMostRecent(pushes[..n]);
      LatestMeans(pushes[..n]);
      PushOfCut(Latest(pushes[..n]), pushes[n]);
    }
  }
}
