/** The gallery listing: a page of jobs joined with their thumbnails, newest first, and
    the total for the pager. */
module Listings {
  import opened Media

  /** Rows of the two tables; ids are compared, so they are numbers here. */
  datatype JobRow = JobRow(id: nat, created: int)
  datatype ArtifactRow = ArtifactRow(job: nat, name: string, key: string)

  datatype Item = Item(job: JobRow, thumb: string)

  /** A result row of the page query: the item and the window count. */
  datatype ResultRow = ResultRow(item: Item, total: nat)

  // ---- the query ----

  /** Keys of the artifact rows a job joins with. */
  function Thumbs(arts: seq<ArtifactRow>, id: nat): seq<string> {
    if arts == [] then []
    else (if arts[0].job == id && arts[0].name == "thumbnail" then [arts[0].key] else []) + Thumbs(arts[1..], id)
  }

  /** LEFT JOIN of one job: its matches, or itself with an empty key. */
  function JoinOne(j: JobRow, arts: seq<ArtifactRow>): seq<Item> {
    var keys := Thumbs(arts, j.id);
    if keys == [] then [Item(j, "")] else seq(|keys|, i requires 0 <= i < |keys| => Item(j, keys[i]))
  }

  function Join(jobs: seq<JobRow>, arts: seq<ArtifactRow>): seq<Item> {
    if jobs == [] then [] else JoinOne(jobs[0], arts) + Join(jobs[1..], arts)
  }

  /** created_at descending, then id. */
  predicate Before(a: JobRow, b: JobRow) { a.created > b.created || (a.created == b.created && a.id < b.id) }

  function Insert(it: Item, sorted: seq<Item>): seq<Item> {
    if sorted == [] || !Before(sorted[0].job, it.job) then [it] + sorted
    else [sorted[0]] + Insert(it, sorted[1..])
  }

  function Sort(items: seq<Item>): seq<Item> {
    if items == [] then [] else Insert(items[0], Sort(items[1..]))
  }

  function Slice<T>(s: seq<T>, limit: nat, offset: nat): seq<T> {
    if offset >= |s| then [] else if offset + limit >= |s| then s[offset..] else s[offset..offset + limit]
  }

  function Query(jobs: seq<JobRow>, arts: seq<ArtifactRow>, limit: nat, offset: nat): seq<ResultRow> {
    var page := Slice(Sort(Join(jobs, arts)), limit, offset);
    seq(|page|, i requires 0 <= i < |page| => ResultRow(page[i], |Join(jobs, arts)|))
  }

  /** The item's key is that of its job's thumbnail, or empty if there is none. */
  ghost predicate ShowsThumbnail(it: Item, arts: seq<ArtifactRow>) {
    && (forall a :: a in arts && a.job == it.job.id && a.name == "thumbnail" ==> it.thumb == a.key)
    && ((forall a :: a in arts && a.job == it.job.id ==> a.name != "thumbnail") ==> it.thumb == "")
  }

  // ---- the code ----

  /** PRIMARY KEY (id) and UNIQUE (job_id, name). */
  ghost predicate Constraints(jobs: seq<JobRow>, arts: seq<ArtifactRow>) {
    && (forall i, j :: 0 <= i < j < |jobs| ==> jobs[i].id != jobs[j].id)
    && (forall i, j :: 0 <= i < j < |arts| ==> arts[i].job != arts[j].job || arts[i].name != arts[j].name)
  }

  function ItemsOf(rows: seq<ResultRow>): seq<Item> { seq(|rows|, i requires 0 <= i < |rows| => rows[i].item) }

  lemma QueryRows(jobs: seq<JobRow>, arts: seq<ArtifactRow>, limit: nat, offset: nat)
    requires Constraints(jobs, arts)
    ensures var rows, page := Query(jobs, arts, limit, offset), Slice(Sort(Join(jobs, arts)), limit, offset);
      ItemsOf(rows) == page && forall row :: row in rows ==> row.total == |jobs|
  {
    JoinIsOnePerJob(jobs, arts);
    assert |JobsOf(Join(jobs, arts))| == |jobs|;
  }

  method ListJobs(jobs: seq<JobRow>, arts: seq<ArtifactRow>, limit: nat, offset: nat)
    returns (items: seq<Item>, total: nat)
    requires Constraints(jobs, arts)
    ensures items == Slice(Sort(Join(jobs, arts)), limit, offset)
    ensures total == if items == [] && offset == 0 then 0 else |jobs|
    ensures forall i, j :: 0 <= i < j < |items| ==>
      items[i].job.created > items[j].job.created ||
      (items[i].job.created == items[j].job.created && items[i].job.id < items[j].job.id)
    ensures forall it :: it in items ==> it.job in jobs && ShowsThumbnail(it, arts)
  {
    var rows := Query(jobs, arts, limit, offset);
    QueryRows(jobs, arts, limit, offset);
    total, items := 0, [];
    for i := 0 to |rows|
      invariant items == ItemsOf(rows[..i])
      invariant total == if i == 0 then 0 else |jobs|
    {
      total := rows[i].total;
      items := items + [rows[i].item];
      assert ItemsOf(rows[..i + 1]) == ItemsOf(rows[..i]) + [rows[i].item];
    }
    assert rows[..|rows|] == rows;
    if |items| == 0 && offset > 0 {
      total := |jobs|;
    }
    NewestFirst(jobs, arts);
    ItemsShow(jobs, arts);
    PageOf(Sort(Join(jobs, arts)), limit, offset);
  }

  /** Query parameters: None for one that is absent or not a number. */
  method HandleList(jobs: seq<JobRow>, arts: seq<ArtifactRow>, limitParam: Option<int>, offsetParam: Option<int>)
    returns (items: seq<Item>, total: nat, limit: nat, offset: nat)
    requires Constraints(jobs, arts)
    ensures items == Slice(Sort(Join(jobs, arts)), limit, offset) && total == |jobs|
    ensures 1 <= limit <= 100
    ensures limitParam.None? || limitParam.value < 1 ==> limit == 24
    ensures limitParam.Some? && 1 <= limitParam.value <= 100 ==> limit == limitParam.value
    ensures limitParam.Some? && limitParam.value > 100 ==> limit == 100
    ensures if offsetParam.Some? && offsetParam.value >= 0 then offset == offsetParam.value else offset == 0
    ensures forall i, j :: 0 <= i < j < |items| ==>
      items[i].job.created > items[j].job.created ||
      (items[i].job.created == items[j].job.created && items[i].job.id < items[j].job.id)
    ensures forall it :: it in items ==> it.job in jobs && ShowsThumbnail(it, arts)
  {
    limit, offset := 24, 0;
    if limitParam.Some? && limitParam.value >= 1 {
      limit := if limitParam.value < 100 then limitParam.value else 100;
    }
    if offsetParam.Some? && offsetParam.value >= 0 {
      offset := offsetParam.value;
    }
    items, total := ListJobs(jobs, arts, limit, offset);
    FirstPage(jobs, arts, limit);
  }

  /** With a limit of at least one, the first page is empty only if the table is. */
  lemma FirstPage(jobs: seq<JobRow>, arts: seq<ArtifactRow>, limit: nat)
    requires Constraints(jobs, arts)
    ensures Slice(Sort(Join(jobs, arts)), limit, 0) == [] <==> limit == 0 || jobs == []
  {
    JoinIsOnePerJob(jobs, arts);
    SortPermutes(Join(jobs, arts));
    assert |JobsOf(Join(jobs, arts))| == |jobs|;
  }

  // ---- the join ----

  function JobsOf(items: seq<Item>): seq<JobRow> { seq(|items|, i requires 0 <= i < |items| => items[i].job) }

  lemma {:induction false} FewThumbs(arts: seq<ArtifactRow>, id: nat)
    requires forall i, j :: 0 <= i < j < |arts| ==> arts[i].job != arts[j].job || arts[i].name != arts[j].name
    ensures |Thumbs(arts, id)| <= 1
    ensures (forall i :: 0 <= i < |arts| ==> arts[i].job != id || arts[i].name != "thumbnail") ==>
      Thumbs(arts, id) == []
  {
    if arts != [] {
      FewThumbs(arts[1..], id);
    }
  }

  /** The unique constraint keeps the join from duplicating a job. */
  lemma {:induction false} JoinIsOnePerJob(jobs: seq<JobRow>, arts: seq<ArtifactRow>)
    requires Constraints(jobs, arts)
    ensures JobsOf(Join(jobs, arts)) == jobs
  {
    if jobs != [] {
      JoinIsOnePerJob(jobs[1..], arts);
      FewThumbs(arts, jobs[0].id);
    }
  }

  /** Without it, two thumbnails of one job would put the job on the list twice. */
  lemma TwoThumbsWouldDuplicate(j: JobRow, a: string, b: string)
    ensures |Join([j], [ArtifactRow(j.id, "thumbnail", a), ArtifactRow(j.id, "thumbnail", b)])| == 2
  {
    var arts := [ArtifactRow(j.id, "thumbnail", a), ArtifactRow(j.id, "thumbnail", b)];
    assert Thumbs(arts[1..], j.id) == [b];
    assert Thumbs(arts, j.id) == [a, b];
    assert Join([j], arts) == JoinOne(j, arts);
  }

  // ---- the order ----

  ghost predicate Ordered(items: seq<Item>) {
    forall i, j :: 0 <= i < j < |items| ==> !Before(items[j].job, items[i].job)
  }

  lemma {:induction false} InsertPermutes(it: Item, sorted: seq<Item>)
    ensures multiset(Insert(it, sorted)) == multiset(sorted) + multiset{it}
    ensures |Insert(it, sorted)| == |sorted| + 1
    ensures Ordered(sorted) ==> Ordered(Insert(it, sorted))
  {
    if sorted != [] && Before(sorted[0].job, it.job) {
      InsertPermutes(it, sorted[1..]);
      assert sorted == [sorted[0]] + sorted[1..];
      var rest := Insert(it, sorted[1..]);
      forall k | 0 <= k < |rest| ensures Ordered(sorted) ==> !Before(rest[k].job, sorted[0].job) {
        assert rest[k] in multiset(rest);
        assert rest[k] == it || rest[k] in sorted[1..];
      }
    }
  }

  lemma JobsOfCons(it: Item, items: seq<Item>)
    ensures JobsOf([it] + items) == [it.job] + JobsOf(items)
  {
  }

  lemma {:induction false} InsertAddsJob(it: Item, sorted: seq<Item>)
    ensures multiset(JobsOf(Insert(it, sorted))) == multiset(JobsOf(sorted)) + multiset{it.job}
  {
    if sorted == [] || !Before(sorted[0].job, it.job) {
      JobsOfCons(it, sorted);
    } else {
      InsertAddsJob(it, sorted[1..]);
      assert sorted == [sorted[0]] + sorted[1..];
      JobsOfCons(sorted[0], sorted[1..]);
      JobsOfCons(sorted[0], Insert(it, sorted[1..]));
    }
  }

  lemma {:induction false} SortPermutes(items: seq<Item>)
    ensures multiset(Sort(items)) == multiset(items) && |Sort(items)| == |items| && Ordered(Sort(items))
    ensures multiset(JobsOf(Sort(items))) == multiset(JobsOf(items))
  {
    if items != [] {
      JobsOfCons(items[0], items[1..]);
      InsertAddsJob(items[0], Sort(items[1..]));
      SortPermutes(items[1..]);
      InsertPermutes(items[0], Sort(items[1..]));
      assert items == [items[0]] + items[1..];
    }
  }

  // ---- paging ----

  /** The first k pages of limit items each, one after the other. */
  function Pages(all: seq<Item>, limit: nat, k: nat): seq<Item> {
    if k == 0 then [] else Pages(all, limit, k - 1) + Slice(all, limit, (k - 1) * limit)
  }

  lemma {:induction false} PagesConcatenate(all: seq<Item>, limit: nat, k: nat)
    ensures Pages(all, limit, k) == if k * limit >= |all| then all else all[..k * limit]
  {
    if k > 0 {
      PagesConcatenate(all, limit, k - 1);
      assert k * limit == (k - 1) * limit + limit;
    }
  }

  /** The whole list is ordered by creation time, newest first, and by id within one
      moment; no two rows tie. */
  lemma NewestFirst(jobs: seq<JobRow>, arts: seq<ArtifactRow>)
    requires Constraints(jobs, arts)
    ensures var all := Sort(Join(jobs, arts));
      && multiset(JobsOf(all)) == multiset(jobs)
      && forall i, j :: 0 <= i < j < |all| ==>
           all[i].job.created > all[j].job.created ||
           (all[i].job.created == all[j].job.created && all[i].job.id < all[j].job.id)
  {
    var all := Sort(Join(jobs, arts));
    JoinIsOnePerJob(jobs, arts);
    SortPermutes(Join(jobs, arts));
    var shown := JobsOf(all);
    forall i, j | 0 <= i < j < |all|
      ensures all[i].job.created > all[j].job.created ||
              (all[i].job.created == all[j].job.created && all[i].job.id < all[j].job.id)
    {
      DistinctIds(jobs, shown, i, j);
      assert shown[i] == all[i].job && shown[j] == all[j].job;
    }
  }

  lemma PageOf<T>(all: seq<T>, limit: nat, offset: nat)
    ensures forall i :: 0 <= i < |Slice(all, limit, offset)| ==>
      offset + i < |all| && Slice(all, limit, offset)[i] == all[offset + i]
  {
    var page := Slice(all, limit, offset);
    if offset < |all| {
      assert page == all[offset..offset + |page|];
    }
  }

  lemma {:induction false} ThumbsAre(arts: seq<ArtifactRow>, id: nat)
    ensures forall a :: a in arts && a.job == id && a.name == "thumbnail" ==> a.key in Thumbs(arts, id)
    ensures forall key :: key in Thumbs(arts, id) ==>
      exists a :: a in arts && a.job == id && a.name == "thumbnail" && a.key == key
  {
    if arts != [] {
      ThumbsAre(arts[1..], id);
      forall key | key in Thumbs(arts, id)
        ensures exists a :: a in arts && a.job == id && a.name == "thumbnail" && a.key == key
      {
        if key in Thumbs(arts[1..], id) {
          var a :| a in arts[1..] && a.job == id && a.name == "thumbnail" && a.key == key;
          assert a in arts;
        } else {
          assert arts[0] in arts;
        }
      }
    }
  }

  lemma JoinedShows(j: JobRow, arts: seq<ArtifactRow>)
    requires forall i, k :: 0 <= i < k < |arts| ==> arts[i].job != arts[k].job || arts[i].name != arts[k].name
    ensures forall it :: it in JoinOne(j, arts) ==> it.job == j && ShowsThumbnail(it, arts)
  {
    FewThumbs(arts, j.id);
    ThumbsAre(arts, j.id);
    var keys := Thumbs(arts, j.id);
    forall it | it in JoinOne(j, arts) ensures it.job == j && ShowsThumbnail(it, arts) {
      if keys != [] {
        assert keys[0] in keys;
        assert it.thumb == keys[0] && forall key :: key in keys ==> key == keys[0];
      }
    }
  }

  lemma {:induction false} JoinShows(jobs: seq<JobRow>, arts: seq<ArtifactRow>)
    requires Constraints(jobs, arts)
    ensures forall it :: it in Join(jobs, arts) ==> it.job in jobs && ShowsThumbnail(it, arts)
  {
    if jobs != [] {
      JoinShows(jobs[1..], arts);
      JoinedShows(jobs[0], arts);
    }
  }

  lemma ItemsShow(jobs: seq<JobRow>, arts: seq<ArtifactRow>)
    requires Constraints(jobs, arts)
    ensures forall it :: it in Sort(Join(jobs, arts)) ==> it.job in jobs && ShowsThumbnail(it, arts)
  {
    SortPermutes(Join(jobs, arts));
    JoinShows(jobs, arts);
    forall it | it in Sort(Join(jobs, arts)) ensures it in Join(jobs, arts) {
      assert it in multiset(Sort(Join(jobs, arts)));
    }
  }

  /** Paging with offsets 0, L, 2L, ... over a fixed table shows every job exactly once,
      newest first, ties by id, however the rows are stored. */
  lemma PagingShowsEachJobOnce(jobs: seq<JobRow>, arts: seq<ArtifactRow>, limit: nat, k: nat)
    requires Constraints(jobs, arts) && k * limit >= |jobs|
    ensures var shown := JobsOf(Pages(Sort(Join(jobs, arts)), limit, k));
      && multiset(shown) == multiset(jobs)
      && forall i, j :: 0 <= i < j < |shown| ==>
           shown[i].created > shown[j].created || (shown[i].created == shown[j].created && shown[i].id < shown[j].id)
  {
    NewestFirst(jobs, arts);
    assert |JobsOf(Sort(Join(jobs, arts)))| == |multiset(jobs)| == |jobs|;
    PagesConcatenate(Sort(Join(jobs, arts)), limit, k);
  }

  lemma DistinctIds(jobs: seq<JobRow>, shown: seq<JobRow>, i: nat, j: nat)
    requires multiset(shown) == multiset(jobs) && i < j < |shown|
    requires forall i, j :: 0 <= i < j < |jobs| ==> jobs[i].id != jobs[j].id
    ensures shown[i].id != shown[j].id
  {
    if shown[i].id == shown[j].id {
      assert shown[i] in multiset(jobs) && shown[j] in multiset(jobs);
      var a :| 0 <= a < |jobs| && jobs[a] == shown[i];
      var b :| 0 <= b < |jobs| && jobs[b] == shown[j];
      assert a == b;
      TwiceMeansTwice(shown, i, j);
      OnceMeansOnce(jobs, a);
      assert false;
    }
  }

  lemma TwiceMeansTwice(s: seq<JobRow>, i: nat, j: nat)
    requires i < j < |s| && s[i] == s[j]
    ensures multiset(s)[s[i]] >= 2
  {
    assert s == s[..i] + [s[i]] + s[i + 1..j] + [s[j]] + s[j + 1..];
  }

  lemma OnceMeansOnce(s: seq<JobRow>, a: nat)
    requires a < |s| && forall i, j :: 0 <= i < j < |s| ==> s[i].id != s[j].id
    ensures multiset(s)[s[a]] == 1
  {
    assert s == s[..a] + [s[a]] + s[a + 1..];
    assert s[a] !in s[..a] && s[a] !in s[a + 1..];
  }
}
