/** RabbitMQ as the services see it: topic routing over the declared topology, the
    x-death header of dead-lettered messages, and the two decoders that turn this
    header into an attempt number. */
module Amqp {
  import opened Media

  // ---- topic routing (section 3.1.3.3 of the AMQP 0-9-1 specification) ----

  datatype Exchange = JobsExchange | EventsExchange | RetryExchange | ParkingExchange
  datatype Queue = ImageQueue | OcrQueue | RetryQueue | ParkingQueue

  /** The exchange a queue is bound to, and the pattern of that binding. */
  function BoundTo(q: Queue): Exchange {
    match q
    case ImageQueue => JobsExchange
    case OcrQueue => JobsExchange
    case RetryQueue => RetryExchange
    case ParkingQueue => ParkingExchange
  }

  /** The exchange a queue's dead letters are published to, if it keeps any. */
  function DeadLetterExchange(q: Queue): Option<Exchange> {
    match q
    case ImageQueue => Some(RetryExchange)
    case OcrQueue => Some(RetryExchange)
    case RetryQueue => Some(JobsExchange)
    case ParkingQueue => None
  }

  function Pattern(q: Queue): string {
    match q
    case ImageQueue => "image.process"
    case OcrQueue => "ocr.extract"
    case RetryQueue => "#"
    case ParkingQueue => "#"
  }

  /** The words of a routing key or pattern: its pieces between dots. */
  function Words(s: string): (r: seq<string>)
    ensures r != []
  {
    if s == "" then [""]
    else
      var rest := Words(s[1..]);
      if s[0] == '.' then [""] + rest else [[s[0]] + rest[0]] + rest[1..]
  }

  /** A star stands for one word, a hash for zero or more. */
  predicate Matches(pattern: seq<string>, words: seq<string>)
    decreases |pattern| + |words|
  {
    if pattern == [] then words == []
    else if pattern[0] == "#" then
      Matches(pattern[1..], words) || (words != [] && Matches(pattern, words[1..]))
    else
      words != [] && (pattern[0] == "*" || pattern[0] == words[0]) && Matches(pattern[1..], words[1..])
  }

  /** The queues a message published to exchange x with this routing key reaches. */
  function Route(x: Exchange, key: string): set<Queue> {
    set q: Queue | BoundTo(q) == x && Matches(Words(Pattern(q)), Words(key))
  }

  function WorkQueue(kind: Kind): Queue {
    match kind
    case Image => ImageQueue
    case Ocr => OcrQueue
  }

  lemma {:induction false} HashMatchesAll(words: seq<string>)
    ensures Matches(["#"], words)
  {
    if words != [] {
      HashMatchesAll(words[1..]);
    } else {
      assert Matches(["#"][1..], words);
    }
  }

  predicate Wildcard(word: string) { |word| == 1 && (word[0] == '#' || word[0] == '*') }

  lemma {:induction false} LiteralMatchesItself(pattern: seq<string>, words: seq<string>)
    requires forall i :: 0 <= i < |pattern| ==> !Wildcard(pattern[i])
    ensures Matches(pattern, words) <==> pattern == words
  {
    if pattern != [] && words != [] {
      assert !Wildcard(pattern[0]);
      LiteralMatchesItself(pattern[1..], words[1..]);
      assert pattern == [pattern[0]] + pattern[1..];
      assert words == [words[0]] + words[1..];
    }
  }

  function Join(words: seq<string>): string
    requires words != []
  {
    if |words| == 1 then words[0] else words[0] + "." + Join(words[1..])
  }

  lemma {:induction false} JoinWords(s: string)
    ensures Join(Words(s)) == s
  {
    if s != "" {
      var rest := Words(s[1..]);
      JoinWords(s[1..]);
      assert s == [s[0]] + s[1..];
      if s[0] == '.' {
        assert Words(s)[1..] == rest;
        assert Join(Words(s)) == "" + "." + Join(rest);
      } else {
        assert Words(s)[1..] == rest[1..];
        if |rest| == 1 {
          assert Join(Words(s)) == [s[0]] + rest[0];
        } else {
          assert Join(Words(s)) == [s[0]] + rest[0] + "." + Join(rest[1..]);
          assert Join(Words(s)) == [s[0]] + (rest[0] + "." + Join(rest[1..]));
        }
      }
    }
  }

  lemma {:induction false} WordsOfOne(s: string)
    requires '.' !in s
    ensures Words(s) == [s]
  {
    if s != "" {
      WordsOfOne(s[1..]);
      assert s == [s[0]] + s[1..];
    }
  }

  lemma {:induction false} WordsOfTwo(s: string, a: string, b: string)
    requires s == a + "." + b && '.' !in a && '.' !in b
    ensures Words(s) == [a, b]
  {
    if a == "" {
      assert s[1..] == b;
      WordsOfOne(b);
    } else {
      assert s[1..] == a[1..] + "." + b;
      WordsOfTwo(s[1..], a[1..], b);
      assert a == [a[0]] + a[1..];
    }
  }

  /** A work queue's pattern holds no wildcard, so it accepts its own text and
      nothing else. */
  lemma WorkQueueAccepts(q: Queue, key: string)
    requires BoundTo(q) == JobsExchange
    ensures Matches(Words(Pattern(q)), Words(key)) <==> key == Pattern(q)
  {
    var p := Pattern(q);
    var a := if q.ImageQueue? then "image" else "ocr";
    var b := if q.ImageQueue? then "process" else "extract";
    assert p == a + "." + b;
    WordsOfTwo(p, a, b);
    LiteralMatchesItself(Words(p), Words(key));
    JoinWords(p);
    JoinWords(key);
  }

  lemma HashQueueAccepts(q: Queue, key: string)
    requires BoundTo(q) != JobsExchange
    ensures Matches(Words(Pattern(q)), Words(key))
  {
    var p := Pattern(q);
    WordsOfOne(p);
    HashMatchesAll(Words(key));
  }

  lemma RouteHas(x: Exchange, key: string, q: Queue)
    ensures q in Route(x, key) <==> BoundTo(q) == x && (x == JobsExchange ==> key == Pattern(q))
  {
    if BoundTo(q) == JobsExchange {
      WorkQueueAccepts(q, key);
    } else {
      HashQueueAccepts(q, key);
    }
  }

  lemma RoutingKeysDiffer(kind: Kind, other: Kind)
    ensures Pattern(WorkQueue(kind)) == RoutingKey(kind)
    ensures RoutingKey(kind) == RoutingKey(other) ==> kind == other
  {
    assert kind.Image? ==> RoutingKey(kind)[0] == 'i';
    assert kind.Ocr? ==> RoutingKey(kind)[0] == 'o';
    assert other.Image? ==> RoutingKey(other)[0] == 'i';
    assert other.Ocr? ==> RoutingKey(other)[0] == 'o';
  }

  /** The jobs exchange is a partition: a key reaches a work queue exactly when it is
      that queue's own key, and then reaches no other queue. */
  lemma JobsRouting(key: string, kind: Kind)
    ensures WorkQueue(kind) in Route(JobsExchange, key) <==> key == RoutingKey(kind)
    ensures key == RoutingKey(kind) ==> Route(JobsExchange, key) == {WorkQueue(kind)}
  {
    RouteHas(JobsExchange, key, WorkQueue(kind));
    RoutingKeysDiffer(kind, kind);
    if key == RoutingKey(kind) {
      forall q: Queue
        ensures q in Route(JobsExchange, key) <==> q == WorkQueue(kind)
      {
        RouteHas(JobsExchange, key, q);
        if BoundTo(q) == JobsExchange {
          var other := if q.ImageQueue? then Image else Ocr;
          RoutingKeysDiffer(kind, other);
          RoutingKeysDiffer(other, kind);
        }
      }
    }
  }

  /** And by name: which key reaches which work queue, that no other key reaches any, and
      that no queue of the topology takes events. */
  lemma KeysByName(key: string)
    ensures RoutingKey(Image) == "image.process" && RoutingKey(Ocr) == "ocr.extract"
    ensures Route(JobsExchange, key) ==
      if key == "image.process" then {ImageQueue} else if key == "ocr.extract" then {OcrQueue} else {}
    ensures Route(EventsExchange, key) == {}
  {
    JobsRouting(key, Image);
    JobsRouting(key, Ocr);
    forall q: Queue ensures q in Route(JobsExchange, key) ==> q == ImageQueue || q == OcrQueue {
      RouteHas(JobsExchange, key, q);
    }
  }

  /** Every key dead-letters into the retry queue and parks in the parking queue, and
      goes nowhere else. */
  lemma HopRouting(x: Exchange, key: string)
    requires x == RetryExchange || x == ParkingExchange
    ensures Route(x, key) == {if x == RetryExchange then RetryQueue else ParkingQueue}
  {
    forall q: Queue
      ensures q in Route(x, key) <==> BoundTo(q) == x
    {
      RouteHas(x, key, q);
    }
  }

  /** What a pattern's first word does: a star takes exactly one word of the key, a hash
      any number of them, and any other word itself. */
  lemma {:induction false} FirstWordMatches(rest: seq<string>, words: seq<string>, literal: string)
    requires literal != "*" && literal != "#"
    ensures Matches(["*"] + rest, words) <==> words != [] && Matches(rest, words[1..])
    ensures Matches(["#"] + rest, words) <==> exists n :: 0 <= n <= |words| && Matches(rest, words[n..])
    ensures Matches([literal] + rest, words) <==> words != [] && words[0] == literal && Matches(rest, words[1..])
    ensures Matches([], words) <==> words == []
  {
    assert (["*"] + rest)[1..] == rest && (["#"] + rest)[1..] == rest && ([literal] + rest)[1..] == rest;
    HashTakesAny(rest, words);
  }

  lemma {:induction false} HashTakesAny(rest: seq<string>, words: seq<string>)
    ensures Matches(["#"] + rest, words) <==> exists n :: 0 <= n <= |words| && Matches(rest, words[n..])
  {
    assert (["#"] + rest)[1..] == rest && words[0..] == words;
    if words != [] {
      HashTakesAny(rest, words[1..]);
      forall n | 1 <= n <= |words| ensures words[n..] == words[1..][n - 1..] {
      }
      if exists n :: 0 <= n <= |words[1..]| && Matches(rest, words[1..][n..]) {
        var n :| 0 <= n <= |words[1..]| && Matches(rest, words[1..][n..]);
        assert Matches(rest, words[n + 1..]);
      }
    }
  }

  // ---- x-death ----

  datatype Reason = Rejected | Expired

  /** One x-death entry: how often the message died in this queue for this reason. */
  datatype Death = Death(queue: Queue, reason: Reason, count: nat)

  predicate SameDeath(d: Death, q: Queue, r: Reason) { d.queue == q && d.reason == r }

  /** Position of the entry for (q, r), or |ds| if there is none. */
  function FindDeath(ds: seq<Death>, q: Queue, r: Reason): (i: nat)
    ensures i <= |ds|
    ensures i < |ds| ==> SameDeath(ds[i], q, r)
    ensures forall j :: 0 <= j < i ==> !SameDeath(ds[j], q, r)
  {
    if ds == [] then 0
    else if SameDeath(ds[0], q, r) then 0
    else 1 + FindDeath(ds[1..], q, r)
  }

  /** What a death in q for reason r does to the header: the entry is incremented
      and moved to the front, or a first entry is put there. */
  function Die(ds: seq<Death>, q: Queue, r: Reason): seq<Death> {
    var i := FindDeath(ds, q, r);
    if i == |ds| then [Death(q, r, 1)] + ds
    else [Death(q, r, ds[i].count + 1)] + ds[..i] + ds[i + 1..]
  }

  /** How often the header says the message died in q for reason r. */
  function CountOf(ds: seq<Death>, q: Queue, r: Reason): nat {
    if ds == [] then 0 else if SameDeath(ds[0], q, r) then ds[0].count else CountOf(ds[1..], q, r)
  }

  lemma {:induction false} CountFound(ds: seq<Death>, q: Queue, r: Reason)
    ensures CountOf(ds, q, r) == if FindDeath(ds, q, r) < |ds| then ds[FindDeath(ds, q, r)].count else 0
  {
    if ds != [] && !SameDeath(ds[0], q, r) {
      CountFound(ds[1..], q, r);
    }
  }

  lemma {:induction false} CountWithout(ds: seq<Death>, i: nat, q: Queue, r: Reason)
    requires i < |ds| && !SameDeath(ds[i], q, r)
    ensures CountOf(ds[..i] + ds[i + 1..], q, r) == CountOf(ds, q, r)
  {
    if i == 0 {
      assert ds[..0] + ds[1..] == ds[1..];
    } else {
      assert (ds[..i] + ds[i + 1..])[1..] == ds[1..][..i - 1] + ds[1..][i..];
      CountWithout(ds[1..], i - 1, q, r);
    }
  }

  /** A death adds one to its own count and to no other, and its entry comes first. */
  lemma DeathIsCounted(ds: seq<Death>, q: Queue, r: Reason, other: Queue, reason: Reason)
    ensures Die(ds, q, r)[0] == Death(q, r, CountOf(ds, q, r) + 1)
    ensures CountOf(Die(ds, q, r), other, reason) ==
      CountOf(ds, other, reason) + if other == q && reason == r then 1 else 0
  {
    CountFound(ds, q, r);
    var i := FindDeath(ds, q, r);
    var after := Die(ds, q, r);
    if i == |ds| {
      assert after[1..] == ds;
    } else {
      assert after[1..] == ds[..i] + ds[i + 1..];
      if other != q || reason != r {
        CountWithout(ds, i, other, reason);
      }
    }
  }

  /** Header of a message of work queue q that went k times around the retry loop. */
  function LoopDeaths(q: Queue, k: nat): seq<Death> {
    if k == 0 then [] else [Death(RetryQueue, Expired, k), Death(q, Rejected, k)]
  }

  /** Header of a message of work queue q waiting in the retry queue for the k-th time. */
  function WaitDeaths(q: Queue, k: nat): seq<Death>
    requires k >= 1
  {
    if k == 1 then [Death(q, Rejected, 1)]
    else [Death(q, Rejected, k), Death(RetryQueue, Expired, k - 1)]
  }

  /** The two hops of the loop, on headers: a reject leads from the k-th loop header
      to the (k+1)-st waiting header, an expiry from there to the next loop header. */
  lemma TwoHops(q: Queue, k: nat)
    requires q != RetryQueue
    ensures Die(LoopDeaths(q, k), q, Rejected) == WaitDeaths(q, k + 1)
    ensures Die(WaitDeaths(q, k + 1), RetryQueue, Expired) == LoopDeaths(q, k + 1)
  {
    var ds := LoopDeaths(q, k);
    if k > 0 {
      assert ds[1..][0] == Death(q, Rejected, k);
      assert FindDeath(ds, q, Rejected) == 1;
    }
    var ws := WaitDeaths(q, k + 1);
    if k > 0 {
      assert ws[1..][0] == Death(RetryQueue, Expired, k);
      assert FindDeath(ws, RetryQueue, Expired) == 1;
    } else {
      assert FindDeath(ws[1..], RetryQueue, Expired) == 0;
      assert FindDeath(ws, RetryQueue, Expired) == 1;
    }
  }

  // ---- the decoders ----

  /** The AMQP field values the decoders tell apart. */
  datatype Field =
    | Long(n: int)
    | Short(n: int)
    | Text(s: string)
    | List(items: seq<Field>)
    | Table(entries: map<string, Field>)

  type Headers = map<string, Field>

  /** How RabbitMQ writes an x-death list into a header table. */
  function Encode(ds: seq<Death>): Headers {
    if ds == [] then map[]
    else map["x-death" := List(seq(|ds|, i requires 0 <= i < |ds| => EncodeDeath(ds[i])))]
  }

  function QueueName(q: Queue): string {
    match q
    case ImageQueue => "q.image"
    case OcrQueue => "q.ocr"
    case RetryQueue => "q.retry"
    case ParkingQueue => "q.parking"
  }

  function EncodeDeath(d: Death): Field {
    Table(map["queue" := Text(QueueName(d.queue)),
              "reason" := Text(if d.reason.Rejected? then "rejected" else "expired"),
              "count" := Long(d.count)])
  }

  /** The image worker's decoder: anything but a 64-bit count in the first entry
      reads as zero. */
  function GoDeathCount(h: Headers): int {
    if "x-death" !in h then 0
    else match h["x-death"]
      case List(deaths) =>
        if deaths == [] then 0
        else (match deaths[0]
          case Table(first) =>
            if "count" in first && first["count"].Long? then first["count"].n else 0
          case _ => 0)
      case _ => 0
  }

  /** The OCR worker's decoder; None stands for an exception. Python indexes any
      list or text and converts any number, and an empty value reads as no header. */
  function PyDeathCount(h: Headers): Option<int> {
    if "x-death" !in h then Some(0)
    else match h["x-death"]
      case List(deaths) =>
        if deaths == [] then Some(0)
        else (match deaths[0]
          case Table(first) =>
            if "count" !in first then Some(0)
            else (match first["count"]
              case Long(n) => Some(n)
              case Short(n) => Some(n)
              case Text(s) => ParseInt(s)
              case _ => None)
          case _ => Some(0))
      case Text(s) => Some(0)
      case Long(n) => if n == 0 then Some(0) else None
      case Short(n) => if n == 0 then Some(0) else None
      case Table(m) => if m == map[] then Some(0) else None
  }

  /** Decimal digits only; the signs and spaces Python also takes do not occur in a
      count. */
  function ParseInt(s: string): Option<int> {
    if s == "" then None
    else if |s| == 1 then Digit(s[0])
    else
      match (ParseInt(s[..|s| - 1]), Digit(s[|s| - 1]))
      case (Some(a), Some(b)) => Some(10 * a + b)
      case _ => None
  }

  function Digit(c: char): Option<int> {
    if '0' <= c <= '9' then Some(c as int - '0' as int) else None
  }

  function AttemptOf(ds: seq<Death>): int { GoDeathCount(Encode(ds)) + 1 }

  /** On every header RabbitMQ writes, the two decoders agree and read the count of
      the latest death. */
  lemma DecodersAgree(ds: seq<Death>)
    ensures GoDeathCount(Encode(ds)) == if ds == [] then 0 else ds[0].count
    ensures PyDeathCount(Encode(ds)) == Some(GoDeathCount(Encode(ds)))
  {
    if ds != [] {
      assert Encode(ds)["x-death"].items[0] == EncodeDeath(ds[0]);
    }
  }

  /** So after k trips around the loop both workers see attempt k + 1. */
  lemma AttemptNumbering(q: Queue, k: nat)
    ensures AttemptOf(LoopDeaths(q, k)) == k + 1
    ensures k >= 1 ==> AttemptOf(WaitDeaths(q, k)) == k + 1
  {
    DecodersAgree(LoopDeaths(q, k));
    if k >= 1 {
      DecodersAgree(WaitDeaths(q, k));
    }
  }

  // ---- all headers ----

  /** The values both decoders take for a count of zero, or do not look at. */
  predicate ReadsZero(f: Field) {
    match f
    case Long(n) => n == 0
    case Short(n) => n == 0
    case Text(s) => s != "" && forall i :: 0 <= i < |s| ==> s[i] == '0'
    case List(_) => false
    case Table(_) => false
  }

  /** No count of the first entry but a 64-bit number, or a zero; and where the list
      should be, a list, a text, or an empty value. */
  predicate ReadAlike(h: Headers) {
    "x-death" in h ==>
      match h["x-death"]
      case List(deaths) =>
        deaths != [] && deaths[0].Table? && "count" in deaths[0].entries ==>
          deaths[0].entries["count"].Long? || ReadsZero(deaths[0].entries["count"])
      case Text(_) => true
      case Table(m) => m == map[]
      case Long(n) => n == 0
      case Short(n) => n == 0
  }

  lemma {:induction false} ParsesToZero(s: string)
    ensures ParseInt(s) == Some(0) <==> s != "" && forall i :: 0 <= i < |s| ==> s[i] == '0'
    ensures ParseInt(s).Some? ==> ParseInt(s).value >= 0
  {
    if |s| > 1 {
      ParsesToZero(s[..|s| - 1]);
    }
  }

  function DigitChar(d: nat): char
    requires d < 10
  {
    '0' + d as char
  }

  function Decimal(n: nat): string {
    (if n < 10 then "" else Decimal(n / 10)) + [DigitChar(n % 10)]
  }

  lemma DigitReads(d: nat)
    requires d < 10
    ensures Digit(DigitChar(d)) == Some(d)
  {
  }

  lemma ParseAppends(s: string, d: nat)
    requires d < 10
    ensures ParseInt(s + [DigitChar(d)]) ==
      if s == "" then Some(d) else if ParseInt(s).Some? then Some(10 * ParseInt(s).value + d) else None
  {
    DigitReads(d);
    assert (s + [DigitChar(d)])[..|s|] == s;
  }

  /** A decimal text reads as the number it writes. */
  lemma {:induction false} ParseReadsDecimal(n: nat)
    ensures Decimal(n) != "" && ParseInt(Decimal(n)) == Some(n)
  {
    if n < 10 {
      ParseAppends("", n);
    } else {
      ParseReadsDecimal(n / 10);
      ParseAppends(Decimal(n / 10), n % 10);
    }
  }

  /** What each decoder makes of a first entry with this count. */
  lemma CountsRead(first: map<string, Field>, rest: seq<Field>, n: nat)
    requires "count" in first
    ensures var h: Headers := map["x-death" := List([Table(first)] + rest)];
      && (first["count"] == Long(n) ==> GoDeathCount(h) == n && PyDeathCount(h) == Some(n))
      && (first["count"] == Short(n) ==> GoDeathCount(h) == 0 && PyDeathCount(h) == Some(n))
      && (first["count"] == Text(Decimal(n)) ==> GoDeathCount(h) == 0 && PyDeathCount(h) == Some(n))
  {
    ParseReadsDecimal(n);
    assert ([Table(first)] + rest)[0] == Table(first);
  }

  /** What RabbitMQ writes for one death, by name. */
  lemma DeathByName(d: Death, ds: seq<Death>)
    requires ds != [] && ds[0] == d
    ensures Encode(ds).Keys == {"x-death"} && Encode(ds)["x-death"].List? && |Encode(ds)["x-death"].items| == |ds|
    ensures Encode(ds)["x-death"].items[0] ==
      Table(map["queue" := Text(match d.queue
                                case ImageQueue => "q.image"
                                case OcrQueue => "q.ocr"
                                case RetryQueue => "q.retry"
                                case ParkingQueue => "q.parking"),
                "reason" := Text(if d.reason == Rejected then "rejected" else "expired"),
                "count" := Long(d.count)])
  {
    assert Encode(ds)["x-death"].items[0] == EncodeDeath(d);
  }

  /** When the decoders agree, exactly, on any header at all. Off these one of them
      ignores, or raises on, what the other reads. */
  lemma DecodersAgreeIff(h: Headers)
    ensures PyDeathCount(h) == Some(GoDeathCount(h)) <==> ReadAlike(h)
  {
    if "x-death" in h && h["x-death"].List? && h["x-death"].items != [] && h["x-death"].items[0].Table? {
      var first := h["x-death"].items[0].entries;
      if "count" in first && first["count"].Text? {
        ParsesToZero(first["count"].s);
      }
    }
  }

  /** For one, a 32-bit count is read by one and ignored by the other. */
  lemma DecodersDiffer()
    ensures exists h :: PyDeathCount(h) != Some(GoDeathCount(h))
  {
    var first: map<string, Field> := map["count" := Short(3)];
    var h: Headers := map["x-death" := List([Table(first)])];
    assert first["count"] == Short(3);
    DecodersAgreeIff(h);
  }
}
