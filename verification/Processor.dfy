/** The transformations the two workers apply. Codecs, OCR and rasterising are
    opaque: they appear as deterministic functions that may fail. What is modelled is
    the dispatch from requested operations to named variants. */
module Processor {
  import opened Media

  /** One fully resolved image transformation, after defaults are filled in. */
  datatype Variant =
    | Resized(maxDim: int, format: string, quality: int)
    | Thumbnail(size: int)
    | WebP(maxDim: int)
    | Grayscale
    | Blur(sigma: real)

  /** The codecs and the worker's options. decodable: can the source be decoded;
      encode: decode, transform and encode; extract: OCR text and metadata. */
  datatype Codec = Codec(
    thumbnailSize: int,
    resizeMaxDim: int,
    decodable: Bytes -> bool,
    encode: (Bytes, Variant) -> Option<(Bytes, map<string, int>)>,
    extract: Bytes -> Option<(Bytes, map<string, int>)>)

  function OrDefault(n: int, default: int): int { if n > 0 then n else default }

  /** The variant an operation asks for; unknown operations ask for none. */
  function VariantFor(c: Codec, p: Params, op: string): Option<Variant> {
    var maxDim := OrDefault(p.resizeMaxDim, OrDefault(c.resizeMaxDim, 1600));
    if op == "resize" then
      Some(Resized(maxDim,
                   if p.resizeFormat == "png" || p.resizeFormat == "webp" then p.resizeFormat else "jpeg",
                   OrDefault(p.quality, 85)))
    else if op == "thumbnail" then
      Some(Thumbnail(OrDefault(p.thumbnailSize, OrDefault(c.thumbnailSize, 256))))
    else if op == "webp" then Some(WebP(maxDim))
    else if op == "grayscale" then Some(Grayscale)
    else if op == "blur" then Some(Blur(if p.blurSigma <= 0.0 then 3.0 else p.blurSigma))
    else None
  }

  function NameOf(v: Variant): string {
    match v
    case Resized(_, _, _) => "resized"
    case Thumbnail(_) => "thumbnail"
    case WebP(_) => "webp"
    case Grayscale => "grayscale"
    case Blur(_) => "blur"
  }

  function ContentTypeOf(v: Variant): string {
    match v
    case Resized(_, format, _) =>
      if format == "png" then "image/png" else if format == "webp" then "image/webp" else "image/jpeg"
    case WebP(_) => "image/webp"
    case _ => "image/png"
  }

  /** The output of one variant, if encoding it succeeds. */
  function Render(c: Codec, src: Bytes, v: Variant): Option<Output> {
    match c.encode(src, v)
    case None => None
    case Some((data, meta)) => Some(Output(NameOf(v), ContentTypeOf(v), data, meta))
  }

  /** Outputs of a list of operations in order; None as soon as one fails. */
  function RenderAll(c: Codec, src: Bytes, p: Params, ops: seq<string>): Option<seq<Output>> {
    if ops == [] then Some([])
    else
      match RenderAll(c, src, p, ops[..|ops| - 1])
      case None => None
      case Some(outs) =>
        match VariantFor(c, p, ops[|ops| - 1])
        case None => Some(outs)
        case Some(v) =>
          match Render(c, src, v)
          case None => None
          case Some(o) => Some(outs + [o])
  }

  /** What one uninterrupted run of a job's pipeline produces from its source; None
      for an input that cannot be processed. */
  function Run(c: Codec, job: Job, src: Bytes): Option<seq<Output>> {
    match job.kind
    case Image => if c.decodable(src) then RenderAll(c, src, job.params, job.operations) else None
    case Ocr =>
      match c.extract(src)
      case None => None
      case Some((data, meta)) => Some([Output("text", "text/plain; charset=utf-8", data, meta)])
  }

  // ---- what each operation stands for ----

  /** A run that encodes one variant: its output under this name and type, or none. */
  function Single(encoded: Option<(Bytes, map<string, int>)>, name: string, contentType: string): Option<seq<Output>> {
    match encoded
    case None => None
    case Some((data, meta)) => Some([Output(name, contentType, data, meta)])
  }

  /** The override if it is positive, else the option, else the built-in value. */
  function Chosen(override: int, option: int, builtIn: int): (n: int)
    ensures override > 0 ==> n == override
    ensures override <= 0 && option > 0 ==> n == option
    ensures override <= 0 && option <= 0 ==> n == builtIn
  {
    if override > 0 then override else if option > 0 then option else builtIn
  }

  predicate Known(op: string) { op in {"resize", "thumbnail", "webp", "grayscale", "blur"} }

  lemma RenderOne(c: Codec, src: Bytes, p: Params, op: string)
    ensures RenderAll(c, src, p, [op]) ==
      match VariantFor(c, p, op)
      case None => Some([])
      case Some(v) => match Render(c, src, v) case None => None case Some(o) => Some([o])
  {
    assert [op][..0] == [] && [op][0] == op;
    assert RenderAll(c, src, p, []) == Some([]);
    assert forall o: Output :: [] + [o] == [o];
  }

  /** A run on one operation, for every operation there is: the variant encoded, with its
      parameters, and the name and type of the output. Any other operation yields nothing. */
  lemma OneOperation(c: Codec, src: Bytes, p: Params, op: string)
    ensures var dim := Chosen(p.resizeMaxDim, c.resizeMaxDim, 1600);
            var quality := if p.quality > 0 then p.quality else 85;
      RenderAll(c, src, p, [op]) ==
      if op == "resize" && p.resizeFormat == "png" then
        Single(c.encode(src, Resized(dim, "png", quality)), "resized", "image/png")
      else if op == "resize" && p.resizeFormat == "webp" then
        Single(c.encode(src, Resized(dim, "webp", quality)), "resized", "image/webp")
      else if op == "resize" then Single(c.encode(src, Resized(dim, "jpeg", quality)), "resized", "image/jpeg")
      else if op == "thumbnail" then
        Single(c.encode(src, Thumbnail(Chosen(p.thumbnailSize, c.thumbnailSize, 256))), "thumbnail", "image/png")
      else if op == "webp" then Single(c.encode(src, WebP(dim)), "webp", "image/webp")
      else if op == "grayscale" then Single(c.encode(src, Grayscale), "grayscale", "image/png")
      else if op == "blur" then
        Single(c.encode(src, Blur(if p.blurSigma > 0.0 then p.blurSigma else 3.0)), "blur", "image/png")
      else Some([])
  {
    RenderOne(c, src, p, op);
  }

  /** The two runs one after the other; the first failure is the failure. */
  function Then(a: Option<seq<Output>>, b: Option<seq<Output>>): Option<seq<Output>> {
    if a.Some? && b.Some? then Some(a.value + b.value) else None
  }

  /** One more operation appends what that operation yields on its own. */
  lemma OneMoreOperation(c: Codec, src: Bytes, p: Params, ops: seq<string>, op: string)
    ensures RenderAll(c, src, p, ops + [op]) == Then(RenderAll(c, src, p, ops), RenderAll(c, src, p, [op]))
  {
    assert (ops + [op])[..|ops + [op]| - 1] == ops;
    RenderOne(c, src, p, op);
    var before := RenderAll(c, src, p, ops);
    assert before.Some? ==> before.value + [] == before.value;
  }

  /** The image worker's dispatch loop. */
  method Process(c: Codec, src: Bytes, operations: seq<string>, p: Params)
    returns (results: Option<seq<Output>>)
    ensures results == if c.decodable(src) then RenderAll(c, src, p, operations) else None
    ensures c.decodable(src) && operations == ["resize"] ==>
      var dim := Chosen(p.resizeMaxDim, c.resizeMaxDim, 1600);
      var quality := if p.quality > 0 then p.quality else 85;
      results ==
      if p.resizeFormat == "png" then Single(c.encode(src, Resized(dim, "png", quality)), "resized", "image/png")
      else if p.resizeFormat == "webp" then
        Single(c.encode(src, Resized(dim, "webp", quality)), "resized", "image/webp")
      else Single(c.encode(src, Resized(dim, "jpeg", quality)), "resized", "image/jpeg")
    ensures c.decodable(src) && operations == ["thumbnail"] ==>
      results ==
        Single(c.encode(src, Thumbnail(Chosen(p.thumbnailSize, c.thumbnailSize, 256))), "thumbnail", "image/png")
    ensures c.decodable(src) && operations == ["webp"] ==>
      results == Single(c.encode(src, WebP(Chosen(p.resizeMaxDim, c.resizeMaxDim, 1600))), "webp", "image/webp")
    ensures c.decodable(src) && operations == ["grayscale"] ==>
      results == Single(c.encode(src, Grayscale), "grayscale", "image/png")
    ensures c.decodable(src) && operations == ["blur"] ==>
      results == Single(c.encode(src, Blur(if p.blurSigma > 0.0 then p.blurSigma else 3.0)), "blur", "image/png")
    ensures c.decodable(src) && |operations| == 1 && !Known(operations[0]) ==> results == Some([])
  {
    if |operations| == 1 {
      OneOperation(c, src, p, operations[0]);
    }
    if !c.decodable(src) {
      return None;
    }
    var outs: seq<Output> := [];
    for i := 0 to |operations|
      invariant RenderAll(c, src, p, operations[..i]) == Some(outs)
    {
      assert operations[..i + 1][..i] == operations[..i];
      var v := VariantFor(c, p, operations[i]);
      if v.Some? {
        var r := Render(c, src, v.value);
        if r.None? {
          PrefixFails(c, src, p, operations, i + 1);
          return None;
        }
        outs := outs + [r.value];
      }
    }
    assert operations[..|operations|] == operations;
    return Some(outs);
  }

  lemma {:induction false} PrefixFails(c: Codec, src: Bytes, p: Params, ops: seq<string>, n: nat)
    requires n <= |ops| && RenderAll(c, src, p, ops[..n]).None?
    ensures RenderAll(c, src, p, ops).None?
  {
    if n < |ops| {
      assert ops[..|ops| - 1][..n] == ops[..n];
      PrefixFails(c, src, p, ops[..|ops| - 1], n);
    } else {
      assert ops[..n] == ops;
    }
  }

  // ---- what the rest of the project needs of a run ----

  /** Where an output comes from: the variant of one of the operations. */
  ghost predicate FromOperation(c: Codec, src: Bytes, p: Params, ops: seq<string>, o: Output) {
    exists i :: 0 <= i < |ops| && VariantFor(c, p, ops[i]).Some? &&
      Render(c, src, VariantFor(c, p, ops[i]).value) == Some(o)
  }

  lemma {:induction false} OutputsComeFromOperations(c: Codec, src: Bytes, p: Params, ops: seq<string>)
    requires RenderAll(c, src, p, ops).Some?
    ensures |RenderAll(c, src, p, ops).value| <= |ops|
    ensures forall o :: o in RenderAll(c, src, p, ops).value ==> FromOperation(c, src, p, ops, o)
  {
    if ops != [] {
      var n := |ops| - 1;
      var init := ops[..n];
      OutputsComeFromOperations(c, src, p, init);
      forall o | o in RenderAll(c, src, p, ops).value
        ensures FromOperation(c, src, p, ops, o)
      {
        if o in RenderAll(c, src, p, init).value {
          var i :| 0 <= i < |init| && VariantFor(c, p, init[i]).Some? &&
            Render(c, src, VariantFor(c, p, init[i]).value) == Some(o);
          assert ops[i] == init[i];
        } else {
          assert VariantFor(c, p, ops[n]).Some?;
        }
      }
    }
  }

  /** Each operation of a run has its output among the run's outputs. */
  lemma {:induction false} EveryOperationYields(c: Codec, src: Bytes, p: Params, ops: seq<string>, op: string)
    requires RenderAll(c, src, p, ops).Some? && op in ops
    ensures RenderAll(c, src, p, [op]).Some?
    ensures forall o :: o in RenderAll(c, src, p, [op]).value ==> o in RenderAll(c, src, p, ops).value
  {
    var n := |ops| - 1;
    assert ops == ops[..n] + [ops[n]];
    OneMoreOperation(c, src, p, ops[..n], ops[n]);
    if op in ops[..n] {
      EveryOperationYields(c, src, p, ops[..n], op);
    }
  }

  /** A variant's name is fixed by one operation, so two operations that yield the
      same name are the same operation. */
  lemma NameFixesOperation(c: Codec, p: Params, a: string, b: string)
    requires VariantFor(c, p, a).Some? && VariantFor(c, p, b).Some?
    requires NameOf(VariantFor(c, p, a).value)[0] == NameOf(VariantFor(c, p, b).value)[0]
    ensures a == b
  {
    var v := VariantFor(c, p, a).value;
    assert NameOf(v)[0] == (match v case Resized(_, _, _) => 'r' case Thumbnail(_) => 't'
                            case WebP(_) => 'w' case Grayscale => 'g' case Blur(_) => 'b');
    var w := VariantFor(c, p, b).value;
    assert NameOf(w)[0] == (match w case Resized(_, _, _) => 'r' case Thumbnail(_) => 't'
                            case WebP(_) => 'w' case Grayscale => 'g' case Blur(_) => 'b');
  }

  lemma FileStartsWithName(o: Output)
    requires o.name != ""
    ensures ArtifactFile(Image, o) != "" && ArtifactFile(Image, o)[0] == o.name[0]
  {
  }

  /** In one run, two outputs with the same name, or stored under the same file, are
      the same output. So the order of repeated operations is immaterial and no
      artifact can overwrite a different one. */
  lemma RunIsConsistent(c: Codec, job: Job, src: Bytes, o: Output, o': Output)
    requires Run(c, job, src).Some? && o in Run(c, job, src).value && o' in Run(c, job, src).value
    requires o.name == o'.name || ArtifactFile(job.kind, o) == ArtifactFile(job.kind, o')
    ensures o == o'
  {
    if job.kind.Image? {
      var p, ops := job.params, job.operations;
      OutputsComeFromOperations(c, src, p, ops);
      var i :| 0 <= i < |ops| && VariantFor(c, p, ops[i]).Some? &&
        Render(c, src, VariantFor(c, p, ops[i]).value) == Some(o);
      var j :| 0 <= j < |ops| && VariantFor(c, p, ops[j]).Some? &&
        Render(c, src, VariantFor(c, p, ops[j]).value) == Some(o');
      NamesNonEmpty(VariantFor(c, p, ops[i]).value);
      NamesNonEmpty(VariantFor(c, p, ops[j]).value);
      FileStartsWithName(o);
      FileStartsWithName(o');
      NameFixesOperation(c, p, ops[i], ops[j]);
    }
  }

  lemma NamesNonEmpty(v: Variant)
    ensures NameOf(v) != ""
  {
  }

  /** A run produces at most one output per requested operation. */
  lemma RunIsBounded(c: Codec, job: Job, src: Bytes)
    ensures Run(c, job, src).Some? ==>
      |Run(c, job, src).value| <= if |job.operations| == 0 then 1 else |job.operations|
  {
    if Run(c, job, src).Some? && job.kind.Image? {
      OutputsComeFromOperations(c, src, job.params, job.operations);
    }
  }
}
