/** Object-store keys as the text the services really use. The rest of the project
    works with structured keys; this module shows nothing is lost by it: the text
    form is injective, so keys of distinct jobs never collide. */
module Keys {
  import opened Media

  predicate SlashFree(s: string) { '/' !in s }

  function ReplaceAll(s: string, a: char, b: char): (r: string)
    ensures |r| == |s|
    ensures forall i :: 0 <= i < |s| ==> r[i] == if s[i] == a then b else s[i]
  {
    seq(|s|, i requires 0 <= i < |s| => if s[i] == a then b else s[i])
  }

  /** The file name the gateway keeps from an upload's own name. */
  function Sanitize(name: string): (r: string)
    ensures r != "" && SlashFree(r) && '\\' !in r
  {
    var s := ReplaceAll(ReplaceAll(name, '/', '_'), '\\', '_');
    if s == "" then "upload.bin" else s
  }

  function Text(k: ObjectKey): string {
    match k
    case UploadKey(j, f) => "uploads/" + j + "/" + f
    case ArtifactKey(j, f) => "artifacts/" + j + "/" + f
  }

  /** Two texts with a slash-free part before the first slash split in one way only. */
  lemma SplitAtSlash(a: string, x: string, b: string, y: string)
    requires SlashFree(a) && SlashFree(b)
    requires a + "/" + x == b + "/" + y
    ensures a == b && x == y
  {
    var l, r := a + "/" + x, b + "/" + y;
    assert l[|a|] == '/' && r[|b|] == '/';
    if |a| != |b| {
      assert false;
    }
    assert a == l[..|a|] && b == r[..|b|];
    assert x == l[|a| + 1..] && y == r[|b| + 1..];
  }

  /** The text of a key determines the key: the store's namespaces for uploads and
      artifacts are disjoint, and no two jobs share a key. File names may hold
      anything: only the job ids need to be free of slashes. */
  lemma KeysNeverCollide(k: ObjectKey, m: ObjectKey)
    requires SlashFree(k.job) && SlashFree(m.job)
    ensures Text(k) == Text(m) <==> k == m
  {
    if Text(k) == Text(m) {
      assert Text(k)[0] == (if k.UploadKey? then 'u' else 'a');
      assert Text(m)[0] == (if m.UploadKey? then 'u' else 'a');
      var p := if k.UploadKey? then "uploads/" else "artifacts/";
      BehindPrefix(p, k.job, k.file);
      BehindPrefix(p, m.job, m.file);
      SplitAtSlash(k.job, k.file, m.job, m.file);
    }
  }

  lemma BehindPrefix(p: string, job: string, file: string)
    ensures (p + job + "/" + file)[|p|..] == job + "/" + file
  {
  }

  /** Without a slash-free id the law fails: a job could then address another job's
      upload. */
  lemma SlashInIdWouldCollide()
    ensures Text(UploadKey("a/b", "c")) == Text(UploadKey("a", "b/c"))
  {
    assert Text(UploadKey("a/b", "c")) == "uploads/a/b/c" == Text(UploadKey("a", "b/c"));
  }

  /** Sanitizing forgets nothing but slashes, backslashes and emptiness: a name
      without them is kept, and sanitizing twice changes nothing more. */
  lemma SanitizeIsStable(name: string)
    ensures Sanitize(name) == name <==> name != "" && SlashFree(name) && '\\' !in name
    ensures Sanitize(Sanitize(name)) == Sanitize(name)
  {
    assert forall n: string :: n != "" && SlashFree(n) && '\\' !in n ==> Sanitize(n) == n by {
      forall n: string | n != "" && SlashFree(n) && '\\' !in n ensures Sanitize(n) == n {
        assert ReplaceAll(n, '/', '_') == n;
        assert ReplaceAll(n, '\\', '_') == n;
      }
    }
  }

  /** The text of an upload's key: the prefix, the id, and the upload's own name with an
      underscore for every slash and backslash, or a stand-in for an empty one. */
  lemma UploadText(id: JobId, name: string)
    ensures var text, dir := Text(UploadKey(id, Sanitize(name))), "uploads/" + id + "/";
      && |text| >= |dir| && text[..|dir|] == dir
      && (if name == "" then text[|dir|..] == "upload.bin"
          else |text| == |dir| + |name| &&
               forall i :: 0 <= i < |name| ==>
                 text[|dir| + i] == if name[i] == '/' || name[i] == '\\' then '_' else name[i])
  {
    var dir := "uploads/" + id + "/";
    assert Text(UploadKey(id, Sanitize(name))) == dir + Sanitize(name);
  }

  /** The file an output is stored under: its name and an extension, which is that of its
      type exactly if the type is one of these two. */
  lemma FileNames(o: Output)
    ensures o.contentType == "image/png" <==> ArtifactFile(Image, o) == o.name + ".png"
    ensures o.contentType == "image/webp" <==> ArtifactFile(Image, o) == o.name + ".webp"
    ensures o.contentType != "image/png" && o.contentType != "image/webp" <==> ArtifactFile(Image, o) == o.name + ".jpg"
    ensures ArtifactFile(Ocr, o) == "text.txt"
  {
    var n := |o.name|;
    assert (o.name + ".png")[n + 1] == 'p' && (o.name + ".webp")[n + 1] == 'w' && (o.name + ".jpg")[n + 1] == 'j';
  }

  /** And the text of its key. */
  lemma ArtifactText(job: Job, o: Output)
    ensures var text, dir := Text(RowFor(job, o).key), "artifacts/" + job.id + "/";
      text ==
      if job.kind.Ocr? then dir + "text.txt"
      else if o.contentType == "image/png" then dir + (o.name + ".png")
      else if o.contentType == "image/webp" then dir + (o.name + ".webp")
      else dir + (o.name + ".jpg")
  {
    FileNames(o);
  }
}
