/**
 * The producer of a Compose cache handoff: it resolves the services of a Compose configuration
 * to host images, exports every distinct image once, and writes the index, the override and the
 * cache ID that the importer checks.
 */
module ComposeHandoffs {
  import opened Collections
  import opened ComposeCaches
  import opened TextOrder
  import CacheImports

  /** A service of the configuration; `build` is its raw JSON, empty when absent. */
  datatype Service = Service(image: string, build: string)

  datatype Job = Job(services: map<string, Service>, builtImageIds: map<string, string>)

  datatype CacheImage = CacheImage(source: string, imageId: string, key: string, tag: string, archive: string)

  /** Docker and the libraries. What Docker answers may depend on when, that is for which service, it is asked. */
  datatype Env = Env(
    inspect: (string, string) -> Option<string>,
    pullThenInspect: (string, string) -> Option<string>,
    tagImage: (string, string) -> bool,
    exportImage: string -> Option<string>,
    exportRemote: (string, string) -> Option<string>,
    valid: (string, string) -> bool,
    hash: string -> string,
    marshal: seq<Entry<CacheImage>> -> string)

  /** What `prepareComposeCache` leaves in the handoff directory; `rows` is what the cache ID digests. */
  datatype Handoff = Handoff(
    index: Index,
    override: map<string, string>,
    archives: map<string, string>,
    rows: seq<Entry<CacheImage>>,
    cacheId: string)

  /** SHA-256 in hexadecimal always has the form of a digest. */
  ghost predicate Digests(env: Env) {
    forall text: string :: IsDigest(env.hash(text))
  }

  // ---------------------------------------------------------------- resolving services

  predicate IsBuilt(s: Service) {
    s.build != "" && s.build != "null"
  }

  function BuiltId(job: Job, name: string): string {
    if name in job.builtImageIds then job.builtImageIds[name] else ""
  }

  predicate Skips(job: Job, name: string)
    requires name in job.services
  {
    (IsBuilt(job.services[name]) && BuiltId(job, name) == "") || job.services[name].image == ""
  }

  function ImageId(env: Env, job: Job, name: string): Option<string>
    requires name in job.services
  {
    var s := job.services[name];
    var found := env.inspect(name, s.image);
    if found.Some? then found
    else if IsBuilt(s) then None
    else env.pullThenInspect(name, s.image)
  }

  function KeyOf(env: Env, source: string, imageId: string): string {
    Prefix(env.hash(source + "\n" + imageId), 24)
  }

  function ImageFor(source: string, imageId: string, key: string): CacheImage {
    CacheImage(source, imageId, key, TAG_PREFIX + key, key + ".tar")
  }

  function Resolve(env: Env, job: Job, name: string): Option<CacheImage>
    requires name in job.services
  {
    var s := job.services[name];
    var id := ImageId(env, job, name);
    if id.None? || (IsBuilt(s) && id.value != BuiltId(job, name)) then None
    else Some(ImageFor(s.image, id.value, KeyOf(env, s.image, id.value)))
  }

  /** The images of the services that are not skipped. */
  ghost function Images(env: Env, job: Job): map<string, CacheImage> {
    map name | name in job.services && !Skips(job, name) && Resolve(env, job, name).Some?
      :: Resolve(env, job, name).value
  }

  ghost predicate Unresolvable(env: Env, job: Job) {
    || (exists name :: name in job.services && !Skips(job, name) && Resolve(env, job, name).None?)
    || (forall name | name in job.services :: Skips(job, name))
  }

  ghost predicate ResolvedSoFar(env: Env, job: Job, left: set<string>, images: map<string, CacheImage>) {
    forall name ::
      && (name in images <==> name in job.services && name !in left && !Skips(job, name))
      && (name in images ==> Resolve(env, job, name) == Some(images[name]))
  }

  /** The resolution loop; its result does not depend on the order of the services. */
  method ResolveServices(env: Env, job: Job) returns (r: Option<map<string, CacheImage>>)
    ensures r.None? <==> Unresolvable(env, job)
    ensures r.Some? ==> r.value == Images(env, job) != map[]
  {
    var images: map<string, CacheImage> := map[];
    var left := job.services.Keys;
    while left != {}
      invariant left <= job.services.Keys
      invariant ResolvedSoFar(env, job, left, images)
      decreases |left|
    {
      var name :| name in left;
      if !Skips(job, name) {
        var image := Resolve(env, job, name);
        if image.None? {
          return None;
        }
        images := images[name := image.value];
      }
      left := left - {name};
    }
    if images == map[] {
      assert forall name | name in job.services :: name in images || Skips(job, name);
      return None;
    }
    var some :| some in images;
    assert some in job.services && !Skips(job, some);
    return Some(images);
  }

  // ---------------------------------------------------------------- one row per distinct image

  /** Images with the same tag are the same: no two key hashes in use collide. */
  ghost predicate TagsDistinguish(images: map<string, CacheImage>) {
    forall m, n | m in images && n in images && images[m].tag == images[n].tag :: images[m] == images[n]
  }

  /** `unique` holds one image for every tag in use. */
  ghost predicate OnePerTag(images: map<string, CacheImage>, unique: map<string, CacheImage>) {
    && (forall name | name in images :: images[name].tag in unique)
    && (forall tag | tag in unique :: unique[tag].tag == tag && unique[tag] in images.Values)
  }

  method UniqueByTag(images: map<string, CacheImage>) returns (unique: map<string, CacheImage>)
    ensures OnePerTag(images, unique)
  {
    unique := map[];
    var left := images.Keys;
    while left != {}
      invariant left <= images.Keys
      invariant forall name | name in images && name !in left :: images[name].tag in unique
      invariant forall tag | tag in unique :: unique[tag].tag == tag && unique[tag] in images.Values
      decreases |left|
    {
      var name :| name in left;
      unique := unique[images[name].tag := images[name]];
      left := left - {name};
    }
  }

  /** The rows of `unique` in tag order. */
  ghost predicate RowsOf(unique: map<string, CacheImage>, rows: seq<Entry<CacheImage>>) {
    && Sorted(rows) && DistinctKeys(rows)
    && (forall x: Entry<CacheImage> :: x in rows <==> x.key in unique && unique[x.key] == x.value)
  }

  method SortedRows(unique: map<string, CacheImage>) returns (rows: seq<Entry<CacheImage>>)
    ensures RowsOf(unique, rows)
  {
    var entries: seq<Entry<CacheImage>> := [];
    var left := unique.Keys;
    while left != {}
      invariant left <= unique.Keys
      invariant DistinctKeys(entries)
      invariant forall x: Entry<CacheImage> ::
        x in entries <==> x.key in unique && x.key !in left && unique[x.key] == x.value
      decreases |left|
    {
      var tag :| tag in left;
      var entry := Entry(tag, unique[tag]);
      forall i | 0 <= i < |entries| ensures entries[i].key != tag {
        assert entries[i] in entries;
      }
      assert ([entry] + entries)[1..] == entries;
      entries := [entry] + entries;
      left := left - {tag};
    }
    rows := Sort(entries);
    SortSorts(entries);
    forall x: Entry<CacheImage> ensures x in rows <==> x.key in unique && unique[x.key] == x.value {
      SortElements(entries, x);
    }
  }

  // ---------------------------------------------------------------- which image a service gets

  /** Not cached: without an image reference, or to be built and without an image ID from its build. */
  predicate IsLeftOut(job: Job, name: string)
    requires name in job.services
  {
    job.services[name].image == "" ||
    (job.services[name].build !in {"", "null"} && (name !in job.builtImageIds || job.builtImageIds[name] == ""))
  }

  /**
   * The image `id` is what this service stands for: the one its build produced, found on the host,
   * or the one its reference names there, pulled only when it is missing.
   */
  predicate StandsFor(env: Env, job: Job, name: string, id: string)
    requires name in job.services
  {
    var s := job.services[name];
    if s.build !in {"", "null"} then
      name in job.builtImageIds && id == job.builtImageIds[name] && env.inspect(name, s.image) == Some(id)
    else
      env.inspect(name, s.image) == Some(id)
      || (env.inspect(name, s.image).None? && env.pullThenInspect(name, s.image) == Some(id))
  }

  /** 24 digits of the hash of reference and image ID. */
  function NameDigits(env: Env, reference: string, id: string): string {
    Prefix(env.hash(reference + "\n" + id), 24)
  }

  /** A service is handed off with the image it stands for, under a name made of reference and image ID. */
  lemma ImagesMean(env: Env, job: Job, name: string, id: string)
    ensures
      name in Images(env, job) && Images(env, job)[name].imageId == id
      <==> name in job.services && !IsLeftOut(job, name) && StandsFor(env, job, name, id)
    ensures name in Images(env, job) ==>
      var image := Images(env, job)[name];
      var digits := NameDigits(env, job.services[name].image, image.imageId);
      && image.source == job.services[name].image && image.archive == digits + ".tar"
      && image.tag == "gondolin-preload:" + digits
  {
  }

  /** Resolution fails exactly when a service that is not left out stands for no image, or all are left out. */
  lemma UnresolvableMeans(env: Env, job: Job)
    ensures Unresolvable(env, job)
      <==> || (exists name :: name in job.services && !IsLeftOut(job, name)
                              && forall id :: !StandsFor(env, job, name, id))
           || (forall name :: name in job.services ==> IsLeftOut(job, name))
  {
    forall name | name in job.services && !IsLeftOut(job, name)
      ensures Resolve(env, job, name).None? <==> forall id :: !StandsFor(env, job, name, id)
    {
      if Resolve(env, job, name).Some? {
        assert StandsFor(env, job, name, Resolve(env, job, name).value.imageId);
      }
    }
  }

  lemma BeforeNewline(a: string, b: string, c: string, d: string)
    requires '\n' !in a && '\n' !in c && a + "\n" + b == c + "\n" + d
    ensures a == c && b == d
  {
    var s := a + "\n" + b;
    assert s[|a|] == '\n' && s[|c|] == '\n';
    assert forall k | 0 <= k < |a| :: s[k] == a[k] && a[k] in a;
    assert forall k | 0 <= k < |c| :: s[k] == c[k] && c[k] in c;
    assert a == s[..|a|] && c == s[..|c|] && b == s[|a| + 1..] && d == s[|c| + 1..];
  }

  /**
   * When tags tell images apart: with no newline in a reference, exactly when the hashes of no two
   * different reference and image ID pairs in use begin with the same 24 digits.
   */
  lemma TagsDistinguishIff(env: Env, job: Job)
    requires forall name | name in job.services :: '\n' !in job.services[name].image
    ensures TagsDistinguish(Images(env, job))
      <==> forall m, n | m in Images(env, job) && n in Images(env, job) ::
             var a, b := Images(env, job)[m], Images(env, job)[n];
             NameDigits(env, a.source, a.imageId) == NameDigits(env, b.source, b.imageId) ==>
               a.source + "\n" + a.imageId == b.source + "\n" + b.imageId
  {
    var images := Images(env, job);
    forall m, n | m in images && n in images
      ensures images[m].tag == images[n].tag
        <==> NameDigits(env, images[m].source, images[m].imageId)
             == NameDigits(env, images[n].source, images[n].imageId)
      ensures images[m] == images[n]
        <==> images[m].source + "\n" + images[m].imageId == images[n].source + "\n" + images[n].imageId
    {
      TagsAndNames(env, job, m, n);
    }
  }

  lemma TagsAndNames(env: Env, job: Job, m: string, n: string)
    requires m in Images(env, job) && n in Images(env, job)
    requires '\n' !in job.services[m].image && '\n' !in job.services[n].image
    ensures
      var a, b := Images(env, job)[m], Images(env, job)[n];
      && (a.tag == b.tag <==> NameDigits(env, a.source, a.imageId) == NameDigits(env, b.source, b.imageId))
      && (a == b <==> a.source + "\n" + a.imageId == b.source + "\n" + b.imageId)
  {
    var a, b := Images(env, job)[m], Images(env, job)[n];
    ImagesMean(env, job, m, a.imageId);
    ImagesMean(env, job, n, b.imageId);
    if a.tag == b.tag {
      SamePrefix("gondolin-preload:", NameDigits(env, a.source, a.imageId), NameDigits(env, b.source, b.imageId));
    }
    if a.source + "\n" + a.imageId == b.source + "\n" + b.imageId {
      BeforeNewline(a.source, a.imageId, b.source, b.imageId);
    }
  }

  // ---------------------------------------------------------------- exporting

  /** An export is valid; it is the engine's whenever that is, and Buildx's only when the engine's is incomplete. */
  lemma ExportMeans(env: Env, image: CacheImage)
    ensures ExportOf(env, image).Some? ==>
      var file, engine := ExportOf(env, image).value, env.exportImage(image.tag);
      && env.tagImage(image.imageId, image.tag) && env.valid(file, image.tag) && engine.Some?
      && (env.valid(engine.value, image.tag) ==> file == engine.value)
      && (!env.valid(engine.value, image.tag) ==> env.exportRemote(image.source, image.tag) == Some(file))
    ensures ExportOf(env, image).None? ==>
      var engine, remote := env.exportImage(image.tag), env.exportRemote(image.source, image.tag);
      || !env.tagImage(image.imageId, image.tag) || engine.None?
      || (!env.valid(engine.value, image.tag) && (remote.None? || !env.valid(remote.value, image.tag)))
  {
  }

  /** The engine's archive, or Buildx's when the engine's is incomplete. */
  function ExportOf(env: Env, image: CacheImage): Option<string> {
    if !env.tagImage(image.imageId, image.tag) then None
    else
      var engine := env.exportImage(image.tag);
      if engine.None? || env.valid(engine.value, image.tag) then engine
      else
        var remote := env.exportRemote(image.source, image.tag);
        if remote.Some? && env.valid(remote.value, image.tag) then remote else None
  }

  /** Within these images, the tag and the archive name tell images apart equally well. */
  ghost predicate TagsMatchArchives(images: map<string, CacheImage>) {
    forall m, n | m in images && n in images ::
      images[m].tag == images[n].tag <==> images[m].archive == images[n].archive
  }

  lemma SameSuffix(a: string, b: string, suffix: string)
    requires a + suffix == b + suffix
    ensures a == b
  {
    assert a == (a + suffix)[..|a|] && b == (b + suffix)[..|b|];
  }

  lemma SamePrefix(prefix: string, a: string, b: string)
    requires prefix + a == prefix + b
    ensures a == b
  {
    assert a == (prefix + a)[|prefix|..] && b == (prefix + b)[|prefix|..];
  }

  lemma ImagesMatchArchives(env: Env, job: Job)
    ensures TagsMatchArchives(Images(env, job))
  {
    var images := Images(env, job);
    forall m, n | m in images && n in images
      ensures images[m].tag == images[n].tag <==> images[m].archive == images[n].archive
    {
      var a, b := images[m], images[n];
      assert Resolve(env, job, m) == Some(a) && Resolve(env, job, n) == Some(b);
      if a.tag == b.tag {
        SamePrefix(TAG_PREFIX, a.key, b.key);
      }
      if a.archive == b.archive {
        SameSuffix(a.key, b.key, ".tar");
      }
    }
  }

  /** The archive of this image is on disk, is the export of that image and passes the archive check. */
  ghost predicate Exported(env: Env, archives: map<string, string>, image: CacheImage) {
    && image.archive in archives
    && ExportOf(env, image) == Some(archives[image.archive])
    && env.valid(archives[image.archive], image.tag)
  }

  ghost predicate DistinctArchives(rows: seq<Entry<CacheImage>>) {
    forall i, j | 0 <= i < j < |rows| :: rows[i].value.archive != rows[j].value.archive
  }

  ghost predicate AllExported(env: Env, archives: map<string, string>, rows: seq<Entry<CacheImage>>) {
    forall i | 0 <= i < |rows| :: Exported(env, archives, rows[i].value)
  }

  method ExportImages(env: Env, rows: seq<Entry<CacheImage>>) returns (archives: Option<map<string, string>>)
    requires DistinctArchives(rows)
    ensures archives.Some? ==> AllExported(env, archives.value, rows)
    ensures archives.None? ==> exists i :: 0 <= i < |rows| && ExportOf(env, rows[i].value).None?
  {
    var files: map<string, string> := map[];
    for i := 0 to |rows|
      invariant AllExported(env, files, rows[..i])
    {
      var image := rows[i].value;
      var file := ExportOf(env, image);
      if file.None? {
        return None;
      }
      ExportedMore(env, files, rows[..i], rows[i], file.value);
      assert rows[..i + 1] == rows[..i] + [rows[i]];
      files := files[image.archive := file.value];
    }
    assert rows[..|rows|] == rows;
    return Some(files);
  }

  lemma ExportedMore(env: Env, files: map<string, string>, rows: seq<Entry<CacheImage>>, row: Entry<CacheImage>,
                     file: string)
    requires AllExported(env, files, rows) && DistinctArchives(rows + [row])
    requires ExportOf(env, row.value) == Some(file)
    ensures AllExported(env, files[row.value.archive := file], rows + [row])
  {
    forall i | 0 <= i < |rows| ensures Exported(env, files[row.value.archive := file], rows[i].value) {
      assert Exported(env, files, rows[i].value);
      assert (rows + [row])[i] == rows[i] && (rows + [row])[|rows|] == row;
    }
    ExportIsValid(env, row.value);
  }

  lemma ExportIsValid(env: Env, image: CacheImage)
    requires ExportOf(env, image).Some?
    ensures env.valid(ExportOf(env, image).value, image.tag)
  {
  }

  lemma {:induction false} KeysDiffer<T>(rows: seq<Entry<T>>, i: nat, j: nat)
    requires DistinctKeys(rows) && i < j < |rows|
    ensures rows[i].key != rows[j].key
  {
    if i == 0 {
      assert rows[j] == rows[1..][j - 1];
    } else {
      KeysDiffer(rows[1..], i - 1, j - 1);
    }
  }

  // ---------------------------------------------------------------- the handoff

  /** What a completed handoff holds for one service. */
  ghost predicate Describes(env: Env, h: Handoff, name: string, image: CacheImage) {
    && name in h.index && name in h.override && h.override[name] == image.tag
    && image.archive in h.archives && env.valid(h.archives[image.archive], image.tag)
    && h.index[name] == CacheEntry(image.tag, image.archive, env.hash(h.archives[image.archive]))
  }

  ghost predicate RowHolds(images: map<string, CacheImage>, x: Entry<CacheImage>) {
    x.key == x.value.tag && exists name :: name in images && images[name] == x.value
  }

  ghost predicate HasRow(rows: seq<Entry<CacheImage>>, tag: string) {
    exists i :: 0 <= i < |rows| && rows[i].key == tag
  }

  ghost predicate RowsHold(images: map<string, CacheImage>, rows: seq<Entry<CacheImage>>) {
    forall i | 0 <= i < |rows| :: RowHolds(images, rows[i])
  }

  ghost predicate RowsCover(images: map<string, CacheImage>, rows: seq<Entry<CacheImage>>) {
    forall name | name in images :: HasRow(rows, images[name].tag)
  }

  /** One row for every tag in use, each holding an image in use, in tag order. */
  ghost predicate RowsFor(images: map<string, CacheImage>, rows: seq<Entry<CacheImage>>) {
    Sorted(rows) && DistinctKeys(rows) && RowsHold(images, rows) && RowsCover(images, rows)
  }

  ghost predicate AllDescribed(env: Env, images: map<string, CacheImage>, h: Handoff) {
    forall name | name in images :: Describes(env, h, name, images[name])
  }

  ghost predicate Completes(env: Env, images: map<string, CacheImage>, h: Handoff) {
    && images != map[] && h.index.Keys == images.Keys && h.override.Keys == images.Keys
    && AllDescribed(env, images, h)
    && RowsFor(images, h.rows) && h.cacheId == env.hash(env.marshal(h.rows))
    && AllExported(env, h.archives, h.rows)
  }

  /** Some image in use can be exported neither by the engine nor by Buildx. */
  ghost predicate SomeExportFails(env: Env, images: map<string, CacheImage>) {
    exists name :: name in images && ExportOf(env, images[name]).None?
  }

  lemma FailedRowIsInUse(env: Env, images: map<string, CacheImage>, rows: seq<Entry<CacheImage>>, i: nat)
    requires RowsHold(images, rows) && i < |rows| && ExportOf(env, rows[i].value).None?
    ensures SomeExportFails(env, images)
  {
    assert RowHolds(images, rows[i]);
  }

  /** Unless two images share a tag, every service's archive is the export of its own image. */
  lemma ArchivesAreOwnExports(env: Env, images: map<string, CacheImage>, h: Handoff)
    requires Completes(env, images, h) && TagsDistinguish(images)
    ensures forall name | name in images ::
      images[name].archive in h.archives && ExportOf(env, images[name]) == Some(h.archives[images[name].archive])
  {
    forall name | name in images
      ensures images[name].archive in h.archives
          && ExportOf(env, images[name]) == Some(h.archives[images[name].archive])
    {
      assert HasRow(h.rows, images[name].tag);
      var i :| 0 <= i < |h.rows| && h.rows[i].key == images[name].tag;
      assert RowHolds(images, h.rows[i]) && Exported(env, h.archives, h.rows[i].value);
      var other :| other in images && images[other] == h.rows[i].value;
      assert images[other] == images[name];
    }
  }

  lemma RowsAreFor(images: map<string, CacheImage>, unique: map<string, CacheImage>, rows: seq<Entry<CacheImage>>)
    requires OnePerTag(images, unique) && RowsOf(unique, rows)
    ensures RowsHold(images, rows) && RowsCover(images, rows)
  {
    forall name | name in images ensures HasRow(rows, images[name].tag) {
      var tag := images[name].tag;
      assert Entry(tag, unique[tag]) in rows;
    }
    forall i | 0 <= i < |rows| ensures RowHolds(images, rows[i]) {
      assert rows[i] in rows;
    }
  }

  lemma RowsHaveDistinctArchives(images: map<string, CacheImage>, rows: seq<Entry<CacheImage>>)
    requires RowsHold(images, rows) && DistinctKeys(rows) && TagsMatchArchives(images)
    ensures DistinctArchives(rows)
  {
    forall i, j | 0 <= i < j < |rows| ensures rows[i].value.archive != rows[j].value.archive {
      assert RowHolds(images, rows[i]) && RowHolds(images, rows[j]);
      var m :| m in images && images[m] == rows[i].value;
      var n :| n in images && images[n] == rows[j].value;
      KeysDiffer(rows, i, j);
    }
  }

  ghost predicate AllStored(env: Env, images: map<string, CacheImage>, archives: map<string, string>) {
    forall name | name in images ::
      images[name].archive in archives && env.valid(archives[images[name].archive], images[name].tag)
  }

  /** A service finds its archive even when another image took its row. */
  lemma ServicesFindArchives(env: Env, images: map<string, CacheImage>, rows: seq<Entry<CacheImage>>,
                             archives: map<string, string>)
    requires RowsHold(images, rows) && RowsCover(images, rows) && TagsMatchArchives(images)
    requires AllExported(env, archives, rows)
    ensures AllStored(env, images, archives)
  {
    forall name | name in images
      ensures images[name].archive in archives && env.valid(archives[images[name].archive], images[name].tag)
    {
      assert HasRow(rows, images[name].tag);
      var i :| 0 <= i < |rows| && rows[i].key == images[name].tag;
      assert RowHolds(images, rows[i]) && Exported(env, archives, rows[i].value);
      var m :| m in images && images[m] == rows[i].value;
    }
  }

  /** The resolved images, one row per tag, and the archives of those rows. */
  method ExportServices(env: Env, job: Job, images: map<string, CacheImage>)
    returns (r: Option<(seq<Entry<CacheImage>>, map<string, string>)>)
    requires images == Images(env, job)
    ensures r.Some? ==>
      RowsFor(images, r.value.0) && AllStored(env, images, r.value.1) && AllExported(env, r.value.1, r.value.0)
    ensures r.None? ==> SomeExportFails(env, images)
  {
    var unique := UniqueByTag(images);
    var rows := SortedRows(unique);
    RowsAreFor(images, unique, rows);
    ImagesMatchArchives(env, job);
    RowsHaveDistinctArchives(images, rows);
    var archives := ExportImages(env, rows);
    if archives.None? {
      var i :| 0 <= i < |rows| && ExportOf(env, rows[i].value).None?;
      FailedRowIsInUse(env, images, rows, i);
      return None;
    }
    ServicesFindArchives(env, images, rows, archives.value);
    return Some((rows, archives.value));
  }

  /** The index and override loops. */
  method DescribeServices(env: Env, images: map<string, CacheImage>, empty: Handoff) returns (h: Handoff)
    requires empty.index == map[] && empty.override == map[] && AllStored(env, images, empty.archives)
    ensures h.index.Keys == images.Keys && h.override.Keys == images.Keys && AllDescribed(env, images, h)
    ensures h.archives == empty.archives && h.rows == empty.rows && h.cacheId == empty.cacheId
  {
    h := empty;
    var left := images.Keys;
    while left != {}
      invariant left <= images.Keys
      invariant h.index.Keys == images.Keys - left && h.override.Keys == images.Keys - left
      invariant h.archives == empty.archives && h.rows == empty.rows && h.cacheId == empty.cacheId
      invariant forall name | name in images && name !in left :: Describes(env, h, name, images[name])
      decreases |left|
    {
      var name :| name in left;
      var image := images[name];
      var entry := CacheEntry(image.tag, image.archive, env.hash(h.archives[image.archive]));
      h := h.(index := h.index[name := entry], override := h.override[name := image.tag]);
      left := left - {name};
    }
  }

  method PrepareComposeCache(env: Env, job: Job) returns (r: Option<Handoff>)
    ensures Unresolvable(env, job) ==> r.None?
    ensures r.None? ==> Unresolvable(env, job) || SomeExportFails(env, Images(env, job))
    ensures r.Some? ==> Completes(env, Images(env, job), r.value)
  {
    var images := ResolveServices(env, job);
    if images.None? {
      return None;
    }
    var exported := ExportServices(env, job, images.value);
    if exported.None? {
      return None;
    }
    var rows, archives := exported.value.0, exported.value.1;
    var h := DescribeServices(env, images.value, Handoff(map[], map[], archives, rows, env.hash(env.marshal(rows))));
    return Some(h);
  }

  /** Unless tags collide, two services share an archive exactly when reference and image ID are the same. */
  lemma ServicesShareArchivesIff(env: Env, job: Job, h: Handoff, m: string, n: string)
    requires Completes(env, Images(env, job), h) && TagsDistinguish(Images(env, job))
    requires m in h.index && n in h.index
    ensures
      h.index[m].archive == h.index[n].archive
      <==> job.services[m].image == job.services[n].image && ImageId(env, job, m) == ImageId(env, job, n)
  {
    var images := Images(env, job);
    assert Describes(env, h, m, images[m]) && Describes(env, h, n, images[n]);
    ImagesMatchArchives(env, job);
    assert Resolve(env, job, m) == Some(images[m]) && Resolve(env, job, n) == Some(images[n]);
  }

  // ---------------------------------------------------------------- the handoff is importable

  lemma ImageEntryOk(env: Env, job: Job, name: string, sha256: string)
    requires Digests(env) && name in Images(env, job) && IsDigest(sha256)
    ensures
      var image := Images(env, job)[name];
      EntryOk(name, CacheEntry(image.tag, image.archive, sha256)) <==> name != ""
  {
    var s, image := job.services[name], Images(env, job)[name];
    assert image == Resolve(env, job, name).value;
    assert IsDigest(env.hash(s.image + "\n" + image.imageId));
    assert image.archive[..24] == image.key && image.archive[24..] == ".tar";
  }

  /** A service with the empty name that is not skipped. */
  predicate CachesUnnamed(job: Job) {
    "" in job.services && !Skips(job, "")
  }

  /** In a handoff of a job whose services all resolved, the unnamed service is there exactly when it is not skipped. */
  lemma UnnamedIsCached(env: Env, job: Job, h: Handoff)
    requires Completes(env, Images(env, job), h) && !Unresolvable(env, job)
    ensures "" in h.index <==> CachesUnnamed(job)
  {
    assert "" in h.index <==> "" in Images(env, job);
    if CachesUnnamed(job) {
      assert Resolve(env, job, "").Some?;
    }
  }

  /**
   * A completed handoff passes every index check of the importer exactly when the job caches no service
   * with an empty name.
   */
  lemma CompletedIsAdmissible(env: Env, job: Job, h: Handoff)
    requires Digests(env) && Completes(env, Images(env, job), h) && !Unresolvable(env, job)
    ensures Admissible(h.index) <==> !CachesUnnamed(job)
  {
    UnnamedIsCached(env, job, h);
    forall name | name in h.index ensures EntryOk(name, h.index[name]) <==> name != "" {
      EntryDescribed(env, job, h, name);
    }
    ArchivesHaveOneChecksum(env, job, h);
  }

  // ---------------------------------------------------------------- a job whose handoff is refused

  /** One service with the empty name, from a host image; every digest is `digest`. */
  function UnnamedJob(): Job {
    Job(map["" := Service("image", "")], map[])
  }

  function HostEnv(digest: string): Env {
    Env((name, reference) => Some("id"), (name, reference) => Some("id"), (id, tag) => true, tag => Some("archive"),
        (source, tag) => None, (data, tag) => true, text => digest, rows => "")
  }

  function UnnamedHandoff(digest: string, image: CacheImage): Handoff {
    Handoff(map["" := CacheEntry(image.tag, image.archive, digest)], map["" := image.tag],
            map[image.archive := "archive"], [Entry(image.tag, image)], digest)
  }

  lemma UnnamedImages(digest: string)
    ensures
      var env, job := HostEnv(digest), UnnamedJob();
      && !Unresolvable(env, job)
      && Images(env, job) == map["" := ImageFor("image", "id", KeyOf(env, "image", "id"))]
  {
    var env, job := HostEnv(digest), UnnamedJob();
    var image := ImageFor("image", "id", KeyOf(env, "image", "id"));
    assert Resolve(env, job, "") == Some(image) && !Skips(job, "") && "" in job.services;
  }

  lemma UnnamedCompletes(digest: string, image: CacheImage)
    requires ImageFor("image", "id", KeyOf(HostEnv(digest), "image", "id")) == image
    ensures Completes(HostEnv(digest), map["" := image], UnnamedHandoff(digest, image))
  {
    var env, images, h := HostEnv(digest), map["" := image], UnnamedHandoff(digest, image);
    assert RowHolds(images, h.rows[0]) by { assert "" in images; }
    assert HasRow(h.rows, image.tag) by { assert h.rows[0].key == image.tag; }
    assert Describes(env, h, "", image) && Exported(env, h.archives, image);
  }

  /** A job that caches a service with an empty name: its handoff completes, and the importer refuses it. */
  lemma UnnamedIsRefused() returns (env: Env, job: Job, h: Handoff)
    ensures Digests(env) && !Unresolvable(env, job) && Completes(env, Images(env, job), h)
    ensures CachesUnnamed(job) && !Admissible(h.index)
  {
    var digest := Repeat('0', 64);
    RepeatIsHex('0', 64);
    env, job := HostEnv(digest), UnnamedJob();
    var image := ImageFor("image", "id", KeyOf(env, "image", "id"));
    h := UnnamedHandoff(digest, image);
    UnnamedImages(digest);
    UnnamedCompletes(digest, image);
    CompletedIsAdmissible(env, job, h);
  }

  lemma EntryDescribed(env: Env, job: Job, h: Handoff, name: string)
    requires Digests(env) && AllDescribed(env, Images(env, job), h) && name in Images(env, job)
    ensures name in h.index && (EntryOk(name, h.index[name]) <==> name != "")
  {
    assert Describes(env, h, name, Images(env, job)[name]);
    ImageEntryOk(env, job, name, h.index[name].sha256);
  }

  lemma ArchivesHaveOneChecksum(env: Env, job: Job, h: Handoff)
    requires Completes(env, Images(env, job), h)
    ensures Agree(h.index, h.index) && h.index != map[]
  {
    var images := Images(env, job);
    forall s, t | s in h.index && t in h.index && h.index[s].archive == h.index[t].archive
      ensures h.index[s].sha256 == h.index[t].sha256
    {
      assert Describes(env, h, s, images[s]) && Describes(env, h, t, images[t]);
    }
    var name :| name in images;
    assert name in h.index;
  }

  /** The importer sees the handoff: its parsers read what was written, and hash and archive check are the same. */
  ghost predicate Delivered(env: Env, importer: CacheImports.Env, h: Handoff, files: CacheImports.Files) {
    && CacheImports.HasHandoff(files)
    && importer.parseIndex(files[CacheImports.HandoffFile(CacheImports.IndexFile)]) == Some(h.index)
    && importer.reformat(files[CacheImports.HandoffFile(CacheImports.Override)]).Some?
    && importer.trim(files[CacheImports.HandoffFile(CacheImports.CacheId)]) == h.cacheId
    && (forall a: string | a in h.archives ::
          CacheImports.HandoffImage(a) in files && files[CacheImports.HandoffImage(a)] == h.archives[a])
    && (forall text: string :: importer.hash(text) == env.hash(text))
    && (forall text: string, tag: string :: importer.valid(text, tag) == env.valid(text, tag))
  }

  /** End to end: the importer accepts what the producer delivers, and verifies every archive the index names. */
  lemma DeliveredHandoffImports(env: Env, importer: CacheImports.Env, job: Job, h: Handoff, files: CacheImports.Files)
    requires Digests(env) && Completes(env, Images(env, job), h) && !Unresolvable(env, job)
    requires Delivered(env, importer, h, files)
    ensures CacheImports.HandoffAdmissible(importer, files) <==> !CachesUnnamed(job)
    ensures forall name | name in h.index ::
      CacheImports.Holds(importer, files, CacheImports.HandoffImage(h.index[name].archive),
                         CacheImports.ArchiveEntry(h.index[name].sha256, h.index[name].image))
  {
    CompletedIsAdmissible(env, job, h);
    assert IsDigest(h.cacheId);
    forall name | name in h.index
      ensures CacheImports.Holds(importer, files, CacheImports.HandoffImage(h.index[name].archive),
                                 CacheImports.ArchiveEntry(h.index[name].sha256, h.index[name].image))
    {
      assert Describes(env, h, name, Images(env, job)[name]);
    }
  }

  // ---------------------------------------------------------------- the cache ID

  ghost predicate InUse(images: map<string, CacheImage>, image: CacheImage) {
    exists name :: name in images && images[name] == image
  }

  ghost predicate SameImages(a: map<string, CacheImage>, b: map<string, CacheImage>) {
    forall image: CacheImage :: InUse(a, image) <==> InUse(b, image)
  }

  lemma RowsAreImages(images: map<string, CacheImage>, rows: seq<Entry<CacheImage>>, x: Entry<CacheImage>)
    requires RowsHold(images, rows) && RowsCover(images, rows) && TagsDistinguish(images)
    ensures x in rows <==> x.key == x.value.tag && InUse(images, x.value)
  {
    if x in rows {
      var i :| 0 <= i < |rows| && rows[i] == x;
      assert RowHolds(images, rows[i]);
    }
    if x.key == x.value.tag && InUse(images, x.value) {
      var name :| name in images && images[name] == x.value;
      assert HasRow(rows, images[name].tag);
      var i :| 0 <= i < |rows| && rows[i].key == images[name].tag;
      assert RowHolds(images, rows[i]);
      var other :| other in images && images[other] == rows[i].value;
      assert images[other] == images[name];
      assert rows[i] == x;
    }
  }

  lemma RowsDetermined(a: map<string, CacheImage>, r: seq<Entry<CacheImage>>, b: map<string, CacheImage>,
                       s: seq<Entry<CacheImage>>)
    requires RowsFor(a, r) && RowsFor(b, s) && TagsDistinguish(a) && TagsDistinguish(b)
    ensures r == s <==> SameImages(a, b)
  {
    if SameImages(a, b) {
      forall x: Entry<CacheImage> ensures x in r <==> x in s {
        RowsAreImages(a, r, x);
        RowsAreImages(b, s, x);
        assert InUse(a, x.value) <==> InUse(b, x.value);
      }
      SortedUnique(r, s);
    }
    if r == s {
      forall image: CacheImage ensures InUse(a, image) <==> InUse(b, image) {
        RowsAreImages(a, r, Entry(image.tag, image));
        RowsAreImages(b, s, Entry(image.tag, image));
      }
    }
  }

  /**
   * The cache ID names the set of distinct images: not service names, nor how many services share
   * an image, nor any iteration order. Different sets get different IDs unless their digests collide.
   */
  lemma CacheIdNamesTheImages(env: Env, a: map<string, CacheImage>, g: Handoff, b: map<string, CacheImage>, h: Handoff)
    requires Completes(env, a, g) && Completes(env, b, h) && TagsDistinguish(a) && TagsDistinguish(b)
    ensures SameImages(a, b) ==> g.cacheId == h.cacheId
    ensures g.cacheId == h.cacheId && !SameImages(a, b) ==>
      g.rows != h.rows && env.hash(env.marshal(g.rows)) == env.hash(env.marshal(h.rows))
  {
    RowsDetermined(a, g.rows, b, h.rows);
  }
}
