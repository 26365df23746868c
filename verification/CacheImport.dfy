/**
 * The importer of a Compose cache handoff: it verifies every archive, copies it into the shared
 * store, publishes the index and only then deletes the handoff archives. The disk keeps the
 * history of its durable states, so that a stop after any write, rename or delete is visible.
 */
module CacheImports {
  import opened Collections
  import opened ComposeCaches

  datatype Published = Override | IndexFile | CacheId

  /** The files involved; the handoff, preload and shared roots are distinct. */
  datatype Path =
    | HandoffFile(kind: Published)
    | HandoffImage(archive: string)
    | SharedImage(archive: string)
    | SharedPartial(archive: string, stamp: nat)
    | PreloadImage(name: string)
    | PreloadFile(kind: Published)
    | PreloadTemp(kind: Published, stamp: nat)

  type Files = map<Path, string>

  datatype ArchiveEntry = ArchiveEntry(checksum: string, tag: string)

  type Archives = map<string, ArchiveEntry>

  /** The libraries: SHA-256 in hexadecimal, the parsers, the archive validator, TrimSpace. */
  datatype Env = Env(
    hash: string -> string,
    parseIndex: string -> Option<Index>,
    reformat: string -> Option<string>,
    valid: (string, string) -> bool,
    trim: string -> string)

  datatype Outcome = Imported | Rejected | Failed

  // ---------------------------------------------------------------- what a handoff asks for

  predicate HasHandoff(files: Files) {
    HandoffFile(IndexFile) in files && HandoffFile(Override) in files && HandoffFile(CacheId) in files
  }

  ghost predicate HandoffAdmissible(env: Env, files: Files) {
    && HasHandoff(files)
    && env.parseIndex(files[HandoffFile(IndexFile)]).Some?
    && Admissible(env.parseIndex(files[HandoffFile(IndexFile)]).value)
    && env.reformat(files[HandoffFile(Override)]).Some?
    && IsDigest(env.trim(files[HandoffFile(CacheId)]))
  }

  /** `archives` lists exactly the archives that `index` names, with their checksums and tags. */
  ghost predicate Lists(index: Index, archives: Archives) {
    && (forall s | s in index ::
          index[s].archive in archives && archives[index[s].archive] == ArchiveEntry(index[s].sha256, index[s].image))
    && (forall a | a in archives :: exists s :: s in index && index[s].archive == a)
  }

  ghost predicate ListsOnly(index: Index, archives: Archives, done: set<string>) {
    && (forall s | s in done && s in index ::
          index[s].archive in archives && archives[index[s].archive] == ArchiveEntry(index[s].sha256, index[s].image))
    && (forall a | a in archives :: exists s :: s in done && s in index && index[s].archive == a)
  }

  lemma Conflicts(index: Index, archives: Archives, done: set<string>, service: string)
    requires ListsOnly(index, archives, done) && service in index
    requires index[service].archive in archives && archives[index[service].archive].checksum != index[service].sha256
    ensures !Agree(index, index)
  {
    var s :| s in done && s in index && index[s].archive == index[service].archive;
    assert archives[index[s].archive] == ArchiveEntry(index[s].sha256, index[s].image);
  }

  lemma ListedAgree(index: Index, archives: Archives)
    requires Lists(index, archives)
    ensures Agree(index, index)
  {
    forall s, t | s in index && t in index && index[s].archive == index[t].archive
      ensures index[s].sha256 == index[t].sha256
    {
      assert archives[index[s].archive].checksum == index[s].sha256;
      assert archives[index[t].archive].checksum == index[t].sha256;
    }
  }

  ghost predicate CheckedOnly(index: Index, done: set<string>) {
    forall s | s in done :: s in index && EntryOk(s, index[s])
  }

  /** In whatever order the services are visited, the checks accept exactly the admissible entries. */
  method CollectArchives(index: Index) returns (archives: Option<Archives>)
    ensures archives.Some? <==> EntriesOk(index) && Agree(index, index)
    ensures archives.Some? ==> Lists(index, archives.value)
  {
    var found: Archives := map[];
    var left := index.Keys;
    ghost var done: set<string> := {};
    while left != {}
      invariant Partition(index, left, done)
      invariant CheckedOnly(index, done)
      invariant ListsOnly(index, found, done)
      decreases |left|
    {
      var service :| service in left;
      var checked := CheckEntry(index, found, done, service);
      if checked.None? {
        return None;
      }
      found, left, done := checked.value, left - {service}, done + {service};
    }
    AllCollected(index, found, done);
    ListedAgree(index, found);
    return Some(found);
  }

  ghost predicate Partition(index: Index, left: set<string>, done: set<string>) {
    forall s :: s in index <==> s in left || s in done
  }

  lemma AllCollected(index: Index, found: Archives, done: set<string>)
    requires Partition(index, {}, done) && CheckedOnly(index, done) && ListsOnly(index, found, done)
    ensures EntriesOk(index) && Lists(index, found)
  {
    forall a | a in found ensures exists s :: s in index && index[s].archive == a {
      var s :| s in done && s in index && index[s].archive == a;
    }
  }

  /** The body of the validation loop for one service. */
  method CheckEntry(index: Index, found: Archives, ghost done: set<string>, service: string)
    returns (next: Option<Archives>)
    requires service in index && CheckedOnly(index, done) && ListsOnly(index, found, done)
    ensures next.None? ==> !EntriesOk(index) || !Agree(index, index)
    ensures next.Some? ==> CheckedOnly(index, done + {service}) && ListsOnly(index, next.value, done + {service})
  {
    var entry := index[service];
    if !EntryOk(service, entry) {
      return None;
    }
    if entry.archive in found && found[entry.archive].checksum != entry.sha256 {
      Conflicts(index, found, done, service);
      return None;
    }
    next := Some(found[entry.archive := ArchiveEntry(entry.sha256, entry.image)]);
    Collected(index, found, next.value, done, service);
  }

  lemma Collected(index: Index, found: Archives, next: Archives, done: set<string>, service: string)
    requires ListsOnly(index, found, done) && service in index
    requires CheckedOnly(index, done) && EntryOk(service, index[service])
    requires index[service].archive in found ==> found[index[service].archive].checksum == index[service].sha256
    requires next == found[index[service].archive := ArchiveEntry(index[service].sha256, index[service].image)]
    ensures CheckedOnly(index, done + {service}) && ListsOnly(index, next, done + {service})
  {
    forall a | a in next ensures exists s :: s in done + {service} && s in index && index[s].archive == a {
      if a == index[service].archive {
        assert service in done + {service};
      } else {
        var s :| s in done && s in index && index[s].archive == a;
        assert s in done + {service};
      }
    }
  }

  // ---------------------------------------------------------------- what must hold of every state

  /** Every archive that the installed index names is in the shared store with its listed checksum. */
  ghost predicate Sound(env: Env, files: Files) {
    PreloadFile(IndexFile) in files ==>
      var index := env.parseIndex(files[PreloadFile(IndexFile)]);
      index.Some? ==> Stored(env, files, index.value)
  }

  ghost predicate Stored(env: Env, files: Files, index: Index) {
    forall s | s in index ::
      SharedImage(index[s].archive) in files && env.hash(files[SharedImage(index[s].archive)]) == index[s].sha256
  }

  /**
   * The installed index, if there is one that parses, gives every shared archive name the checksum
   * `index` gives it.
   */
  ghost predicate AgreesWithInstalled(env: Env, files: Files, index: Index) {
    PreloadFile(IndexFile) in files ==>
      var installed := env.parseIndex(files[PreloadFile(IndexFile)]);
      installed.Some? ==> Agree(installed.value, index)
  }

  predicate Same(before: Files, now: Files, p: Path) {
    (p in before <==> p in now) && (p in before ==> before[p] == now[p])
  }

  /** Nothing but `p` differs. */
  ghost predicate Off(p: Path, before: Files, now: Files) {
    forall q: Path | q != p :: Same(before, now, q)
  }

  predicate Holds(env: Env, files: Files, p: Path, entry: ArchiveEntry) {
    p in files && env.hash(files[p]) == entry.checksum && env.valid(files[p], entry.tag)
  }

  /** One import: the state it started from, the texts it publishes and the archives it accepted. */
  datatype Import = Import(env: Env, start: Files, index: string, override: string, cacheId: string, archives: Archives)

  function TextFor(c: Import, kind: Published): string {
    match kind
    case Override => c.override
    case IndexFile => c.index
    case CacheId => c.cacheId
  }

  predicate Has(now: Files, kind: Published, text: string) {
    PreloadFile(kind) in now && now[PreloadFile(kind)] == text
  }

  ghost predicate Verified(c: Import, now: Files, a: string) {
    a in c.archives && Holds(c.env, now, SharedImage(a), c.archives[a])
  }

  ghost predicate AllVerified(c: Import, now: Files) {
    forall a | a in c.archives :: Verified(c, now, a)
  }

  /** A shared archive is as it was, or verified. */
  ghost predicate SharedOk(c: Import, now: Files) {
    forall a: string :: Same(c.start, now, SharedImage(a)) || Verified(c, now, a)
  }

  /** A handoff archive is as it was, or a verified shared copy exists and everything is published. */
  ghost predicate HandoffOk(c: Import, now: Files) {
    forall a: string ::
      Same(c.start, now, HandoffImage(a))
        || (Verified(c, now, a) && Has(now, IndexFile, c.index) && Has(now, CacheId, c.cacheId))
  }

  /** The installed index is the old one, or the new one with every archive and the override in place. */
  ghost predicate IndexOk(c: Import, now: Files) {
    || Same(c.start, now, PreloadFile(IndexFile))
    || (Has(now, IndexFile, c.index) && Has(now, Override, c.override) && AllVerified(c, now))
  }

  /** The cache ID is the old one, or the new one after the new index. */
  ghost predicate CacheIdOk(c: Import, now: Files) {
    Same(c.start, now, PreloadFile(CacheId)) || (Has(now, CacheId, c.cacheId) && Has(now, IndexFile, c.index))
  }

  ghost predicate Safe(c: Import, now: Files) {
    SharedOk(c, now) && HandoffOk(c, now) && IndexOk(c, now) && CacheIdOk(c, now)
  }

  ghost predicate SameHandoff(before: Files, now: Files) {
    forall a: string :: Same(before, now, HandoffImage(a))
  }

  ghost predicate SameLocal(before: Files, now: Files) {
    forall name: string :: Same(before, now, PreloadImage(name))
  }

  ghost predicate SamePublished(before: Files, now: Files) {
    forall kind: Published :: Same(before, now, PreloadFile(kind))
  }

  ghost predicate Reads(c: Import, index: Index) {
    c.env.parseIndex(c.index) == Some(index) && Lists(index, c.archives)
  }

  /** A safe state is sound when the old index was and both indexes agree. */
  lemma SafeIsSound(c: Import, now: Files, index: Index)
    requires Safe(c, now) && Reads(c, index)
    requires Sound(c.env, c.start) && AgreesWithInstalled(c.env, c.start, index)
    ensures Sound(c.env, now)
  {
    SoundUnlessOverwritten(c, now, index);
  }

  /** With every new archive in place under the old index, a disagreement has broken the old index. */
  lemma DisagreementIsUnsound(c: Import, now: Files, index: Index)
    requires AllVerified(c, now) && Same(c.start, now, PreloadFile(IndexFile)) && Reads(c, index)
    requires !AgreesWithInstalled(c.env, c.start, index)
    ensures !Sound(c.env, now)
  {
    var installed := c.env.parseIndex(c.start[PreloadFile(IndexFile)]).value;
    var s, t :| s in installed && t in index
      && installed[s].archive == index[t].archive && installed[s].sha256 != index[t].sha256;
    assert Verified(c, now, index[t].archive);
  }

  /** Some archive to which the two indexes give different checksums has been replaced. */
  ghost predicate ReplacesDisagreeing(start: Files, now: Files, installed: Index, index: Index) {
    exists s, t :: s in installed && t in index && installed[s].archive == index[t].archive
      && installed[s].sha256 != index[t].sha256 && !Same(start, now, SharedImage(index[t].archive))
  }

  /** ... while the old index is still installed. */
  ghost predicate Overwrites(env: Env, start: Files, now: Files, index: Index) {
    && PreloadFile(IndexFile) in start && Same(start, now, PreloadFile(IndexFile))
    && env.parseIndex(start[PreloadFile(IndexFile)]).Some?
    && ReplacesDisagreeing(start, now, env.parseIndex(start[PreloadFile(IndexFile)]).value, index)
  }

  /** Exactly when a state of an import is unsound, wherever the import stops. */
  lemma SoundUnlessOverwritten(c: Import, now: Files, index: Index)
    requires Safe(c, now) && Reads(c, index) && Sound(c.env, c.start)
    ensures Sound(c.env, now) <==> !Overwrites(c.env, c.start, now, index)
  {
    if Overwrites(c.env, c.start, now, index) {
      var installed := c.env.parseIndex(c.start[PreloadFile(IndexFile)]).value;
      var s, t :| s in installed && t in index && installed[s].archive == index[t].archive
        && installed[s].sha256 != index[t].sha256 && !Same(c.start, now, SharedImage(index[t].archive));
      assert Verified(c, now, index[t].archive);
    } else if Same(c.start, now, PreloadFile(IndexFile)) {
      OldIndexStands(c, now, index);
    } else {
      NewIndexStands(c, now, index);
    }
  }

  lemma OldIndexStands(c: Import, now: Files, index: Index)
    requires Safe(c, now) && Reads(c, index) && Sound(c.env, c.start)
    requires Same(c.start, now, PreloadFile(IndexFile)) && !Overwrites(c.env, c.start, now, index)
    ensures Sound(c.env, now)
  {
    if PreloadFile(IndexFile) in now && c.env.parseIndex(now[PreloadFile(IndexFile)]).Some? {
      var installed := c.env.parseIndex(now[PreloadFile(IndexFile)]).value;
      forall s | s in installed
        ensures SharedImage(installed[s].archive) in now
        ensures c.env.hash(now[SharedImage(installed[s].archive)]) == installed[s].sha256
      {
        var a := installed[s].archive;
        if !Same(c.start, now, SharedImage(a)) {
          assert Verified(c, now, a);
          var t :| t in index && index[t].archive == a;
          assert installed[s].sha256 == index[t].sha256;
        }
      }
    }
  }

  lemma NewIndexStands(c: Import, now: Files, index: Index)
    requires Safe(c, now) && Reads(c, index) && !Same(c.start, now, PreloadFile(IndexFile))
    ensures Sound(c.env, now)
  {
    VerifiedIsStored(c, now, index);
  }

  // ---------------------------------------------------------------- which writes are safe

  lemma ScratchIsSafe(c: Import, before: Files, now: Files, p: Path)
    requires Safe(c, before) && Off(p, before, now)
    requires !p.SharedImage? && !p.HandoffImage? && !p.PreloadFile?
    ensures Safe(c, now) && SameHandoff(before, now)
    ensures AllVerified(c, before) ==> AllVerified(c, now)
    ensures SamePublished(before, now)
    ensures forall a: string :: Verified(c, before, a) ==> Verified(c, now, a)
  {
    assert SamePublished(before, now);
    forall a: string
      ensures Verified(c, before, a) ==> Verified(c, now, a)
      ensures Same(before, now, SharedImage(a)) && Same(before, now, HandoffImage(a))
    {
      assert Same(before, now, SharedImage(a)) && Same(before, now, HandoffImage(a));
    }
    StaysSafe(c, before, now);
  }

  ghost predicate Intact(c: Import, files: Files, a: string) {
    a in c.archives && Holds(c.env, files, HandoffImage(a), c.archives[a])
  }

  ghost predicate Kept(c: Import, before: Files, now: Files) {
    && SamePublished(before, now) && SameHandoff(before, now)
    && forall b: string :: Verified(c, before, b) ==> Verified(c, now, b)
  }

  lemma KeptTwice(c: Import, start: Files, before: Files, now: Files)
    requires Kept(c, start, before) && Kept(c, before, now)
    ensures Kept(c, start, now)
  {
    SameTwice(start, before, now);
  }

  /** All archives but those left were intact in the handoff and are verified in the shared store. */
  ghost predicate CopiedBut(c: Import, start: Files, now: Files, left: set<string>) {
    forall b | b in c.archives && b !in left :: Verified(c, now, b) && Intact(c, start, b)
  }

  lemma SameTwice(start: Files, before: Files, now: Files)
    requires SamePublished(start, before) && SamePublished(before, now)
    requires SameHandoff(start, before) && SameHandoff(before, now)
    ensures SamePublished(start, now) && SameHandoff(start, now)
  {
    forall a: string ensures Same(start, now, HandoffImage(a)) {
      assert Same(start, before, HandoffImage(a)) && Same(before, now, HandoffImage(a));
    }
    forall kind: Published ensures Same(start, now, PreloadFile(kind)) {
      assert Same(start, before, PreloadFile(kind)) && Same(before, now, PreloadFile(kind));
    }
  }

  lemma CopiedNoLess(c: Import, start: Files, before: Files, now: Files, left: set<string>)
    requires CopiedBut(c, start, before, left)
    requires forall b: string :: Verified(c, before, b) ==> Verified(c, now, b)
    ensures CopiedBut(c, start, now, left)
  {
  }

  lemma CopiedOneMore(c: Import, start: Files, before: Files, now: Files, left: set<string>, a: string)
    requires CopiedBut(c, start, before, left) && Verified(c, now, a) && Intact(c, start, a)
    requires forall b: string :: Verified(c, before, b) ==> Verified(c, now, b)
    ensures CopiedBut(c, start, now, left - {a})
  {
  }

  lemma SourceStays(c: Import, start: Files, before: Files, a: string)
    requires SameHandoff(start, before)
    ensures Intact(c, start, a) <==> Intact(c, before, a)
  {
    assert Same(start, before, HandoffImage(a));
  }

  /** Some archive of the handoff is missing or not what the index says. */
  ghost predicate Damaged(c: Import, files: Files) {
    exists a :: a in c.archives && !Intact(c, files, a)
  }

  /** What keeps a state safe: nothing published changes, nothing verified is lost, other archives stay. */
  lemma StaysSafe(c: Import, before: Files, now: Files)
    requires Safe(c, before) && SamePublished(before, now)
    requires forall a: string :: Verified(c, before, a) ==> Verified(c, now, a)
    requires forall a: string :: Same(before, now, SharedImage(a)) || Verified(c, now, a)
    requires forall a: string :: Same(before, now, HandoffImage(a))
    ensures Safe(c, now)
  {
    assert Same(before, now, PreloadFile(IndexFile)) && Same(before, now, PreloadFile(CacheId));
    assert Same(before, now, PreloadFile(Override));
    forall a: string
      ensures Same(c.start, now, SharedImage(a)) || Verified(c, now, a)
      ensures Same(c.start, now, HandoffImage(a))
           || (Verified(c, now, a) && Has(now, IndexFile, c.index) && Has(now, CacheId, c.cacheId))
    {
      assert Same(before, now, HandoffImage(a));
    }
  }

  /** Renaming a verified partial file over the shared archive. */
  lemma StoringIsSafe(c: Import, before: Files, now: Files, a: string, stamp: nat)
    requires Safe(c, before) && a in c.archives && Holds(c.env, before, SharedPartial(a, stamp), c.archives[a])
    requires now == (before - {SharedPartial(a, stamp)})[SharedImage(a) := before[SharedPartial(a, stamp)]]
    ensures Safe(c, now) && Verified(c, now, a)
    ensures SamePublished(before, now) && SameHandoff(before, now)
    ensures forall b: string :: Verified(c, before, b) ==> Verified(c, now, b)
  {
    assert Verified(c, now, a);
    forall b: string
      ensures Verified(c, before, b) ==> Verified(c, now, b)
      ensures Same(before, now, SharedImage(b)) || Verified(c, now, b)
      ensures Same(before, now, HandoffImage(b))
    {
      if b != a {
        assert Same(before, now, SharedImage(b));
      }
    }
    StaysSafe(c, before, now);
  }

  /** The override may be published any time, the index after it, the cache ID after the index. */
  ghost predicate MayPublish(c: Import, now: Files, kind: Published) {
    match kind
    case Override => true
    case IndexFile => Has(now, Override, c.override)
    case CacheId => Has(now, IndexFile, c.index)
  }

  lemma PublishingIsSafe(c: Import, before: Files, now: Files, kind: Published, stamp: nat)
    requires Safe(c, before) && AllVerified(c, before) && MayPublish(c, before, kind)
    requires PreloadTemp(kind, stamp) in before && before[PreloadTemp(kind, stamp)] == TextFor(c, kind)
    requires now == (before - {PreloadTemp(kind, stamp)})[PreloadFile(kind) := before[PreloadTemp(kind, stamp)]]
    ensures Safe(c, now) && AllVerified(c, now)
  {
    forall other: Published | other != kind ensures Same(before, now, PreloadFile(other)) {
    }
    assert Has(now, kind, TextFor(c, kind));
    forall a: string
      ensures Verified(c, before, a) ==> Verified(c, now, a)
      ensures Same(c.start, now, SharedImage(a)) || Verified(c, now, a)
      ensures Same(c.start, now, HandoffImage(a))
           || (Verified(c, now, a) && Has(now, IndexFile, c.index) && Has(now, CacheId, c.cacheId))
    {
      assert Same(before, now, SharedImage(a)) && Same(before, now, HandoffImage(a));
    }
  }

  lemma DeletingIsSafe(c: Import, before: Files, now: Files, a: string)
    requires Safe(c, before) && AllVerified(c, before) && a in c.archives && Off(HandoffImage(a), before, now)
    requires Has(before, IndexFile, c.index) && Has(before, CacheId, c.cacheId)
    ensures Safe(c, now) && AllVerified(c, now) && SamePublished(before, now)
  {
    assert Verified(c, before, a);
    assert Same(before, now, PreloadFile(IndexFile)) && Same(before, now, PreloadFile(CacheId));
    assert Same(before, now, PreloadFile(Override));
    forall b: string
      ensures Verified(c, before, b) ==> Verified(c, now, b)
      ensures Same(c.start, now, SharedImage(b)) || Verified(c, now, b)
      ensures Same(c.start, now, HandoffImage(b))
           || (Verified(c, now, b) && Has(now, IndexFile, c.index) && Has(now, CacheId, c.cacheId))
    {
      assert Same(before, now, SharedImage(b));
      if b != a {
        assert Same(before, now, HandoffImage(b));
      }
    }
  }

  /** `^[a-f0-9]{24}\.tar(?:\.zst)?$` */
  predicate IsLocalArchive(name: string) {
    IsArchiveName(name) || (|name| == 32 && IsArchiveName(name[..28]) && name[28..] == ".zst")
  }

  /** 24 digits, `.tar`, and perhaps `.zst`. */
  lemma LocalArchiveMeans(name: string)
    ensures IsLocalArchive(name)
      <==> exists digits :: AreDigits(digits, 24) && (name == digits + ".tar" || name == digits + ".tar" + ".zst")
  {
    if IsLocalArchive(name) {
      HexAreDigits(name[..24]);
      assert name[..28] == name[..24] + name[24..28];
      assert |name| == 32 ==> name == name[..28] + name[28..];
      assert name[..28][..24] == name[..24] && name[..28][24..] == name[24..28];
      assert |name| == 28 ==> name == name[..28];
    }
    if digits :| AreDigits(digits, 24) && (name == digits + ".tar" || name == digits + ".tar" + ".zst") {
      HexAreDigits(digits);
      assert name[..28] == digits + ".tar" && name[..28][..24] == digits && name[..28][24..] == ".tar";
    }
  }

  // ---------------------------------------------------------------- what an import promises

  ghost function NewIndex(env: Env, start: Files): Index
    requires HandoffAdmissible(env, start)
  {
    env.parseIndex(start[HandoffFile(IndexFile)]).value
  }

  ghost predicate AllSound(env: Env, states: seq<Files>) {
    forall i | 0 <= i < |states| :: Sound(env, states[i])
  }

  /** A handoff archive is untouched, or the shared store holds a copy that the new index verifies. */
  ghost predicate HandoffKept(env: Env, start: Files, now: Files, index: Index) {
    forall a: string ::
      || Same(start, now, HandoffImage(a))
      || (exists s :: s in index && index[s].archive == a
                      && Holds(env, now, SharedImage(a), ArchiveEntry(index[s].sha256, index[s].image)))
  }

  ghost predicate AllHandoffsKept(env: Env, start: Files, states: seq<Files>, index: Index) {
    forall i | 0 <= i < |states| :: HandoffKept(env, start, states[i], index)
  }

  /** A handoff that passed the checks. */
  datatype Handoff = Handoff(data: string, override: string, cacheId: string, archives: Archives)

  ghost predicate ReadFrom(env: Env, files: Files, h: Handoff)
    requires HandoffAdmissible(env, files)
  {
    && h.data == files[HandoffFile(IndexFile)]
    && h.override == env.reformat(files[HandoffFile(Override)]).value
    && h.cacheId == env.trim(files[HandoffFile(CacheId)])
    && Lists(NewIndex(env, files), h.archives)
  }

  ghost predicate Publishes(now: Files, h: Handoff) {
    && PreloadFile(IndexFile) in now && now[PreloadFile(IndexFile)] == h.data
    && PreloadFile(Override) in now && now[PreloadFile(Override)] == h.override
    && PreloadFile(CacheId) in now && now[PreloadFile(CacheId)] == h.cacheId + "\n"
    && forall name | IsLocalArchive(name) :: PreloadImage(name) !in now
  }

  /** The published state of a completed import. */
  ghost predicate Completed(env: Env, start: Files, now: Files)
    requires HandoffAdmissible(env, start)
  {
    && PreloadFile(IndexFile) in now && now[PreloadFile(IndexFile)] == start[HandoffFile(IndexFile)]
    && PreloadFile(Override) in now && Some(now[PreloadFile(Override)]) == env.reformat(start[HandoffFile(Override)])
    && PreloadFile(CacheId) in now && now[PreloadFile(CacheId)] == env.trim(start[HandoffFile(CacheId)]) + "\n"
    && (forall name | IsLocalArchive(name) :: PreloadImage(name) !in now)
    && Stored(env, now, NewIndex(env, start)) && Tagged(env, now, NewIndex(env, start))
  }

  /** Every archive of the index is a valid archive of the image with that tag. */
  ghost predicate Tagged(env: Env, files: Files, index: Index) {
    forall s | s in index ::
      SharedImage(index[s].archive) in files && env.valid(files[SharedImage(index[s].archive)], index[s].image)
  }

  /** The installed index is the one from the start, or the handoff's. */
  ghost predicate InstalledFrom(start: Files, now: Files, data: string) {
    || Same(start, now, PreloadFile(IndexFile))
    || (PreloadFile(IndexFile) in now && now[PreloadFile(IndexFile)] == data)
  }

  /**
   * The order of publication: a new index after its override, a new cache ID after its index, and
   * no handoff archive gone before both are installed.
   */
  ghost predicate InOrder(env: Env, start: Files, now: Files)
    requires HandoffAdmissible(env, start)
  {
    var index, cacheId := start[HandoffFile(IndexFile)], env.trim(start[HandoffFile(CacheId)]) + "\n";
    && (Same(start, now, PreloadFile(IndexFile))
        || (Has(now, IndexFile, index) && Has(now, Override, env.reformat(start[HandoffFile(Override)]).value)))
    && (Same(start, now, PreloadFile(CacheId)) || (Has(now, CacheId, cacheId) && Has(now, IndexFile, index)))
    && forall a: string ::
         Same(start, now, HandoffImage(a)) || (Has(now, CacheId, cacheId) && Has(now, IndexFile, index))
  }

  ghost predicate AllInOrder(env: Env, start: Files, states: seq<Files>)
    requires HandoffAdmissible(env, start)
  {
    forall i | 0 <= i < |states| :: InOrder(env, start, states[i])
  }

  ghost predicate ImportResult(env: Env, start: Files, states: seq<Files>, now: Files, imported: bool)
    requires HandoffAdmissible(env, start)
  {
    && ImportKeepsFaith(env, start, states, NewIndex(env, start), imported)
    && AllInOrder(env, start, states)
    && InstalledFrom(start, now, start[HandoffFile(IndexFile)])
    && (imported ==> Completed(env, start, now))
  }

  /** A state is unsound exactly when a disagreeing archive has been replaced under the old index. */
  ghost predicate EachUnlessOverwritten(env: Env, start: Files, states: seq<Files>, index: Index) {
    forall i | 0 <= i < |states| :: Sound(env, states[i]) <==> !Overwrites(env, start, states[i], index)
  }

  /** What one import promises about the states from its start on. */
  ghost predicate ImportKeepsFaith(env: Env, start: Files, states: seq<Files>, index: Index, imported: bool) {
    && AllHandoffsKept(env, start, states, index)
    && (Sound(env, start) && AgreesWithInstalled(env, start, index) ==> AllSound(env, states))
    && (Sound(env, start) ==> EachUnlessOverwritten(env, start, states, index))
    && (imported && Sound(env, start) ==> (AllSound(env, states) <==> AgreesWithInstalled(env, start, index)))
  }

  lemma SafeKeepsHandoff(c: Import, now: Files, index: Index)
    requires Safe(c, now) && Reads(c, index)
    ensures HandoffKept(c.env, c.start, now, index)
  {
    forall a: string | !Same(c.start, now, HandoffImage(a))
      ensures exists s :: (s in index && index[s].archive == a
                           && Holds(c.env, now, SharedImage(a), ArchiveEntry(index[s].sha256, index[s].image)))
    {
      assert Verified(c, now, a);
      var s :| s in index && index[s].archive == a;
      assert c.archives[a] == ArchiveEntry(index[s].sha256, index[s].image);
    }
  }

  lemma VerifiedIsStored(c: Import, now: Files, index: Index)
    requires AllVerified(c, now) && Reads(c, index)
    ensures Stored(c.env, now, index) && Tagged(c.env, now, index)
  {
    forall s | s in index
      ensures SharedImage(index[s].archive) in now
      ensures c.env.hash(now[SharedImage(index[s].archive)]) == index[s].sha256
      ensures c.env.valid(now[SharedImage(index[s].archive)], index[s].image)
    {
      assert Verified(c, now, index[s].archive);
    }
  }

  lemma SafeHistory(c: Import, states: seq<Files>, index: Index)
    requires Reads(c, index)
    requires forall i | 0 <= i < |states| :: Safe(c, states[i])
    ensures AllHandoffsKept(c.env, c.start, states, index)
    ensures Sound(c.env, c.start) && AgreesWithInstalled(c.env, c.start, index) ==> AllSound(c.env, states)
    ensures Sound(c.env, c.start) ==> EachUnlessOverwritten(c.env, c.start, states, index)
  {
    forall i | 0 <= i < |states|
      ensures Sound(c.env, c.start) ==> (Sound(c.env, states[i]) <==> !Overwrites(c.env, c.start, states[i], index))
      ensures HandoffKept(c.env, c.start, states[i], index)
      ensures Sound(c.env, c.start) && AgreesWithInstalled(c.env, c.start, index) ==> Sound(c.env, states[i])
    {
      SafeKeepsHandoff(c, states[i], index);
      if Sound(c.env, c.start) {
        SoundUnlessOverwritten(c, states[i], index);
      }
    }
  }

  /** The history only grew, and every new state is safe for this import. */
  ghost predicate Grew(c: Import, past: seq<Files>, now: seq<Files>) {
    && |past| <= |now| && now[..|past|] == past
    && forall i | |past| <= i < |now| :: Safe(c, now[i])
  }

  lemma GrewTwice(c: Import, a: seq<Files>, b: seq<Files>, d: seq<Files>)
    requires Grew(c, a, b) && Grew(c, b, d)
    ensures Grew(c, a, d)
  {
    assert d[..|a|] == d[..|b|][..|a|];
    forall i | |a| <= i < |d| ensures Safe(c, d[i]) {
      if i < |b| {
        assert d[i] == b[i];
      }
    }
  }

  ghost predicate Carries(c: Import, h: Handoff) {
    c.index == h.data && c.override == h.override && c.cacheId == h.cacheId + "\n" && c.archives == h.archives
  }

  /** Every archive that the new index names is in the handoff as the index says. */
  ghost predicate HandoffIntact(env: Env, start: Files)
    requires HandoffAdmissible(env, start)
  {
    var index := NewIndex(env, start);
    forall s | s in index ::
      Holds(env, start, HandoffImage(index[s].archive), ArchiveEntry(index[s].sha256, index[s].image))
  }

  lemma DamagedMeans(c: Import, h: Handoff)
    requires HandoffAdmissible(c.env, c.start) && ReadFrom(c.env, c.start, h) && Carries(c, h)
    ensures Damaged(c, c.start) <==> !HandoffIntact(c.env, c.start)
  {
    var index := NewIndex(c.env, c.start);
    if Damaged(c, c.start) {
      var a :| a in c.archives && !Intact(c, c.start, a);
      var s :| s in index && index[s].archive == a;
      assert c.archives[a] == ArchiveEntry(index[s].sha256, index[s].image);
    }
    if !HandoffIntact(c.env, c.start) {
      var s :| s in index
        && !Holds(c.env, c.start, HandoffImage(index[s].archive), ArchiveEntry(index[s].sha256, index[s].image));
      assert !Intact(c, c.start, index[s].archive);
    }
  }

  lemma ImportPromises(c: Import, h: Handoff, past: seq<Files>, now: seq<Files>, imported: bool, copied: nat)
    requires HandoffAdmissible(c.env, c.start) && ReadFrom(c.env, c.start, h)
    requires Carries(c, h)
    requires Grew(c, past, now) && past != [] && past[|past| - 1] == c.start
    requires InstalledFrom(c.start, now[|now| - 1], h.data)
    requires imported ==> AllVerified(c, now[|now| - 1]) && Publishes(now[|now| - 1], h)
    requires imported ==>
      && |past| - 1 <= copied < |now| && AllVerified(c, now[copied])
      && Same(c.start, now[copied], PreloadFile(IndexFile))
    ensures ImportResult(c.env, c.start, now[|past| - 1..], now[|now| - 1], imported)
  {
    var states, index := now[|past| - 1..], NewIndex(c.env, c.start);
    assert states[0] == past[|past| - 1];
    assert Safe(c, c.start);
    forall i | 0 <= i < |states| ensures Safe(c, states[i]) {
      assert states[i] == now[i + |past| - 1];
    }
    forall i | 0 <= i < |states| ensures InOrder(c.env, c.start, states[i]) {
      assert Safe(c, states[i]);
    }
    SafeHistory(c, states, index);
    if imported {
      VerifiedIsStored(c, now[|now| - 1], index);
      if !AgreesWithInstalled(c.env, c.start, index) {
        DisagreementIsUnsound(c, now[copied], index);
        assert states[copied - (|past| - 1)] == now[copied];
      }
    }
  }

  // ---------------------------------------------------------------- a disk on which the promise fails

  /** One service, one archive name, and the checksum that `data` has. */
  function Release(name: string, sha256: string): Index {
    map["web" := CacheEntry(TAG_PREFIX + name, name + ".tar", sha256)]
  }

  /** An installed release "i" whose archive was exported again with other bytes, and its intact handoff "h". */
  function ReexportedDisk(name: string, cacheId: string): Files {
    map[HandoffFile(IndexFile) := "h", HandoffFile(Override) := "", HandoffFile(CacheId) := cacheId,
        HandoffImage(name + ".tar") := "n",
        PreloadFile(IndexFile) := "i", SharedImage(name + ".tar") := "o"]
  }

  /** The bytes "o" have one checksum, "n" the other. */
  function ReexportEnv(name: string, before: string, after: string): Env {
    Env(data => if data == "o" then before else after,
        text => Some(Release(name, if text == "i" then before else after)),
        text => Some(text), (data, tag) => true, text => text)
  }

  lemma ReleaseIsAdmissible(name: string, sha256: string)
    requires |name| == 24 && IsHex(name) && IsDigest(sha256)
    ensures Admissible(Release(name, sha256))
  {
    var index := Release(name, sha256);
    var e := index["web"];
    assert e.archive[..24] == name && e.archive[24..] == ".tar";
    assert EntryOk("web", e);
    assert "web" in index;
  }

  lemma ReleasesDisagree(name: string, before: string, after: string)
    requires before != after
    ensures !Agree(Release(name, before), Release(name, after))
  {
    assert "web" in Release(name, before) && "web" in Release(name, after);
    assert Release(name, before)["web"].archive == Release(name, after)["web"].archive;
  }

  lemma ReexportIsSound(name: string, before: string, after: string, cacheId: string)
    ensures Sound(ReexportEnv(name, before, after), ReexportedDisk(name, cacheId))
  {
  }

  lemma ReexportPasses(name: string, before: string, after: string)
    requires |name| == 24 && IsHex(name) && IsDigest(before) && IsDigest(after)
    ensures HandoffAdmissible(ReexportEnv(name, before, after), ReexportedDisk(name, before))
    ensures NewIndex(ReexportEnv(name, before, after), ReexportedDisk(name, before)) == Release(name, after)
  {
    ReleaseIsAdmissible(name, after);
    assert "web" in Release(name, after);
  }

  lemma ReexportBreaks(name: string, before: string, after: string)
    requires before != after
    ensures !AgreesWithInstalled(ReexportEnv(name, before, after), ReexportedDisk(name, before), Release(name, after))
  {
    ReleasesDisagree(name, before, after);
  }

  lemma ReexportIsIntact(name: string, before: string, after: string)
    requires HandoffAdmissible(ReexportEnv(name, before, after), ReexportedDisk(name, before))
    requires NewIndex(ReexportEnv(name, before, after), ReexportedDisk(name, before)) == Release(name, after)
    ensures HandoffIntact(ReexportEnv(name, before, after), ReexportedDisk(name, before))
  {
  }

  /**
   * The promise does fail: on this disk the installed index is sound and the handoff admissible and
   * intact, so an import without faults completes, but the two indexes disagree.
   */
  lemma ReexportDisagrees() returns (env: Env, start: Files)
    ensures HandoffAdmissible(env, start) && HandoffIntact(env, start) && Sound(env, start)
    ensures !AgreesWithInstalled(env, start, NewIndex(env, start))
  {
    var name, before, after := Repeat('0', 24), Repeat('1', 64), Repeat('2', 64);
    RepeatIsHex('0', 24);
    RepeatIsHex('1', 64);
    RepeatIsHex('2', 64);
    env, start := ReexportEnv(name, before, after), ReexportedDisk(name, before);
    ReexportPasses(name, before, after);
    ReexportIsIntact(name, before, after);
    ReexportBreaks(name, before, after);
    ReexportIsSound(name, before, after, before);
  }

  // ---------------------------------------------------------------- runs of imports

  /** The files with the handoff directory replaced. */
  function Placed(files: Files, handoff: Files): Files {
    map p | p in files.Keys + handoff.Keys && (if IsHandoffPath(p) then p in handoff else p in files)
      :: if IsHandoffPath(p) then handoff[p] else files[p]
  }

  predicate IsHandoffPath(p: Path) {
    p.HandoffFile? || p.HandoffImage?
  }

  /** Exactly the handoff directory is that of the new handoff. */
  lemma PlacedMeans(files: Files, handoff: Files, p: Path)
    ensures p.HandoffFile? || p.HandoffImage? ==> Same(handoff, Placed(files, handoff), p)
    ensures !p.HandoffFile? && !p.HandoffImage? ==> Same(files, Placed(files, handoff), p)
  {
  }

  /** Wherever two of these index texts name the same archive, they give it the same checksum. */
  ghost predicate OneChecksumEach(env: Env, texts: set<string>) {
    forall a, b | a in texts && b in texts && env.parseIndex(a).Some? && env.parseIndex(b).Some? ::
      Agree(env.parseIndex(a).value, env.parseIndex(b).value)
  }

  ghost predicate InstalledIn(files: Files, texts: set<string>) {
    PreloadFile(IndexFile) in files ==> files[PreloadFile(IndexFile)] in texts
  }

  lemma PlacedKeepsSound(env: Env, files: Files, handoff: Files, texts: set<string>)
    requires Sound(env, files) && InstalledIn(files, texts)
    ensures Sound(env, Placed(files, handoff)) && InstalledIn(Placed(files, handoff), texts)
  {
    assert forall p: Path | !IsHandoffPath(p) :: Same(files, Placed(files, handoff), p);
    assert Same(files, Placed(files, handoff), PreloadFile(IndexFile));
    assert forall a: string :: Same(files, Placed(files, handoff), SharedImage(a));
  }

  lemma SoundStep(env: Env, start: Files, states: seq<Files>, now: Files, imported: bool, texts: set<string>)
    requires HandoffAdmissible(env, start) && ImportResult(env, start, states, now, imported)
    requires Sound(env, start) && InstalledIn(start, texts) && OneChecksumEach(env, texts)
    requires start[HandoffFile(IndexFile)] in texts
    ensures AllSound(env, states) && InstalledIn(now, texts)
  {
  }

  lemma SoundJoin(env: Env, past: seq<Files>, states: seq<Files>, all: seq<Files>)
    requires AllSound(env, past) && AllSound(env, states)
    requires |past| <= |all| && all[..|past|] == past && all[|past|..] == states
    ensures AllSound(env, all)
  {
    forall i | 0 <= i < |all| ensures Sound(env, all[i]) {
      assert all[i] == if i < |past| then past[i] else states[i - |past|];
    }
  }

  // ---------------------------------------------------------------- the disk

  class Disk {
    var files: Files
    ghost var history: seq<Files>
    /** How many file operations have failed, for whatever reason of their own. */
    ghost var faults: nat

    ghost predicate Valid()
      reads this
    {
      |history| > 0 && history[|history| - 1] == files
    }

    constructor (files: Files)
      ensures Valid() && this.files == files && history == [files]
    {
      this.files := files;
      history, faults := [files], 0;
    }

    /** The history has only grown. */
    twostate predicate Extends()
      reads this
    {
      |old(history)| <= |history| && history[..|old(history)|] == old(history)
    }

    twostate predicate OnlyTouches(p: Path)
      reads this
    {
      forall i :: |old(history)| <= i < |history| ==> Off(p, old(files), history[i])
    }

    method Put(p: Path, data: string)
      requires Valid()
      modifies this
      ensures Valid() && files == old(files)[p := data] && history == old(history) + [files] && faults == old(faults)
    {
      files := files[p := data];
      history := history + [files];
    }

    method Remove(p: Path) returns (ok: bool)
      requires Valid()
      modifies this
      ensures Valid()
      ensures ok ==> files == old(files) - {p} && history == old(history) + [files]
      ensures !ok ==> files == old(files) && history == old(history)
      ensures faults == if ok then old(faults) else old(faults) + 1
    {
      if * {
        faults := faults + 1;
        return false;
      }
      files := files - {p};
      history := history + [files];
      return true;
    }

    method Rename(p: Path, q: Path) returns (ok: bool)
      requires Valid() && p in files && p != q
      modifies this
      ensures Valid()
      ensures ok ==> files == (old(files) - {p})[q := old(files)[p]] && history == old(history) + [files]
      ensures !ok ==> files == old(files) && history == old(history)
      ensures faults == if ok then old(faults) else old(faults) + 1
    {
      if * {
        faults := faults + 1;
        return false;
      }
      files := (files - {p})[q := files[p]];
      history := history + [files];
      return true;
    }

    /** Exclusive creation, then any number of partial writes; a failure removes the file if it can. */
    method WriteNew(p: Path, data: string) returns (ok: bool)
      requires Valid()
      modifies this
      ensures Valid() && Extends() && OnlyTouches(p) && Off(p, old(files), files)
      ensures ok ==> files == old(files)[p := data] && |history| > |old(history)|
      ensures faults >= old(faults) && (!ok ==> faults > old(faults))
    {
      var fails := *;
      if p in files || fails {
        faults := faults + 1;
        return false;
      }
      var written: nat := 0;
      Put(p, "");
      while written < |data|
        invariant written <= |data| && Valid() && Extends() && OnlyTouches(p) && |history| > |old(history)|
        invariant files == old(files)[p := data[..written]] && faults == old(faults)
      {
        fails := *;
        if fails {
          var _ := Remove(p);
          faults := faults + 1;
          return false;
        }
        var next: nat :| written < next <= |data|;
        Put(p, data[..next]);
        assert files == old(files)[p := data[..next]];
        written := next;
      }
      fails := *;
      if fails {
        var _ := Remove(p);
        faults := faults + 1;
        return false;
      }
      assert data[..written] == data;
      return true;
    }

    /** A verification error may also be a read error. */
    method VerifyArchive(env: Env, p: Path, entry: ArchiveEntry) returns (ok: bool)
      modifies this`faults
      ensures ok ==> Holds(env, files, p, entry)
      ensures faults >= old(faults) && (!ok && faults == old(faults) ==> !Holds(env, files, p, entry))
    {
      if * {
        faults := faults + 1;
        return false;
      }
      return Holds(env, files, p, entry);
    }

    // -------------------------------------------------------------- the importer

    /** Nothing published and nothing in the handoff changed, and nothing verified was lost. */
    twostate predicate Progresses(c: Import)
      reads this
    {
      && Valid() && Safe(c, files) && Grew(c, old(history), history)
      && Kept(c, old(files), files) && faults >= old(faults)
    }

    method CopyArchive(ghost c: Import, env: Env, a: string, entry: ArchiveEntry) returns (ok: bool)
      requires Valid() && Safe(c, files) && env == c.env && a in c.archives && entry == c.archives[a]
      modifies this
      ensures Progresses(c)
      ensures ok ==> Verified(c, files, a) && Intact(c, old(files), a)
      ensures !ok && faults == old(faults) ==> !Intact(c, old(files), a)
    {
      var intact := VerifyArchive(env, HandoffImage(a), entry);
      if !intact {
        return false;
      }
      var present := VerifyArchive(env, SharedImage(a), entry);
      if present {
        return true;
      }
      ok := CopyToShared(c, env, a, entry);
    }

    /** `copyFileExclusive` into a partial file beside the target. */
    method CopyToShared(ghost c: Import, env: Env, a: string, entry: ArchiveEntry) returns (ok: bool)
      requires Valid() && Safe(c, files) && env == c.env && a in c.archives && entry == c.archives[a]
      requires Holds(env, files, HandoffImage(a), entry)
      modifies this
      ensures Progresses(c)
      ensures if ok then Verified(c, files, a) else faults > old(faults)
    {
      var stamp: nat := *;
      ok := WriteNew(SharedPartial(a, stamp), files[HandoffImage(a)]);
      ScratchHistory(c, SharedPartial(a, stamp), old(files), old(history));
      if ok {
        ghost var before, past := files, history;
        ok := InstallCopy(c, env, a, entry, stamp);
        GrewTwice(c, old(history), past, history);
        KeptTwice(c, old(files), before, files);
      }
    }

    /** Verification of the copy, then the rename; a copy that fails is removed. */
    method InstallCopy(ghost c: Import, env: Env, a: string, entry: ArchiveEntry, stamp: nat) returns (ok: bool)
      requires Valid() && Safe(c, files) && env == c.env && a in c.archives && entry == c.archives[a]
      requires Holds(env, files, SharedPartial(a, stamp), entry)
      modifies this
      ensures Progresses(c)
      ensures if ok then Verified(c, files, a) else faults > old(faults)
    {
      var temp := SharedPartial(a, stamp);
      ghost var before := files;
      var intact := VerifyArchive(env, temp, entry);
      if intact {
        ok := Rename(temp, SharedImage(a));
        if ok {
          StoringIsSafe(c, before, files, a, stamp);
          return true;
        }
      }
      var removed := Remove(temp);
      if removed {
        ScratchIsSafe(c, before, files, temp);
      }
      return false;
    }

    lemma ScratchHistory(c: Import, p: Path, before: Files, past: seq<Files>)
      requires Safe(c, before) && !p.SharedImage? && !p.HandoffImage? && !p.PreloadFile?
      requires Off(p, before, files)
      requires |past| <= |history| && history[..|past|] == past
      requires forall i :: |past| <= i < |history| ==> Off(p, before, history[i])
      ensures Safe(c, files) && Grew(c, past, history)
      ensures AllVerified(c, before) ==> AllVerified(c, files)
      ensures SamePublished(before, files) && SameHandoff(before, files)
      ensures forall b: string :: Verified(c, before, b) ==> Verified(c, files, b)
    {
      ScratchIsSafe(c, before, files, p);
      forall i | |past| <= i < |history| ensures Safe(c, history[i]) {
        ScratchIsSafe(c, before, history[i], p);
      }
    }

    /** Where the copy loop is, with the archives in `left` still to be copied. */
    ghost predicate Copying(c: Import, past: seq<Files>, left: set<string>)
      reads this
    {
      && Valid() && Safe(c, files) && Grew(c, past, history)
      && SamePublished(c.start, files) && SameHandoff(c.start, files)
      && CopiedBut(c, c.start, files, left)
    }

    /** One turn of the copy loop. */
    method CopyNext(ghost c: Import, env: Env, archives: Archives, ghost past: seq<Files>, ghost left: set<string>,
                    a: string)
      returns (ok: bool)
      requires Copying(c, past, left) && env == c.env && archives == c.archives && a in archives
      modifies this
      ensures ok ==> Copying(c, past, left - {a})
      ensures !ok ==> Copying(c, past, left)
      ensures faults >= old(faults) && (ok ==> Intact(c, c.start, a))
      ensures !ok && faults == old(faults) ==> !Intact(c, c.start, a)
    {
      ghost var before, last := files, history;
      ok := CopyArchive(c, env, a, archives[a]);
      GrewTwice(c, past, last, history);
      SourceStays(c, c.start, before, a);
      SameTwice(c.start, before, files);
      CopiedNoLess(c, c.start, before, files, left);
      if ok {
        CopiedOneMore(c, c.start, before, files, left, a);
      }
    }

    /** The copy loop, in any order of archives. */
    method CopyArchives(ghost c: Import, env: Env, archives: Archives) returns (ok: bool)
      requires Valid() && Safe(c, files) && files == c.start && env == c.env && archives == c.archives
      modifies this
      ensures Valid() && Safe(c, files) && Grew(c, old(history), history)
      ensures SamePublished(c.start, files) && faults >= old(faults)
      ensures ok ==> AllVerified(c, files) && !Damaged(c, c.start)
      ensures !ok && faults == old(faults) ==> Damaged(c, c.start)
    {
      var left := archives.Keys;
      while left != {}
        invariant Copying(c, old(history), left) && left <= archives.Keys && faults >= old(faults)
        decreases |left|
      {
        var a :| a in left;
        ok := CopyNext(c, env, archives, old(history), left, a);
        if !ok {
          return false;
        }
        left := left - {a};
      }
      return true;
    }

    /** Write a temporary file beside the target, then rename it over the target. */
    method WriteAtomic(ghost c: Import, kind: Published, data: string) returns (ok: bool)
      requires Valid() && Safe(c, files) && AllVerified(c, files)
      requires data == TextFor(c, kind) && MayPublish(c, files, kind)
      modifies this
      ensures Valid() && Safe(c, files) && Grew(c, old(history), history) && AllVerified(c, files)
      ensures ok ==> Has(files, kind, data)
      ensures faults >= old(faults) && (!ok ==> faults > old(faults))
      ensures forall other: Published | other != kind :: Same(old(files), files, PreloadFile(other))
    {
      var stamp: nat := *;
      ok := WriteNew(PreloadTemp(kind, stamp), data);
      ScratchHistory(c, PreloadTemp(kind, stamp), old(files), old(history));
      if ok {
        ghost var past := history;
        ok := InstallText(c, kind, stamp);
        GrewTwice(c, old(history), past, history);
      }
    }

    method InstallText(ghost c: Import, kind: Published, stamp: nat) returns (ok: bool)
      requires Valid() && Safe(c, files) && AllVerified(c, files) && MayPublish(c, files, kind)
      requires PreloadTemp(kind, stamp) in files && files[PreloadTemp(kind, stamp)] == TextFor(c, kind)
      modifies this
      ensures Valid() && Safe(c, files) && Grew(c, old(history), history) && AllVerified(c, files)
      ensures ok ==> Has(files, kind, TextFor(c, kind))
      ensures faults >= old(faults) && (!ok ==> faults > old(faults))
      ensures forall other: Published | other != kind :: Same(old(files), files, PreloadFile(other))
    {
      var temp := PreloadTemp(kind, stamp);
      ok := Rename(temp, PreloadFile(kind));
      if ok {
        PublishingIsSafe(c, old(files), files, kind, stamp);
        return true;
      }
      var removed := Remove(temp);
      if removed {
        ScratchIsSafe(c, old(files), files, temp);
      }
      return false;
    }

    /** Remove the archives that earlier releases kept beside the index. */
    method PruneLocalArchives(ghost c: Import) returns (ok: bool)
      requires Valid() && Safe(c, files) && AllVerified(c, files)
      modifies this
      ensures Valid() && Safe(c, files) && Grew(c, old(history), history) && AllVerified(c, files)
      ensures SamePublished(old(files), files)
      ensures ok ==> forall name | IsLocalArchive(name) :: PreloadImage(name) !in files
      ensures forall name | !IsLocalArchive(name) :: Same(old(files), files, PreloadImage(name))
      ensures faults >= old(faults) && (!ok ==> faults > old(faults))
    {
      var left := set p | p in files && p.PreloadImage? :: p.name;
      while left != {}
        invariant Valid() && Safe(c, files) && Grew(c, old(history), history) && AllVerified(c, files)
        invariant SamePublished(old(files), files)
        invariant forall name: string :: PreloadImage(name) in files && IsLocalArchive(name) ==> name in left
        invariant forall name | !IsLocalArchive(name) :: Same(old(files), files, PreloadImage(name))
        invariant faults == old(faults)
        decreases |left|
      {
        var name :| name in left;
        if IsLocalArchive(name) {
          ghost var before := files;
          ok := Remove(PreloadImage(name));
          if !ok {
            return false;
          }
          ScratchIsSafe(c, before, files, PreloadImage(name));
        }
        left := left - {name};
      }
      return true;
    }

    /** Where the deletion loop is, with the archives in `left` still to be deleted. */
    ghost predicate Deleting(c: Import, past: seq<Files>, start: Files)
      reads this
    {
      && Valid() && Safe(c, files) && Grew(c, past, history) && AllVerified(c, files)
      && SamePublished(start, files) && SameLocal(start, files)
      && Has(files, IndexFile, c.index) && Has(files, CacheId, c.cacheId)
    }

    ghost predicate GoneBut(archives: Archives, left: set<string>)
      reads this
    {
      forall a | a in archives && a !in left :: HandoffImage(a) !in files
    }

    /** Errors are ignored: a handoff archive that cannot be removed stays. */
    method DeleteHandoffArchives(ghost c: Import, archives: Archives)
      requires Valid() && Safe(c, files) && AllVerified(c, files) && archives == c.archives
      requires Has(files, IndexFile, c.index) && Has(files, CacheId, c.cacheId)
      modifies this
      ensures Valid() && Safe(c, files) && Grew(c, old(history), history) && AllVerified(c, files)
      ensures SamePublished(old(files), files)
      ensures SameLocal(old(files), files) && faults >= old(faults)
      ensures faults == old(faults) ==> GoneBut(archives, {})
    {
      var left := archives.Keys;
      while left != {}
        invariant Deleting(c, old(history), old(files)) && left <= archives.Keys && faults >= old(faults)
        invariant faults == old(faults) ==> GoneBut(archives, left)
        decreases |left|
      {
        var a :| a in left;
        DeleteHandoffArchive(c, archives, old(history), old(files), left, a);
        left := left - {a};
      }
    }

    method DeleteHandoffArchive(ghost c: Import, ghost archives: Archives, ghost past: seq<Files>, ghost start: Files,
                                ghost left: set<string>, a: string)
      requires Deleting(c, past, start) && a in c.archives
      modifies this
      ensures Deleting(c, past, start) && faults >= old(faults)
      ensures faults == old(faults) && old(GoneBut(archives, left)) ==> GoneBut(archives, left - {a})
    {
      ghost var before, last := files, history;
      var _ := Remove(HandoffImage(a));
      DeletingIsSafe(c, before, files, a);
      GrewTwice(c, past, last, history);
      StillSame(start, before, files, a);
    }

    lemma StillSame(start: Files, before: Files, now: Files, a: string)
      requires SamePublished(start, before) && SameLocal(start, before) && Off(HandoffImage(a), before, now)
      ensures SamePublished(start, now) && SameLocal(start, now)
    {
      forall kind: Published ensures Same(start, now, PreloadFile(kind)) {
        assert Same(start, before, PreloadFile(kind)) && Same(before, now, PreloadFile(kind));
      }
      forall name: string ensures Same(start, now, PreloadImage(name)) {
        assert Same(start, before, PreloadImage(name)) && Same(before, now, PreloadImage(name));
      }
    }

    /**
     * One import, which may fail at any file operation. Whatever it does, and wherever it stops,
     * no state on the way loses a handoff archive without a verified shared copy, and every state
     * is sound when the installed and the new index agree. A state is unsound exactly when an archive
     * on which they disagree has been replaced under the old index; for an import that completes,
     * that some state is unsound means that they disagree.
     */
    method ImportComposeCache(env: Env) returns (r: Outcome)
      requires Valid()
      modifies this
      ensures Valid() && Extends()
      ensures r == Rejected ==> !HandoffAdmissible(env, old(files))
      ensures !HandoffAdmissible(env, old(files)) ==>
        r != Imported && files == old(files) && history == old(history)
      ensures HandoffAdmissible(env, old(files)) ==>
        ImportResult(env, old(files), history[|old(history)| - 1..], files, r == Imported)
      ensures HandoffAdmissible(env, old(files)) && faults == old(faults) ==>
        (r == Imported <==> HandoffIntact(env, old(files)))
      ensures HandoffAdmissible(env, old(files)) && r == Imported && faults == old(faults) ==>
        forall s | s in NewIndex(env, old(files)) :: HandoffImage(NewIndex(env, old(files))[s].archive) !in files
    {
      var handoff := ReadHandoff(env);
      if handoff.None? {
        return Rejected;
      }
      var h := handoff.value;
      ghost var c := Import(env, files, h.data, h.override, h.cacheId + "\n", h.archives);
      ghost var copied: nat;
      r, copied := CopyAndPublish(c, env, h);
      ImportPromises(c, h, old(history), history, r == Imported, copied);
      DamagedMeans(c, h);
    }

    /** Reading and checking the handoff, before anything is written. */
    method ReadHandoff(env: Env) returns (handoff: Option<Handoff>)
      ensures handoff.Some? <==> HandoffAdmissible(env, files)
      ensures handoff.Some? ==> ReadFrom(env, files, handoff.value)
    {
      if !HasHandoff(files) {
        return None;
      }
      var data := files[HandoffFile(IndexFile)];
      var index := env.parseIndex(data);
      var override := env.reformat(files[HandoffFile(Override)]);
      var cacheId := env.trim(files[HandoffFile(CacheId)]);
      if index.None? || override.None? || index.value == map[] || !IsDigest(cacheId) {
        return None;
      }
      var archives := CollectArchives(index.value);
      if archives.None? {
        return None;
      }
      return Some(Handoff(data, override.value, cacheId, archives.value));
    }

    /** The part of the import that changes files; `copied` numbers the state after the last copy. */
    method CopyAndPublish(ghost c: Import, env: Env, h: Handoff) returns (r: Outcome, ghost copied: nat)
      requires Valid() && c == Import(env, files, h.data, h.override, h.cacheId + "\n", h.archives)
      modifies this
      ensures Valid() && Safe(c, files) && Grew(c, old(history), history)
      ensures r != Rejected
      ensures r == Imported ==> Publishes(files, h) && AllVerified(c, files)
      ensures InstalledFrom(c.start, files, h.data)
      ensures faults >= old(faults)
      ensures r == Imported ==> !Damaged(c, c.start)
      ensures r == Imported && faults == old(faults) ==> GoneBut(c.archives, {})
      ensures r == Failed && faults == old(faults) ==> Damaged(c, c.start)
      ensures r == Imported ==>
        && |old(history)| - 1 <= copied < |history| && AllVerified(c, history[copied])
        && Same(c.start, history[copied], PreloadFile(IndexFile))
    {
      var ok := CopyArchives(c, env, h.archives);
      copied := |history| - 1;
      if !ok {
        return Failed, copied;
      }
      ghost var past := history;
      r := PublishAndDelete(c, h);
      GrewTwice(c, old(history), past, history);
      assert history[copied] == past[copied];
    }

    method PublishAndDelete(ghost c: Import, h: Handoff) returns (r: Outcome)
      requires Valid() && Safe(c, files) && AllVerified(c, files)
      requires Carries(c, h)
      modifies this
      ensures Valid() && Safe(c, files) && Grew(c, old(history), history) && AllVerified(c, files)
      ensures r != Rejected
      ensures r == Imported ==> Publishes(files, h)
      ensures faults >= old(faults) && (r == Failed ==> faults > old(faults))
      ensures r == Imported && faults == old(faults) ==> GoneBut(c.archives, {})
    {
      ghost var past := history;
      var ok := WriteAtomic(c, Override, h.override);
      if !ok {
        return Failed;
      }
      ghost var last := history;
      ok := WriteAtomic(c, IndexFile, h.data);
      GrewTwice(c, past, last, history);
      if !ok {
        return Failed;
      }
      last := history;
      ok := WriteAtomic(c, CacheId, h.cacheId + "\n");
      GrewTwice(c, past, last, history);
      if !ok {
        return Failed;
      }
      last := history;
      ok := PruneLocalArchives(c);
      GrewTwice(c, past, last, history);
      if !ok {
        return Failed;
      }
      last := history;
      DeleteHandoffArchives(c, h.archives);
      GrewTwice(c, past, last, history);
      return Imported;
    }

    /**
     * Any number of handoffs, imported one after the other, each of which may stop anywhere: the
     * installed index is sound in every state of the whole history.
     */
    method ImportEach(env: Env, handoffs: seq<Files>, ghost texts: set<string>)
      requires Valid() && AllSound(env, history) && InstalledIn(files, texts) && OneChecksumEach(env, texts)
      requires forall i | 0 <= i < |handoffs| && HasHandoff(handoffs[i]) ::
        handoffs[i][HandoffFile(IndexFile)] in texts
      modifies this
      ensures Valid() && AllSound(env, history)
    {
      for i := 0 to |handoffs|
        invariant Valid() && AllSound(env, history) && InstalledIn(files, texts)
      {
        var _ := ImportNext(env, handoffs[i], texts);
      }
    }

    /** A new handoff replaces the handoff directory. */
    method Place(ghost env: Env, handoff: Files, ghost texts: set<string>)
      requires Valid() && AllSound(env, history) && InstalledIn(files, texts)
      modifies this
      ensures Valid() && files == Placed(old(files), handoff) && history == old(history) + [files]
      ensures forall p: Path :: Same(if p.HandoffFile? || p.HandoffImage? then handoff else old(files), files, p)
      ensures AllSound(env, history) && Sound(env, files) && InstalledIn(files, texts)
    {
      assert Sound(env, history[|history| - 1]);
      PlacedKeepsSound(env, files, handoff, texts);
      forall p: Path
        ensures Same(if p.HandoffFile? || p.HandoffImage? then handoff else files, Placed(files, handoff), p)
      {
        PlacedMeans(files, handoff, p);
      }
      files := Placed(files, handoff);
      history := history + [files];
    }

    method ImportNext(env: Env, handoff: Files, ghost texts: set<string>) returns (r: Outcome)
      requires Valid() && AllSound(env, history) && InstalledIn(files, texts) && OneChecksumEach(env, texts)
      requires HasHandoff(handoff) ==> handoff[HandoffFile(IndexFile)] in texts
      modifies this
      ensures Valid() && AllSound(env, history) && InstalledIn(files, texts)
    {
      Place(env, handoff, texts);
      ghost var start, past := files, history;
      r := ImportComposeCache(env);
      if HandoffAdmissible(env, start) {
        var states := history[|past| - 1..];
        SoundStep(env, start, states, files, r == Imported, texts);
        SoundJoin(env, past[..|past| - 1], states, history);
      }
    }
  }
}
