/** The scan engine (src/scanner.rs), sequential path.

    The file system is given as data: an `FsNode` holds what `metadata`,
    `symlink_metadata`, `read_dir` and the CACHEDIR.TAG test would report for
    one path, and a directory's listing holds its children as nodes. Glob
    patterns are a parameter (`GlobEngine`). `ScanNode` is the reference
    definition of what scanning a node yields: the entry, and the statistics,
    hard-link registry and entry-id counter afterwards. The class
    `ScanContext` is the scanner proper; its methods are proved to compute
    exactly `ScanNode`, and the lemmas state what the source promises about
    it. */
module Scanner {
  import opened Wrappers
  import opened Strings
  import opened Natural
  import opened Model
  import opened Errors
  import Utils
  import Configuration

  type ConfigData = Configuration.ConfigData

  /** Pseudo-filesystem mount points skipped when kernel file systems are
      excluded. */
  const PSEUDO_FS: seq<string> := ["/proc", "/sys", "/dev", "/run", "/tmp", "/var/run", "/var/lock", "/var/tmp"]

  const U32_MODULUS: nat := 0x1_0000_0000

  /** The `as u32` cast: the low 32 bits. */
  function U32(n: nat): (r: nat)
    ensures r < U32_MODULUS
    ensures n < U32_MODULUS ==> r == n
  {
    n % U32_MODULUS
  }

  // ---------------------------------------------------------------------
  // The file system as data

  /** What `Metadata::file_type` reports. */
  datatype FileKind =
    | KindDir | KindFile | KindSymlink
    | KindBlockDevice | KindCharDevice | KindFifo | KindSocket
    | KindOther

  /** The metadata fields the scanner reads; `mtime` is whole seconds since
      the epoch, absent when the time is unknown or before the epoch. */
  datatype Metadata = Metadata(
    kind: FileKind, len: nat, blocks: nat, dev: nat, ino: nat, nlink: nat,
    mtime: Option<int>, uid: nat, gid: nat, mode: nat)

  /** One path of the file system: the name its directory lists it under,
      the outcome of `symlink_metadata` and of `metadata` (which follows
      links), whether a CACHEDIR.TAG file exists in it, and the outcome of
      `read_dir`. */
  datatype FsNode = FsNode(
    name: string,
    linkMeta: Result<Metadata, IoError>,
    meta: Result<Metadata, IoError>,
    hasCacheTag: bool,
    listing: Listing)

  /** `read_dir` fails, or yields one item per directory entry. */
  datatype Listing = Unlistable(listError: IoError) | Listed(items: seq<DirItem>)

  /** One item of a listing: an error, or the entry found. */
  datatype DirItem = BadItem(itemError: IoError) | Found(child: FsNode)

  /** The glob library: the error `Pattern::new` reports for a pattern, if
      any, and `Pattern::matches` of a pattern against a path. */
  datatype GlobEngine = GlobEngine(patternError: string -> Option<string>, matches: (string, string) -> bool)

  // ---------------------------------------------------------------------
  // Per-entry decisions

  /** `get_metadata`: follow links only when asked to. */
  function MetadataOf(config: ConfigData, node: FsNode): Result<Metadata, IoError> {
    if config.scan.followSymlinks then node.meta else node.linkMeta
  }

  /** `is_different_filesystem`. */
  predicate IsDifferentFilesystem(config: ConfigData, rootDevice: Option<nat>, device: nat) {
    config.scan.sameFs && rootDevice.Some? && device != rootDevice.value
  }

  /** `path` is the mount point itself or lies below it. */
  predicate UnderMount(path: string, mount: string) {
    StartsWith(path, mount) && (|path| == |mount| || path[|mount|] == '/')
  }

  /** `is_kernel_filesystem`. */
  predicate IsKernelFilesystem(config: ConfigData, path: string) {
    config.scan.excludeKernfs && exists k :: 0 <= k < |PSEUDO_FS| && UnderMount(path, PSEUDO_FS[k])
  }

  /** `is_excluded_by_pattern`: some exclude pattern matches the path. */
  predicate IsExcludedByPattern(config: ConfigData, glob: GlobEngine, path: string) {
    exists k :: 0 <= k < |config.scan.excludePatterns| && glob.matches(config.scan.excludePatterns[k], path)
  }

  /** `should_include_entry`. */
  predicate ShouldIncludeEntry(config: ConfigData, name: string) {
    !(!config.display.showHidden && |name| > 0 && name[0] == '.') && name != "." && name != ".."
  }

  /** `get_entry_type`. */
  function GetEntryType(kind: FileKind): EntryType {
    match kind
    case KindDir => Directory
    case KindFile => File
    case KindSymlink => Symlink
    case KindBlockDevice => Special
    case KindCharDevice => Special
    case KindFifo => Special
    case KindSocket => Special
    case KindOther => File
  }

  /** `path.file_name().unwrap_or(path)`. */
  function EntryName(path: string): string {
    Utils.FileName(path).GetOr(path)
  }

  /** The extended information `scan_entry` attaches. */
  function ExtendedOf(meta: Metadata): ExtendedInfo {
    ExtendedInfo(meta.mtime, Some(meta.uid), Some(meta.gid), Some(meta.mode))
  }

  /** The ordering `sort_entries` applies, taken from the configuration. */
  function SortKeyOf(config: ConfigData): SortKey {
    SortKey(config.sorting.sortCol, config.sorting.sortOrder, config.sorting.sortDirsFirst, config.sorting.sortNatural)
  }

  function KeyOf(meta: Metadata): HardlinkKey {
    HardlinkKey(U32(meta.dev), meta.ino)
  }

  function MetadataError(e: IoError): string {
    "Cannot read metadata: " + e.message
  }

  /** The error `scan_directory_contents` returns when `read_dir` fails. */
  function ListingError(path: string, e: IoError): RsduError {
    ScanErrorAt(path, "Cannot read directory: " + e.message)
  }

  // ---------------------------------------------------------------------
  // Reference definition of a scan

  /** What a scan does not change: the configuration, the glob library and
      the device of the root. */
  datatype ScanEnv = ScanEnv(config: ConfigData, glob: GlobEngine, rootDevice: Option<nat>)

  /** What a scan changes: the statistics, the hard-link registry and the
      next entry id. */
  datatype ScanState = ScanState(counters: StatCounters, links: HardlinkMap, nextId: nat)

  /** The placeholder type of an entry that is not scanned, in the order
      the checks are made. */
  function SkipType(env: ScanEnv, path: string, meta: Metadata): Option<EntryType> {
    if IsDifferentFilesystem(env.config, env.rootDevice, meta.dev) then Some(OtherFs)
    else if IsKernelFilesystem(env.config, path) then Some(KernelFs)
    else if IsExcludedByPattern(env.config, env.glob, path) then Some(Excluded)
    else None
  }

  /** The hard-link bookkeeping for a file with more than one link: the
      first sighting of its inode is registered, later ones count and turn
      the entry into a Hardlink. */
  function RecordHardlink(links: HardlinkMap, entry: Entry, meta: Metadata): (Entry, HardlinkMap) {
    if meta.nlink > 1 && entry.entryType == File then
      var key := KeyOf(meta);
      if key in links then
        (entry.(entryType := Hardlink), links[key := links[key].(linksInTree := links[key].linksInTree + 1)])
      else
        (entry, links[key := HardlinkInfo(U32(meta.nlink), 1, meta.len, meta.blocks, entry)])
    else (entry, links)
  }

  /** `scan_entry`. */
  function ScanNode(env: ScanEnv, st: ScanState, path: string, node: FsNode): (Entry, ScanState)
    decreases node, 3, 0
  {
    var id := st.nextId;
    match MetadataOf(env.config, node)
    case Err(e) =>
      (ErrorEntry(id, EntryName(path), MetadataError(e)),
       ScanState(st.counters.(errors := st.counters.errors + 1), st.links, id + 1))
    case Ok(meta) =>
      match SkipType(env, path, meta)
      case Some(t) =>
        (NewEntry(id, t, EntryName(path), 0, 0, U32(meta.dev), meta.ino, U32(meta.nlink)), st.(nextId := id + 1))
      case None => ScanCounted(env, st, path, node, meta)
  }

  /** The counters after an entry is counted, before it is classed as a
      directory or a file. */
  function CountedCounters(c: StatCounters, meta: Metadata): StatCounters {
    c.(totalEntries := c.totalEntries + 1, totalSize := c.totalSize + meta.len, totalBlocks := c.totalBlocks + meta.blocks)
  }

  /** The entry a counted path starts as, with the hard-link registry
      after its bookkeeping; extended information is attached after the
      registry has kept its copy. */
  function CountedEntry(env: ScanEnv, st: ScanState, path: string, meta: Metadata): (Entry, HardlinkMap) {
    var base := NewEntry(st.nextId, GetEntryType(meta.kind), EntryName(path), meta.len, meta.blocks,
                         U32(meta.dev), meta.ino, U32(meta.nlink));
    var (linked, links) := RecordHardlink(st.links, base, meta);
    (if env.config.scan.extended then linked.(extended := Some(ExtendedOf(meta))) else linked, links)
  }

  /** An entry that is scanned: counted, registered if hard-linked, and
      descended into if a directory. */
  function ScanCounted(env: ScanEnv, st: ScanState, path: string, node: FsNode, meta: Metadata): (Entry, ScanState)
    decreases node, 2, 0
  {
    var c := CountedCounters(st.counters, meta);
    var (entry, links) := CountedEntry(env, st, path, meta);
    if GetEntryType(meta.kind) == Directory then
      ScanDirectoryNode(env, ScanState(c.(directories := c.directories + 1), links, st.nextId + 1), path, node, entry)
    else
      (entry, ScanState(c.(files := c.files + 1), links, st.nextId + 1))
  }

  /** A directory entry: excluded when tagged as a cache, an error when it
      cannot be listed, otherwise given its sorted children. */
  function ScanDirectoryNode(env: ScanEnv, st: ScanState, path: string, node: FsNode, entry: Entry): (Entry, ScanState)
    decreases node, 1, 0
  {
    if env.config.scan.excludeCaches && node.hasCacheTag then (entry.(entryType := Excluded), st)
    else match node.listing
      case Unlistable(e) =>
        (entry.(error := Some(DirectoryError(ListingError(path, e))), entryType := Error),
         st.(counters := st.counters.(errors := st.counters.errors + 1)))
      case Listed(items) =>
        var (children, st') := ScanItems(env, st, path, node, |items|);
        (entry.(children := StableSort(children, SortKeyOf(env.config))), st')
  }

  /** The message an entry carries when its directory could not be scanned. */
  function DirectoryError(e: RsduError): string {
    "Error scanning directory: " + e.Describe()
  }

  /** One more listed item: a readable, included item is scanned after the
      ones before it ... */
  lemma ScanItemsIncluded(env: ScanEnv, st: ScanState, dir: string, node: FsNode, n: nat)
    requires node.listing.Listed? && n < |node.listing.items|
    requires node.listing.items[n].Found? && ShouldIncludeEntry(env.config, node.listing.items[n].child.name)
    ensures var (prev, st1) := ScanItems(env, st, dir, node, n);
      var child := node.listing.items[n].child;
      var (e, st2) := ScanNode(env, st1, Utils.PathJoin(dir, child.name), child);
      ScanItems(env, st, dir, node, n + 1) == (prev + [e], st2)
  {
  }

  /** ... and any other item changes nothing. */
  lemma ScanItemsPassed(env: ScanEnv, st: ScanState, dir: string, node: FsNode, n: nat)
    requires node.listing.Listed? && n < |node.listing.items|
    requires !(node.listing.items[n].Found? && ShouldIncludeEntry(env.config, node.listing.items[n].child.name))
    ensures ScanItems(env, st, dir, node, n + 1) == ScanItems(env, st, dir, node, n)
  {
  }

  /** The sequential loop of `scan_directory_contents` over the first `n`
      listed items: unreadable items and excluded names are passed over. */
  function ScanItems(env: ScanEnv, st: ScanState, dir: string, node: FsNode, n: nat): (seq<Entry>, ScanState)
    requires node.listing.Listed? && n <= |node.listing.items|
    decreases node, 0, n
  {
    if n == 0 then ([], st)
    else
      var (prev, st1) := ScanItems(env, st, dir, node, n - 1);
      match node.listing.items[n - 1]
      case BadItem(_) => (prev, st1)
      case Found(child) =>
        if ShouldIncludeEntry(env.config, child.name) then
          var (e, st2) := ScanNode(env, st1, Utils.PathJoin(dir, child.name), child);
          (prev + [e], st2)
        else (prev, st1)
  }

  /** The scan state of a new context: no counts, no hard links, and the
      process-wide entry-id counter at `firstId`. */
  function InitialState(firstId: nat): ScanState {
    ScanState(StatCounters(0, 0, 0, 0, 0, 0), map[], firstId)
  }

  /** The error a rejected exclude pattern is reported with. */
  function PatternError(pattern: string, err: string): RsduError {
    ConfigError("Invalid exclude pattern '" + pattern + "': " + err)
  }

  /** `ScanContext::new` compiles the exclude patterns in order and fails
      on the first one the glob library rejects. */
  function PatternCheck(patterns: seq<string>, glob: GlobEngine): Result<(), RsduError> {
    if |patterns| == 0 then Ok(())
    else match glob.patternError(patterns[0])
      case Some(err) => Err(PatternError(patterns[0], err))
      case None => PatternCheck(patterns[1..], glob)
  }

  /** The root device `scan_directory_with_progress` records: with
      `same_fs` it reads the root's metadata, following links. */
  function RootDevice(config: ConfigData, path: string, root: FsNode): Result<Option<nat>, RsduError> {
    if !config.scan.sameFs then Ok(None)
    else match root.meta
      case Ok(m) => Ok(Some(m.dev))
      case Err(e) => Err(ScanErrorAt(path, "Cannot read root directory metadata: " + e.message))
  }

  /** `scan_directory`: the root entry and the scan state it ends in (whose
      counters are the statistics printed at the end), or the error that
      stopped the scan before it began. */
  function ScanResult(config: ConfigData, glob: GlobEngine, path: string, root: FsNode, firstId: nat): Result<(Entry, ScanState), RsduError> {
    match PatternCheck(config.scan.excludePatterns, glob)
    case Err(e) => Err(e)
    case Ok(_) =>
      match RootDevice(config, path, root)
      case Err(e) => Err(e)
      case Ok(device) => Ok(ScanNode(ScanEnv(config, glob, device), InitialState(firstId), path, root))
  }

  /** The state in which a counted directory's contents are scanned. */
  function DirectoryState(env: ScanEnv, st: ScanState, path: string, meta: Metadata): ScanState {
    var c := CountedCounters(st.counters, meta);
    ScanState(c.(directories := c.directories + 1), CountedEntry(env, st, path, meta).1, st.nextId + 1)
  }

  /** An entry that passes the checks is counted ... */
  lemma ScanNodeCounted(env: ScanEnv, st: ScanState, path: string, node: FsNode)
    requires MetadataOf(env.config, node).Ok?
    requires SkipType(env, path, MetadataOf(env.config, node).value).None?
    ensures ScanNode(env, st, path, node) == ScanCounted(env, st, path, node, MetadataOf(env.config, node).value)
  {
  }

  /** ... and a counted directory is then descended into. */
  lemma ScanCountedDirectory(env: ScanEnv, st: ScanState, path: string, node: FsNode, meta: Metadata)
    requires GetEntryType(meta.kind) == Directory
    ensures ScanCounted(env, st, path, node, meta)
      == ScanDirectoryNode(env, DirectoryState(env, st, path, meta), path, node, CountedEntry(env, st, path, meta).0)
  {
  }

  lemma ScanCountedFile(env: ScanEnv, st: ScanState, path: string, node: FsNode, meta: Metadata)
    requires GetEntryType(meta.kind) != Directory
    ensures var c := CountedCounters(st.counters, meta);
      ScanCounted(env, st, path, node, meta)
        == (CountedEntry(env, st, path, meta).0, ScanState(c.(files := c.files + 1), CountedEntry(env, st, path, meta).1, st.nextId + 1))
  {
  }

  /** A counted entry has the path's own size and blocks and no children;
      only a repeated sighting of a hard-linked file changes its type. */
  lemma CountedEntryShape(env: ScanEnv, st: ScanState, path: string, meta: Metadata)
    ensures var e := CountedEntry(env, st, path, meta).0;
      e.size == meta.len && e.blocks == meta.blocks && e.children == [] && e.error.None?
      && e.entryType == (if GetEntryType(meta.kind) == File && meta.nlink > 1 && KeyOf(meta) in st.links
                         then Hardlink else GetEntryType(meta.kind))
  {
  }

  // ---------------------------------------------------------------------
  // The scanner

  /** `ScanContext`: the configuration, the shared statistics, the shared
      hard-link registry and the root device, plus the entry-id counter
      that the source keeps in a process-wide atomic. */
  class ScanContext {
    const config: ConfigData
    const glob: GlobEngine
    var rootDevice: Option<nat>
    const stats: ScanStats
    var hardlinks: HardlinkMap
    var nextId: nat

    function Env(): ScanEnv
      reads this
    {
      ScanEnv(config, glob, rootDevice)
    }

    function State(): ScanState
      reads this, stats
    {
      ScanState(stats.Counters(), hardlinks, nextId)
    }

    /** The context `ScanContext::new` builds once every pattern compiled. */
    constructor (config: ConfigData, glob: GlobEngine, firstId: nat)
      ensures Env() == ScanEnv(config, glob, None)
      ensures State() == InitialState(firstId)
      ensures fresh(stats)
    {
      this.config := config;
      this.glob := glob;
      rootDevice := None;
      stats := new ScanStats();
      hardlinks := map[];
      nextId := firstId;
    }

    /** `generate_entry_id`. */
    method GenerateEntryId() returns (id: nat)
      modifies this
      ensures id == old(nextId) && nextId == id + 1
      ensures rootDevice == old(rootDevice) && hardlinks == old(hardlinks)
    {
      id := nextId;
      nextId := nextId + 1;
    }

    /** `scan_entry`: computes exactly `ScanNode`. */
    method ScanEntry(path: string, node: FsNode) returns (entry: Entry)
      modifies this, stats
      decreases node, 3
      ensures rootDevice == old(rootDevice)
      ensures (entry, State()) == ScanNode(old(Env()), old(State()), path, node)
    {
      var metadata := MetadataOf(config, node);
      if metadata.Err? {
        stats.IncrementErrors();
        var id := GenerateEntryId();
        entry := ErrorEntry(id, EntryName(path), MetadataError(metadata.error));
        return;
      }
      var meta := metadata.value;
      var skip := SkipType(Env(), path, meta);
      if skip.Some? {
        var id := GenerateEntryId();
        entry := NewEntry(id, skip.value, EntryName(path), 0, 0, U32(meta.dev), meta.ino, U32(meta.nlink));
        return;
      }
      entry := ScanCountedEntry(path, node, meta);
    }

    /** The part of `scan_entry` after the checks: the entry is counted,
        registered if hard-linked, and descended into if a directory. */
    method ScanCountedEntry(path: string, node: FsNode, meta: Metadata) returns (entry: Entry)
      modifies this, stats
      decreases node, 2
      ensures rootDevice == old(rootDevice)
      ensures (entry, State()) == ScanCounted(old(Env()), old(State()), path, node, meta)
    {
      ghost var st := State();
      var fileType := GetEntryType(meta.kind);
      stats.IncrementEntries();
      stats.AddSize(meta.len);
      stats.AddBlocks(meta.blocks);
      var id := GenerateEntryId();
      entry := NewEntry(id, fileType, EntryName(path), meta.len, meta.blocks, U32(meta.dev), meta.ino, U32(meta.nlink));
      entry := RecordHardlinkStep(entry, meta);
      if config.scan.extended {
        entry := entry.(extended := Some(ExtendedOf(meta)));
      }
      ghost var c := CountedCounters(st.counters, meta);
      assert (entry, hardlinks) == CountedEntry(Env(), st, path, meta);
      assert stats.Counters() == c && nextId == st.nextId + 1;
      if fileType == Directory {
        stats.IncrementDirectories();
        assert State() == DirectoryState(Env(), st, path, meta);
        ScanCountedDirectory(Env(), st, path, node, meta);
        entry := ScanDirectoryEntry(path, node, entry);
      } else {
        stats.IncrementFiles();
        ScanCountedFile(Env(), st, path, node, meta);
      }
    }

    /** The hard-link block of `scan_entry`. */
    method RecordHardlinkStep(entry: Entry, meta: Metadata) returns (linked: Entry)
      modifies this
      ensures rootDevice == old(rootDevice) && nextId == old(nextId)
      ensures (linked, hardlinks) == RecordHardlink(old(hardlinks), entry, meta)
    {
      linked := entry;
      if meta.nlink > 1 && entry.entryType == File {
        var key := HardlinkKey(U32(meta.dev), meta.ino);
        if key in hardlinks {
          hardlinks := hardlinks[key := hardlinks[key].(linksInTree := hardlinks[key].linksInTree + 1)];
          linked := entry.(entryType := Hardlink);
        } else {
          hardlinks := hardlinks[key := HardlinkInfo(U32(meta.nlink), 1, meta.len, meta.blocks, entry)];
        }
      }
    }

    /** The directory block of `scan_entry`, after the directory has been
        counted. */
    method ScanDirectoryEntry(path: string, node: FsNode, entry: Entry) returns (r: Entry)
      modifies this, stats
      decreases node, 1
      ensures rootDevice == old(rootDevice)
      ensures (r, State()) == ScanDirectoryNode(old(Env()), old(State()), path, node, entry)
    {
      if config.scan.excludeCaches && node.hasCacheTag {
        return entry.(entryType := Excluded);
      }
      var contents := ScanDirectoryContents(path, node);
      match contents {
        case Ok(children) =>
          var a := new Entry[|children|](i requires 0 <= i < |children| => children[i]);
          assert a[..] == children;
          SortInPlace(a, SortKeyOf(config));
          r := entry.(children := a[..]);
        case Err(e) =>
          stats.IncrementErrors();
          r := entry.(error := Some(DirectoryError(e)), entryType := Error);
      }
    }

    /** `scan_directory_contents`, sequential branch: the children in
        listing order, as `ScanItems` defines them. */
    method ScanDirectoryContents(dirPath: string, node: FsNode) returns (r: Result<seq<Entry>, RsduError>)
      modifies this, stats
      decreases node, 0
      ensures rootDevice == old(rootDevice)
      ensures node.listing.Unlistable? ==>
        r == Err(ListingError(dirPath, node.listing.listError)) && State() == old(State())
      ensures node.listing.Listed? ==>
        r.Ok? && (r.value, State()) == ScanItems(old(Env()), old(State()), dirPath, node, |node.listing.items|)
    {
      if node.listing.Unlistable? {
        return Err(ListingError(dirPath, node.listing.listError));
      }
      var items := node.listing.items;
      var children: seq<Entry> := [];
      var i := 0;
      while i < |items|
        invariant i <= |items|
        invariant rootDevice == old(rootDevice)
        invariant (children, State()) == ScanItems(old(Env()), old(State()), dirPath, node, i)
      {
        var item := items[i];
        if item.Found? && ShouldIncludeEntry(config, item.child.name) {
          ScanItemsIncluded(old(Env()), old(State()), dirPath, node, i);
          var child := ScanEntry(Utils.PathJoin(dirPath, item.child.name), item.child);
          children := children + [child];
        } else {
          ScanItemsPassed(old(Env()), old(State()), dirPath, node, i);
        }
        i := i + 1;
      }
      r := Ok(children);
    }
  }

  /** `ScanContext::new`. */
  method NewContext(config: ConfigData, glob: GlobEngine, firstId: nat) returns (r: Result<ScanContext, RsduError>)
    ensures r.Err? ==> PatternCheck(config.scan.excludePatterns, glob) == Err(r.error)
    ensures r.Ok? ==> PatternCheck(config.scan.excludePatterns, glob).Ok?
    ensures r.Ok? ==> fresh(r.value) && fresh(r.value.stats)
    ensures r.Ok? ==> r.value.Env() == ScanEnv(config, glob, None) && r.value.State() == InitialState(firstId)
  {
    var patterns := config.scan.excludePatterns;
    var i := 0;
    while i < |patterns|
      invariant i <= |patterns|
      invariant PatternCheck(patterns, glob) == PatternCheck(patterns[i..], glob)
    {
      assert patterns[i..][1..] == patterns[i + 1..];
      match glob.patternError(patterns[i]) {
        case Some(err) =>
          return Err(PatternError(patterns[i], err));
        case None =>
      }
      i := i + 1;
    }
    var context := new ScanContext(config, glob, firstId);
    r := Ok(context);
  }

  /** `scan_directory`: builds the context, records the root device when
      the scan stays on one file system, and scans the root; the result
      carries the root entry and the statistics printed at the end. */
  method ScanDirectory(path: string, root: FsNode, config: ConfigData, glob: GlobEngine, firstId: nat)
    returns (r: Result<(Entry, StatCounters), RsduError>)
    ensures ScanResult(config, glob, path, root, firstId).Err? ==> r == Err(ScanResult(config, glob, path, root, firstId).error)
    ensures ScanResult(config, glob, path, root, firstId).Ok? ==>
      var (entry, st) := ScanResult(config, glob, path, root, firstId).value;
      r == Ok((entry, st.counters))
  {
    var created := NewContext(config, glob, firstId);
    if created.Err? {
      return Err(created.error);
    }
    var context := created.value;
    if config.scan.sameFs {
      match root.meta {
        case Ok(m) => context.rootDevice := Some(m.dev);
        case Err(e) =>
          return Err(ScanErrorAt(path, "Cannot read root directory metadata: " + e.message));
      }
    }
    var entry := context.ScanEntry(path, root);
    r := Ok((entry, context.stats.Counters()));
  }

  // ---------------------------------------------------------------------
  // What a scan accounts for

  /** The Error entries in a tree. */
  function ErrorCount(e: Entry): nat {
    (if e.entryType == Error then 1 else 0) + SumErrorCount(e.children)
  }

  function SumErrorCount(cs: seq<Entry>): nat {
    if |cs| == 0 then 0 else SumErrorCount(cs[..|cs| - 1]) + ErrorCount(cs[|cs| - 1])
  }

  /** The Hardlink entries in a tree whose device and inode form `key`. */
  function LinkCount(e: Entry, key: HardlinkKey): nat {
    (if e.entryType == Hardlink && HardlinkKey(e.device, e.inode) == key then 1 else 0) + SumLinkCount(e.children, key)
  }

  function SumLinkCount(cs: seq<Entry>, key: HardlinkKey): nat {
    if |cs| == 0 then 0 else SumLinkCount(cs[..|cs| - 1], key) + LinkCount(cs[|cs| - 1], key)
  }

  /** A File entry with more than one link, device and inode `key`: the
      first sighting of a hard-linked file, whose size is counted. */
  predicate FirstSighting(e: Entry, key: HardlinkKey) {
    e.entryType == File && e.nlink > 1 && HardlinkKey(e.device, e.inode) == key
  }

  /** The first sightings of `key` in a tree. */
  function SightingCount(e: Entry, key: HardlinkKey): nat {
    (if FirstSighting(e, key) then 1 else 0) + SumSightingCount(e.children, key)
  }

  function SumSightingCount(cs: seq<Entry>, key: HardlinkKey): nat {
    if |cs| == 0 then 0 else SumSightingCount(cs[..|cs| - 1], key) + SightingCount(cs[|cs| - 1], key)
  }

  /** Going from `st` to `st2` the scan produced the trees `es` and
      nothing else: the size, block and error counters grew by the trees'
      totals, one entry id was drawn per entry, no counter went down, every
      newly counted entry was counted as a directory or as a file, and per
      hard-link key the registry counts the first sighting plus one per
      Hardlink entry. A key registered before keeps its link total and gets
      no File sighting in `es`; a key registered on the way gets one exactly
      when its recorded link total (the u32 cast of `nlink`) exceeds one;
      an unregistered key gets neither. */
  ghost predicate Accounted(st: ScanState, es: seq<Entry>, st2: ScanState) {
    var c, c2 := st.counters, st2.counters;
    c2.totalSize == c.totalSize + SumTotalSize(es)
    && c2.totalBlocks == c.totalBlocks + SumTotalBlocks(es)
    && c2.errors == c.errors + SumErrorCount(es)
    && st2.nextId == st.nextId + SumTotalItems(es)
    && c.AtMost(c2)
    && c2.totalEntries + c.directories + c.files == c.totalEntries + c2.directories + c2.files
    && st.links.Keys <= st2.links.Keys
    && (forall key :: key in st2.links ==>
          st2.links[key].linksInTree == (if key in st.links then st.links[key].linksInTree else 1) + SumLinkCount(es, key))
    && (forall key :: key !in st2.links ==> SumLinkCount(es, key) == 0)
    && (forall key :: key in st.links ==> st2.links[key].totalLinks == st.links[key].totalLinks)
    && (forall key :: key in st2.links ==>
          SumSightingCount(es, key) == (if key in st.links || st2.links[key].totalLinks <= 1 then 0 else 1))
    && (forall key :: key !in st2.links ==> SumSightingCount(es, key) == 0)
  }

  lemma AccountedNothing(st: ScanState)
    ensures Accounted(st, [], st)
  {
  }

  lemma SingleSums(e: Entry)
    ensures SumTotalSize([e]) == TotalSize(e) && SumTotalBlocks([e]) == TotalBlocks(e)
    ensures SumTotalItems([e]) == TotalItems(e) && SumErrorCount([e]) == ErrorCount(e)
    ensures forall key :: SumLinkCount([e], key) == LinkCount(e, key)
    ensures forall key :: SumSightingCount([e], key) == SightingCount(e, key)
  {
    assert [e][..0] == [];
  }

  lemma SnocSums(a: seq<Entry>, e: Entry)
    ensures SumTotalSize(a + [e]) == SumTotalSize(a) + TotalSize(e)
    ensures SumTotalBlocks(a + [e]) == SumTotalBlocks(a) + TotalBlocks(e)
    ensures SumTotalItems(a + [e]) == SumTotalItems(a) + TotalItems(e)
    ensures SumErrorCount(a + [e]) == SumErrorCount(a) + ErrorCount(e)
    ensures forall key :: SumLinkCount(a + [e], key) == SumLinkCount(a, key) + LinkCount(e, key)
    ensures forall key :: SumSightingCount(a + [e], key) == SumSightingCount(a, key) + SightingCount(e, key)
  {
    assert (a + [e])[..|a|] == a;
  }

  /** Accounting composes along a scan. */
  lemma AccountedSnoc(st: ScanState, a: seq<Entry>, st1: ScanState, e: Entry, st2: ScanState)
    requires Accounted(st, a, st1) && Accounted(st1, [e], st2)
    ensures Accounted(st, a + [e], st2)
  {
    SnocSums(a, e);
    SingleSums(e);
    forall key | key in st2.links
      ensures st2.links[key].linksInTree
        == (if key in st.links then st.links[key].linksInTree else 1) + SumLinkCount(a + [e], key)
    {
      if key !in st1.links {
        assert SumLinkCount(a, key) == 0;
      }
    }
    forall key | key in st2.links
      ensures SumSightingCount(a + [e], key)
        == (if key in st.links || st2.links[key].totalLinks <= 1 then 0 else 1)
    {
      if key !in st1.links {
        assert SumSightingCount(a, key) == 0;
      }
    }
  }

  lemma {:induction false} InsertCounts(s: seq<Entry>, x: Entry, key: SortKey)
    ensures SumErrorCount(Insert(s, x, key)) == SumErrorCount(s) + ErrorCount(x)
    ensures forall k :: SumLinkCount(Insert(s, x, key), k) == SumLinkCount(s, k) + LinkCount(x, k)
    ensures forall k :: SumSightingCount(Insert(s, x, key), k) == SumSightingCount(s, k) + SightingCount(x, k)
    decreases |s|
  {
    var r := Insert(s, x, key);
    if |s| == 0 || CompareEntries(s[|s| - 1], x, key) != Greater {
      assert r[..|r| - 1] == s;
    } else {
      InsertCounts(s[..|s| - 1], x, key);
      assert r[..|r| - 1] == Insert(s[..|s| - 1], x, key);
    }
  }

  lemma {:induction false} StableSortCounts(s: seq<Entry>, key: SortKey)
    ensures SumErrorCount(StableSort(s, key)) == SumErrorCount(s)
    ensures forall k :: SumLinkCount(StableSort(s, key), k) == SumLinkCount(s, k)
    ensures forall k :: SumSightingCount(StableSort(s, key), k) == SumSightingCount(s, k)
    decreases |s|
  {
    if |s| > 0 {
      StableSortCounts(s[..|s| - 1], key);
      InsertCounts(StableSort(s[..|s| - 1], key), s[|s| - 1], key);
    }
  }

  /** Sorting the children changes nothing the accounting sees. */
  lemma AccountedSorted(st: ScanState, es: seq<Entry>, st2: ScanState, key: SortKey)
    requires Accounted(st, es, st2)
    ensures Accounted(st, StableSort(es, key), st2)
  {
    StableSortSums(es, key);
    StableSortCounts(es, key);
  }

  /** A leaf whose own contribution is `e`'s alone. */
  lemma LeafAccounted(st: ScanState, e: Entry, st2: ScanState)
    requires e.children == []
    requires st2.counters.totalSize == st.counters.totalSize + e.size
    requires st2.counters.totalBlocks == st.counters.totalBlocks + e.blocks
    requires st2.counters.errors == st.counters.errors + (if e.entryType == Error then 1 else 0)
    requires st2.nextId == st.nextId + 1
    requires st.counters.AtMost(st2.counters)
    requires st2.counters.totalEntries + st.counters.directories + st.counters.files
      == st.counters.totalEntries + st2.counters.directories + st2.counters.files
    requires st.links.Keys <= st2.links.Keys
    requires forall key :: key in st2.links ==>
      st2.links[key].linksInTree == (if key in st.links then st.links[key].linksInTree else 1)
        + (if e.entryType == Hardlink && HardlinkKey(e.device, e.inode) == key then 1 else 0)
    requires e.entryType == Hardlink ==> HardlinkKey(e.device, e.inode) in st2.links
    requires forall key :: key in st.links ==> st2.links[key].totalLinks == st.links[key].totalLinks
    requires forall key :: FirstSighting(e, key) ==>
      key in st2.links && key !in st.links && st2.links[key].totalLinks > 1
    requires forall key :: key in st2.links && key !in st.links && st2.links[key].totalLinks > 1 ==> FirstSighting(e, key)
    ensures Accounted(st, [e], st2)
  {
    SingleSums(e);
  }

  /** Every scanned subtree is accounted for, whatever state the scan
      starts in. */
  lemma {:induction false} NodeAccounted(env: ScanEnv, st: ScanState, path: string, node: FsNode)
    ensures var (e, st2) := ScanNode(env, st, path, node); Accounted(st, [e], st2)
    decreases node, 3, 0
  {
    var (e, st2) := ScanNode(env, st, path, node);
    match MetadataOf(env.config, node)
    case Err(_) =>
      LeafAccounted(st, e, st2);
    case Ok(meta) =>
      match SkipType(env, path, meta)
      case Some(_) =>
        LeafAccounted(st, e, st2);
      case None =>
        CountedAccounted(env, st, path, node, meta);
  }

  lemma {:induction false} CountedAccounted(env: ScanEnv, st: ScanState, path: string, node: FsNode, meta: Metadata)
    ensures var (e, st2) := ScanCounted(env, st, path, node, meta); Accounted(st, [e], st2)
    decreases node, 2, 0
  {
    var c := CountedCounters(st.counters, meta);
    var (entry, links) := CountedEntry(env, st, path, meta);
    if GetEntryType(meta.kind) == Directory {
      var st1 := ScanState(c.(directories := c.directories + 1), links, st.nextId + 1);
      assert ScanCounted(env, st, path, node, meta) == ScanDirectoryNode(env, st1, path, node, entry);
      DirectoryAccounted(env, st1, path, node, entry);
      CountedDirectoryAccounted(st, st1, entry, ScanDirectoryNode(env, st1, path, node, entry));
    } else {
      assert ScanCounted(env, st, path, node, meta) == (entry, ScanState(c.(files := c.files + 1), links, st.nextId + 1));
      FileAccounted(env, st, path, meta);
    }
  }

  /** A counted directory: its own size and blocks plus its children. */
  lemma CountedDirectoryAccounted(st: ScanState, st1: ScanState, entry: Entry, r: (Entry, ScanState))
    requires entry.entryType == Directory && entry.children == []
    requires st1.links == st.links && st1.nextId == st.nextId + 1
    requires st1.counters == st.counters.(totalEntries := st.counters.totalEntries + 1,
                                          totalSize := st.counters.totalSize + entry.size,
                                          totalBlocks := st.counters.totalBlocks + entry.blocks,
                                          directories := st.counters.directories + 1)
    requires r.0.size == entry.size && r.0.blocks == entry.blocks && r.0.entryType in {Directory, Excluded, Error}
    requires r.0.entryType != Error ==> Accounted(st1, r.0.children, r.1)
    requires r.0.entryType == Error ==>
      r.0.children == [] && r.1 == st1.(counters := st1.counters.(errors := st1.counters.errors + 1))
    ensures Accounted(st, [r.0], r.1)
  {
    SingleSums(r.0);
    assert forall key :: LinkCount(r.0, key) == SumLinkCount(r.0.children, key);
    assert forall key :: SightingCount(r.0, key) == SumSightingCount(r.0.children, key);
  }

  /** A counted entry that is not a directory: a leaf, registered when it
      is a file with more than one link. */
  lemma FileAccounted(env: ScanEnv, st: ScanState, path: string, meta: Metadata)
    requires GetEntryType(meta.kind) != Directory
    ensures var c := CountedCounters(st.counters, meta);
      var (e, links) := CountedEntry(env, st, path, meta);
      Accounted(st, [e], ScanState(c.(files := c.files + 1), links, st.nextId + 1))
  {
    var c := CountedCounters(st.counters, meta);
    var (e, links) := CountedEntry(env, st, path, meta);
    var key := KeyOf(meta);
    assert e.device == key.device && e.inode == key.inode;
    if meta.nlink > 1 && GetEntryType(meta.kind) == File {
      if key in st.links {
        assert e.entryType == Hardlink && links == st.links[key := st.links[key].(linksInTree := st.links[key].linksInTree + 1)];
      } else {
        assert e.entryType == File && e.nlink == U32(meta.nlink);
        assert links == st.links[key := links[key]] && links[key].totalLinks == U32(meta.nlink);
      }
    } else {
      assert e.entryType != Hardlink && links == st.links;
      assert e.entryType == File ==> e.nlink <= 1;
    }
    LeafAccounted(st, e, ScanState(c.(files := c.files + 1), links, st.nextId + 1));
  }

  /** A directory's children are accounted for; the directory itself
      stays a Directory, is Excluded, or becomes an Error leaf. */
  lemma {:induction false} DirectoryAccounted(env: ScanEnv, st: ScanState, path: string, node: FsNode, entry: Entry)
    requires entry.children == [] && entry.entryType == Directory
    ensures var (r, st2) := ScanDirectoryNode(env, st, path, node, entry);
      r.size == entry.size && r.blocks == entry.blocks && r.entryType in {Directory, Excluded, Error}
      && (r.entryType != Error ==> Accounted(st, r.children, st2))
      && (r.entryType == Error ==> r.children == [] && st2 == st.(counters := st.counters.(errors := st.counters.errors + 1)))
    decreases node, 1, 0
  {
    if !(env.config.scan.excludeCaches && node.hasCacheTag) && node.listing.Listed? {
      var (es, st2) := ScanItems(env, st, path, node, |node.listing.items|);
      ItemsAccounted(env, st, path, node, |node.listing.items|);
      AccountedSorted(st, es, st2, SortKeyOf(env.config));
    }
  }

  lemma {:induction false} ItemsAccounted(env: ScanEnv, st: ScanState, dir: string, node: FsNode, n: nat)
    requires node.listing.Listed? && n <= |node.listing.items|
    ensures var (es, st2) := ScanItems(env, st, dir, node, n); Accounted(st, es, st2)
    decreases node, 0, n
  {
    if n > 0 {
      var (prev, st1) := ScanItems(env, st, dir, node, n - 1);
      ItemsAccounted(env, st, dir, node, n - 1);
      match node.listing.items[n - 1]
      case BadItem(_) =>
      case Found(child) =>
        if ShouldIncludeEntry(env.config, child.name) {
          NodeAccounted(env, st1, Utils.PathJoin(dir, child.name), child);
          var (e, st2) := ScanNode(env, st1, Utils.PathJoin(dir, child.name), child);
          AccountedSnoc(st, prev, st1, e, st2);
        }
    }
  }

  /** The statistics a finished scan prints agree with the tree it
      returns: total size, blocks and error entries are those of the tree,
      every counted entry is a directory or a file, one id was drawn per
      entry, and each registered hard-link key was recorded once for its
      first sighting and once more for each Hardlink entry with that key.
      The first sighting stays a File entry: a registered key has exactly
      one when its recorded link total (the u32 cast of `nlink`) exceeds
      one, and a key never registered has none, so no hard-linked file is
      counted twice. */
  lemma ScanTotals(config: ConfigData, glob: GlobEngine, path: string, root: FsNode, firstId: nat)
    requires ScanResult(config, glob, path, root, firstId).Ok?
    ensures var (e, st) := ScanResult(config, glob, path, root, firstId).value;
      st.counters.totalSize == TotalSize(e) && st.counters.totalBlocks == TotalBlocks(e)
      && st.counters.errors == ErrorCount(e)
      && st.counters.totalEntries == st.counters.directories + st.counters.files
      && st.nextId == firstId + TotalItems(e)
      && (forall key :: key in st.links ==> st.links[key].linksInTree == 1 + LinkCount(e, key))
      && (forall key :: LinkCount(e, key) > 0 ==> key in st.links)
      && (forall key :: key in st.links ==> SightingCount(e, key) == (if st.links[key].totalLinks > 1 then 1 else 0))
      && (forall key :: key !in st.links ==> SightingCount(e, key) == 0)
  {
    var device := RootDevice(config, path, root).value;
    var env := ScanEnv(config, glob, device);
    NodeAccounted(env, InitialState(firstId), path, root);
    var (e, st) := ScanNode(env, InitialState(firstId), path, root);
    SingleSums(e);
  }

  // ---------------------------------------------------------------------
  // Per-entry outcomes

  /** Every entry is named after the last component of its path ... */
  lemma ScanNodeName(env: ScanEnv, st: ScanState, path: string, node: FsNode)
    ensures ScanNode(env, st, path, node).0.name == EntryName(path)
  {
    match MetadataOf(env.config, node)
    case Err(_) =>
    case Ok(meta) =>
      if SkipType(env, path, meta).None? {
        ScanNodeCounted(env, st, path, node);
        if GetEntryType(meta.kind) == Directory {
          ScanCountedDirectory(env, st, path, node, meta);
        } else {
          ScanCountedFile(env, st, path, node, meta);
        }
      }
  }

  /** ... so a child is named as its directory lists it. */
  lemma ChildNamedAsListed(env: ScanEnv, st: ScanState, dir: string, name: string, node: FsNode)
    requires Utils.IsPlainName(name)
    ensures ScanNode(env, st, Utils.PathJoin(dir, name), node).0.name == name
  {
    ScanNodeName(env, st, Utils.PathJoin(dir, name), node);
    Utils.FileNameOfJoin(dir, name);
  }

  /** Unreadable metadata gives an Error leaf and counts one error. */
  lemma MetadataErrorLeaf(env: ScanEnv, st: ScanState, path: string, node: FsNode)
    requires MetadataOf(env.config, node).Err?
    ensures var (e, st2) := ScanNode(env, st, path, node);
      e.entryType == Error && e.size == 0 && e.blocks == 0 && e.children == []
      && e.error == Some("Cannot read metadata: " + MetadataOf(env.config, node).error.message)
      && st2.counters == st.counters.(errors := st.counters.errors + 1)
      && st2.links == st.links && st2.nextId == st.nextId + 1
  {
  }

  /** An entry on another file system, on a kernel file system or matching
      an exclude pattern becomes a placeholder of that type which occupies
      nothing and leaves the statistics and the registry alone. */
  lemma PlaceholderUncounted(env: ScanEnv, st: ScanState, path: string, node: FsNode)
    requires MetadataOf(env.config, node).Ok?
    requires SkipType(env, path, MetadataOf(env.config, node).value).Some?
    ensures var (e, st2) := ScanNode(env, st, path, node);
      e.entryType in {OtherFs, KernelFs, Excluded} && e.size == 0 && e.blocks == 0 && e.children == []
      && e.error.None? && st2.counters == st.counters && st2.links == st.links
      && st2.nextId == st.nextId + 1
  {
  }

  /** The checks are made in order: unreadable metadata first, then
      another file system, then a kernel file system, then the exclude
      patterns; only an entry that passes them all gets its real type. */
  lemma ScanPrecedence(env: ScanEnv, st: ScanState, path: string, node: FsNode)
    ensures var e := ScanNode(env, st, path, node).0;
      var m := MetadataOf(env.config, node);
      (e.entryType == OtherFs <==> m.Ok? && IsDifferentFilesystem(env.config, env.rootDevice, m.value.dev))
      && (e.entryType == KernelFs <==>
            m.Ok? && !IsDifferentFilesystem(env.config, env.rootDevice, m.value.dev)
            && IsKernelFilesystem(env.config, path))
      && (e.entryType == Excluded ==>
            m.Ok? && !IsDifferentFilesystem(env.config, env.rootDevice, m.value.dev)
            && !IsKernelFilesystem(env.config, path)
            && (IsExcludedByPattern(env.config, env.glob, path)
                || (m.value.kind == KindDir && env.config.scan.excludeCaches && node.hasCacheTag)))
  {
    match MetadataOf(env.config, node)
    case Err(_) =>
    case Ok(meta) =>
      if SkipType(env, path, meta).None? {
        ScanNodeCounted(env, st, path, node);
        CountedEntryShape(env, st, path, meta);
        if GetEntryType(meta.kind) == Directory {
          ScanCountedDirectory(env, st, path, node, meta);
        } else {
          ScanCountedFile(env, st, path, node, meta);
        }
      }
  }

  /** A directory tagged as a cache is Excluded but keeps its own size and
      blocks, and is counted as an entry and as a directory. */
  lemma CacheTaggedDirectory(env: ScanEnv, st: ScanState, path: string, node: FsNode)
    requires MetadataOf(env.config, node).Ok?
    requires var meta := MetadataOf(env.config, node).value;
      SkipType(env, path, meta).None? && meta.kind == KindDir
    requires env.config.scan.excludeCaches && node.hasCacheTag
    ensures var meta := MetadataOf(env.config, node).value;
      var (e, st2) := ScanNode(env, st, path, node);
      e.entryType == Excluded && e.size == meta.len && e.blocks == meta.blocks && e.children == []
      && st2.counters == st.counters.(totalEntries := st.counters.totalEntries + 1,
                                      directories := st.counters.directories + 1,
                                      totalSize := st.counters.totalSize + meta.len,
                                      totalBlocks := st.counters.totalBlocks + meta.blocks)
  {
    var meta := MetadataOf(env.config, node).value;
    ScanNodeCounted(env, st, path, node);
    CountedEntryShape(env, st, path, meta);
    ScanCountedDirectory(env, st, path, node, meta);
  }

  /** A directory that cannot be listed becomes an Error entry that keeps
      its own size, has no children and carries the message; one error is
      counted and the scan goes on. */
  lemma ListingFailureContained(env: ScanEnv, st: ScanState, path: string, node: FsNode)
    requires MetadataOf(env.config, node).Ok?
    requires var meta := MetadataOf(env.config, node).value;
      SkipType(env, path, meta).None? && meta.kind == KindDir
    requires !(env.config.scan.excludeCaches && node.hasCacheTag) && node.listing.Unlistable?
    ensures var meta := MetadataOf(env.config, node).value;
      var (e, st2) := ScanNode(env, st, path, node);
      e.entryType == Error && e.size == meta.len && e.children == []
      && e.error == Some(DirectoryError(ListingError(path, node.listing.listError)))
      && st2.counters.errors == st.counters.errors + 1
      && st2.counters.directories == st.counters.directories + 1
  {
    var meta := MetadataOf(env.config, node).value;
    ScanNodeCounted(env, st, path, node);
    CountedEntryShape(env, st, path, meta);
    ScanCountedDirectory(env, st, path, node, meta);
  }

  /** A file with more than one link: its first sighting is registered
      with one link in the tree and stays a File; a later sighting raises
      the registered count and becomes a Hardlink. */
  lemma HardlinkSighting(env: ScanEnv, st: ScanState, path: string, node: FsNode)
    requires MetadataOf(env.config, node).Ok?
    requires var meta := MetadataOf(env.config, node).value;
      SkipType(env, path, meta).None? && GetEntryType(meta.kind) == File && meta.nlink > 1
    ensures var meta := MetadataOf(env.config, node).value;
      var key := HardlinkKey(U32(meta.dev), meta.ino);
      var (e, st2) := ScanNode(env, st, path, node);
      (key !in st.links ==>
         e.entryType == File && key in st2.links
         && st2.links[key].linksInTree == 1 && st2.links[key].totalLinks == U32(meta.nlink)
         && st2.links[key].firstEntry.entryType == File && st2.links == st.links[key := st2.links[key]])
      && (key in st.links ==>
            e.entryType == Hardlink
            && st2.links == st.links[key := st.links[key].(linksInTree := st.links[key].linksInTree + 1)])
  {
    var meta := MetadataOf(env.config, node).value;
    ScanNodeCounted(env, st, path, node);
    CountedEntryShape(env, st, path, meta);
    ScanCountedFile(env, st, path, node, meta);
  }

  /** Any other entry leaves the registry alone (a directory's children
      may still add to it). */
  lemma UnlinkedUnregistered(env: ScanEnv, st: ScanState, path: string, node: FsNode)
    requires MetadataOf(env.config, node).Ok?
    requires var meta := MetadataOf(env.config, node).value;
      GetEntryType(meta.kind) != Directory && !(GetEntryType(meta.kind) == File && meta.nlink > 1)
    ensures ScanNode(env, st, path, node).1.links == st.links
    ensures ScanNode(env, st, path, node).0.entryType != Hardlink
  {
  }

  /** The children of a listed directory are the scanned items, reordered
      by the configured ordering: a permutation, and sorted. */
  lemma ScannedChildrenSorted(env: ScanEnv, st: ScanState, path: string, node: FsNode)
    requires MetadataOf(env.config, node).Ok?
    requires var meta := MetadataOf(env.config, node).value;
      SkipType(env, path, meta).None? && meta.kind == KindDir
    requires !(env.config.scan.excludeCaches && node.hasCacheTag) && node.listing.Listed?
    ensures var meta := MetadataOf(env.config, node).value;
      var e := ScanNode(env, st, path, node).0;
      var items := ScanItems(env, DirectoryState(env, st, path, meta), path, node, |node.listing.items|).0;
      e.entryType == Directory
      && multiset(e.children) == multiset(items) && Sorted(e.children, SortKeyOf(env.config))
  {
    var meta := MetadataOf(env.config, node).value;
    ScanNodeCounted(env, st, path, node);
    CountedEntryShape(env, st, path, meta);
    ScanCountedDirectory(env, st, path, node, meta);
    var items := ScanItems(env, DirectoryState(env, st, path, meta), path, node, |node.listing.items|).0;
    StableSortPermutes(items, SortKeyOf(env.config));
    StableSortSorted(items, SortKeyOf(env.config));
  }

  /** The names of the items `scan_directory_contents` scans, in listing
      order: readable items whose names pass `should_include_entry`. */
  function IncludedNames(config: ConfigData, items: seq<DirItem>): seq<string> {
    if |items| == 0 then []
    else
      var last := items[|items| - 1];
      IncludedNames(config, items[..|items| - 1])
        + (if last.Found? && ShouldIncludeEntry(config, last.child.name) then [last.child.name] else [])
  }

  /** `scan_directory_contents` yields one child per included item, in
      listing order and named as listed. */
  lemma {:induction false} ContentsFollowListing(env: ScanEnv, st: ScanState, dir: string, node: FsNode, n: nat)
    requires node.listing.Listed? && n <= |node.listing.items|
    requires forall k :: 0 <= k < |node.listing.items| && node.listing.items[k].Found? ==>
      Utils.IsPlainName(node.listing.items[k].child.name)
    ensures Names(ScanItems(env, st, dir, node, n).0) == IncludedNames(env.config, node.listing.items[..n])
    decreases n
  {
    if n > 0 {
      var items := node.listing.items;
      ContentsFollowListing(env, st, dir, node, n - 1);
      assert items[..n][..n - 1] == items[..n - 1];
      var (prev, st1) := ScanItems(env, st, dir, node, n - 1);
      match items[n - 1]
      case BadItem(_) =>
      case Found(child) =>
        if ShouldIncludeEntry(env.config, child.name) {
          ChildNamedAsListed(env, st1, dir, child.name, child);
          var e := ScanNode(env, st1, Utils.PathJoin(dir, child.name), child).0;
          assert (prev + [e])[..|prev|] == prev;
        }
    }
  }

  // ---------------------------------------------------------------------
  // The pure checks

  /** Kernel file systems are only skipped when asked to. */
  lemma KernelFsOff(config: ConfigData, path: string)
    requires !config.scan.excludeKernfs
    ensures !IsKernelFilesystem(config, path)
  {
  }

  /** A mount point itself and everything below it are kernel file
      systems ... */
  lemma KernelMountAndBelow(config: ConfigData, k: nat, rest: string)
    requires config.scan.excludeKernfs && k < |PSEUDO_FS|
    requires |rest| == 0 || rest[0] == '/'
    ensures IsKernelFilesystem(config, PSEUDO_FS[k] + rest)
  {
    var path := PSEUDO_FS[k] + rest;
    assert path[..|PSEUDO_FS[k]|] == PSEUDO_FS[k];
    assert UnderMount(path, PSEUDO_FS[k]);
  }

  /** ... but a name that merely starts like one is not below it. */
  lemma NotUnderMountWithoutSeparator(mount: string, rest: string)
    requires |rest| > 0 && rest[0] != '/'
    ensures !UnderMount(mount + rest, mount)
  {
    assert (mount + rest)[|mount|] == rest[0];
  }

  /** "/procfoo" is not a kernel file system. */
  lemma ProcfooNotKernel(config: ConfigData)
    ensures !IsKernelFilesystem(config, "/proc" + "foo")
  {
    var path := "/proc" + "foo";
    NotUnderMountWithoutSeparator("/proc", "foo");
    forall k | 0 <= k < |PSEUDO_FS|
      ensures !UnderMount(path, PSEUDO_FS[k])
    {
      if k > 0 {
        var m := PSEUDO_FS[k];
        if StartsWith(path, m) {
          assert path[..|m|][1] == m[1];
        }
      }
    }
  }

  /** "." and ".." are never scanned ... */
  lemma DotEntriesExcluded(config: ConfigData)
    ensures !ShouldIncludeEntry(config, ".") && !ShouldIncludeEntry(config, "..")
  {
  }

  /** ... another name starting with '.' is scanned exactly when hidden
      files are shown ... */
  lemma HiddenNamesFollowSetting(config: ConfigData, name: string)
    requires |name| > 0 && name[0] == '.' && name != "." && name != ".."
    ensures ShouldIncludeEntry(config, name) <==> config.display.showHidden
  {
  }

  /** ... and any other name always is. */
  lemma VisibleNamesIncluded(config: ConfigData, name: string)
    requires |name| > 0 && name[0] != '.'
    ensures ShouldIncludeEntry(config, name)
  {
  }

  /** `get_entry_type` yields only real types, and a directory exactly for
      a directory. */
  lemma EntryTypeOfKind(kind: FileKind)
    ensures GetEntryType(kind) in {Directory, File, Symlink, Special}
    ensures GetEntryType(kind).IsDirectory() <==> kind == KindDir
    ensures GetEntryType(kind) == File <==> kind == KindFile || kind == KindOther
  {
  }

  /** Pattern compilation succeeds exactly when every pattern is accepted,
      and otherwise reports the first rejected one. */
  lemma {:induction false} PatternCheckFindsFirstInvalid(patterns: seq<string>, glob: GlobEngine)
    ensures PatternCheck(patterns, glob).Ok? <==> forall k :: 0 <= k < |patterns| ==> glob.patternError(patterns[k]).None?
    ensures PatternCheck(patterns, glob).Err? ==>
      exists k :: 0 <= k < |patterns| && (forall j :: 0 <= j < k ==> glob.patternError(patterns[j]).None?)
        && glob.patternError(patterns[k]).Some?
        && PatternCheck(patterns, glob).error == PatternError(patterns[k], glob.patternError(patterns[k]).value)
  {
    if |patterns| > 0 {
      PatternCheckFindsFirstInvalid(patterns[1..], glob);
      if glob.patternError(patterns[0]).None? {
        if PatternCheck(patterns, glob).Err? {
          var k :| 0 <= k < |patterns[1..]|
            && (forall j :: 0 <= j < k ==> glob.patternError(patterns[1..][j]).None?)
            && glob.patternError(patterns[1..][k]).Some?
            && PatternCheck(patterns[1..], glob).error
                 == PatternError(patterns[1..][k], glob.patternError(patterns[1..][k]).value);
          assert forall j :: 0 <= j < k + 1 ==> glob.patternError(patterns[j]).None? by {
            forall j | 0 <= j < k + 1 ensures glob.patternError(patterns[j]).None? {
              if j > 0 { assert patterns[j] == patterns[1..][j - 1]; }
            }
          }
        }
        assert forall k :: 0 < k < |patterns| ==> patterns[k] == patterns[1..][k - 1];
      }
    }
  }

  // ---------------------------------------------------------------------
  // Natural order of the scanner (over-long numbers saturate)

  /** `u64::saturating_mul` and `u64::saturating_add` on values in range. */
  function SaturatingMul(a: nat, b: nat): nat {
    Min(a * b, U64_MAX)
  }

  function SaturatingAdd(a: nat, b: nat): nat {
    Min(a + b, U64_MAX)
  }

  /** Saturating after every digit equals saturating once at the end. */
  lemma SaturatingStep(run: string, d: char)
    requires AllDigits(run) && IsAsciiDigit(d)
    ensures AllDigits(run + [d])
    ensures SaturatingAdd(SaturatingMul(Min(DecimalValue(run), U64_MAX), 10), DigitValue(d))
      == Min(DecimalValue(run + [d]), U64_MAX)
  {
    assert (run + [d])[..|run|] == run;
    var v := DecimalValue(run);
    assert DecimalValue(run + [d]) == v * 10 + DigitValue(d);
    if v <= U64_MAX {
      assert Min(v, U64_MAX) * 10 == v * 10;
    } else {
      assert U64_MAX * 10 >= U64_MAX;
    }
  }

  /** `extract_number` of the scanner: consumes the maximal digit run at
      `start` and values it, saturating at `u64::MAX`. */
  method ExtractNumber(s: string, start: nat) returns (num: nat, next: nat)
    requires start <= |s|
    ensures start <= next <= |s| && AllDigits(s[start..next])
    ensures next < |s| ==> !IsAsciiDigit(s[next])
    ensures num == RunValue(s[start..next], Saturate)
  {
    num := 0;
    next := start;
    while next < |s| && IsAsciiDigit(s[next])
      invariant start <= next <= |s| && AllDigits(s[start..next])
      invariant num == Min(DecimalValue(s[start..next]), U64_MAX)
    {
      SaturatingStep(s[start..next], s[next]);
      assert s[start..next + 1] == s[start..next] + [s[next]];
      num := SaturatingAdd(SaturatingMul(num, 10), DigitValue(s[next]));
      next := next + 1;
    }
  }

  /** `natural_sort`: the order `sort_entries` uses for names when natural
      sorting is on. */
  method NaturalSort(a: string, b: string) returns (r: Ordering)
    ensures r == NaturalOrder(a, b, Saturate)
  {
    var i, j := 0, 0;
    while true
      invariant 0 <= i <= |a| && 0 <= j <= |b|
      invariant NaturalOrder(a, b, Saturate) == CompareTokens(Tokens(a[i..], Saturate), Tokens(b[j..], Saturate))
      decreases |a| - i
    {
      if i == |a| && j == |b| {
        return Equal;
      } else if i == |a| {
        return Less;
      } else if j == |b| {
        return Greater;
      }
      if IsAsciiDigit(a[i]) && IsAsciiDigit(b[j]) {
        var an, ai := ExtractNumber(a, i);
        var bn, bj := ExtractNumber(b, j);
        NumberTokenStep(a, i, ai, Saturate);
        NumberTokenStep(b, j, bj, Saturate);
        if an != bn {
          return CompareInt(an, bn);
        }
        i, j := ai, bj;
      } else {
        if IsAsciiDigit(a[i]) {
          FirstTokenIsNumber(a[i..], Saturate);
          CharTokenStep(b, j, Saturate);
          MixedCharStep(a[i], b[j], Tokens(a[i..], Saturate)[0].value);
          return CompareChar(a[i], b[j]);
        } else if IsAsciiDigit(b[j]) {
          CharTokenStep(a, i, Saturate);
          FirstTokenIsNumber(b[j..], Saturate);
          MixedCharStep(a[i], b[j], Tokens(b[j..], Saturate)[0].value);
          return CompareChar(a[i], b[j]);
        }
        CharTokenStep(a, i, Saturate);
        CharTokenStep(b, j, Saturate);
        if a[i] != b[j] {
          return CompareChar(a[i], b[j]);
        }
        i, j := i + 1, j + 1;
      }
    }
  }

  /** The module's tests: "file1" before "file2" ... */
  lemma NaturalSortSmallerNumber()
    ensures NaturalOrder("file" + "1", "file" + "2", Saturate) == Less
  {
    CompareNumberedNames("file", "1", "2", "", Saturate);
    assert "file" + "1" + "" == "file" + "1" && "file" + "2" + "" == "file" + "2";
  }

  /** ... "file10" after "file2" ... */
  lemma NaturalSortLargerNumber()
    ensures NaturalOrder("file" + "10", "file" + "2", Saturate) == Greater
  {
    CompareNumberedNames("file", "10", "2", "", Saturate);
    assert "file" + "10" + "" == "file" + "10" && "file" + "2" + "" == "file" + "2";
    assert DecimalValue("10") == 10;
  }

  /** ... and leading zeros do not count: "file01" equals "file1". */
  lemma NaturalSortLeadingZero()
    ensures NaturalOrder("file" + "01", "file" + "1", Saturate) == Equal
  {
    CompareNumberedNames("file", "01", "1", "", Saturate);
    assert "file" + "01" + "" == "file" + "01" && "file" + "1" + "" == "file" + "1";
    assert DecimalValue("01") == 1;
  }

  /** `extract_number` on "123abc" yields 123 and leaves 'a' next. */
  method ExtractNumberTest() returns (num: nat, following: char)
    ensures num == 123 && following == 'a'
  {
    var s := "123abc";
    var next;
    num, next := ExtractNumber(s, 0);
    if next != 3 {
      assert false;
    }
    assert s[0..3] == "123";
    assert DecimalValue("1") == 1 by { assert "1"[..0] == []; }
    assert DecimalValue("12") == 12 by { assert "12"[..1] == "1"; }
    assert DecimalValue("123") == 123 by { assert "123"[..2] == "12"; }
    following := s[next];
  }
}
