/** Command-line arguments (src/cli.rs): the parsed `Args` record, its
    consistency check `Args::validate`, and the `--sort` format check.
    Parsing the command line itself is the job of an argument-parser
    library and is not modelled; `Args` is its result. */
module Cli {
  import opened Wrappers
  import opened Strings

  datatype GraphStyle = Hash | HalfBlock | EighthBlock
  datatype SharedColumn = Off | Shared | Unique
  datatype ColorScheme = Off | Dark | DarkBg

  /** The parsed command line. Numeric options keep the value the parser
      accepted for their Rust type (`usize`, `u8`, `u16`). */
  datatype Args = Args(
    directory: Option<string>,
    importFile: Option<string>,
    exportJson: Option<string>,
    exportBinary: Option<string>,
    sameFs: bool,
    crossFs: bool,
    extended: bool,
    noExtended: bool,
    followSymlinks: bool,
    noFollowSymlinks: bool,
    exclude: seq<string>,
    excludeFrom: Option<string>,
    excludeCaches: bool,
    includeCaches: bool,
    excludeKernfs: bool,
    includeKernfs: bool,
    threads: Option<nat>,
    compress: bool,
    noCompress: bool,
    compressLevel: Option<nat>,
    exportBlockSize: Option<nat>,
    uiNone: bool,
    uiLine: bool,
    uiFull: bool,
    slowUpdates: bool,
    fastUpdates: bool,
    enableShell: bool,
    disableShell: bool,
    enableDelete: bool,
    disableDelete: bool,
    enableRefresh: bool,
    disableRefresh: bool,
    readOnly: bool,
    si: bool,
    noSi: bool,
    apparentSize: bool,
    diskUsage: bool,
    showHidden: bool,
    hideHidden: bool,
    showItemcount: bool,
    hideItemcount: bool,
    showMtime: bool,
    hideMtime: bool,
    showGraph: bool,
    hideGraph: bool,
    showPercent: bool,
    hidePercent: bool,
    graphStyle: Option<GraphStyle>,
    sharedColumn: Option<SharedColumn>,
    sort: Option<string>,
    enableNatsort: bool,
    disableNatsort: bool,
    groupDirectoriesFirst: bool,
    noGroupDirectoriesFirst: bool,
    confirmQuit: bool,
    noConfirmQuit: bool,
    confirmDelete: bool,
    noConfirmDelete: bool,
    deleteCommand: Option<string>,
    color: Option<ColorScheme>,
    ignoreConfig: bool)

  /** A command line with no option given. */
  function NoArgs(): Args {
    Args(None, None, None, None, false, false, false, false, false, false, [], None,
         false, false, false, false, None, false, false, None, None, false, false, false,
         false, false, false, false, false, false, false, false, false, false, false, false,
         false, false, false, false, false, false, false, false, false, false, false, None,
         None, None, false, false, false, false, false, false, false, false, None, None, false)
  }

  function B2N(b: bool): nat {
    if b then 1 else 0
  }

  /** How many of the three scan-UI modes are requested. */
  function UiModeCount(a: Args): nat {
    B2N(a.uiNone) + B2N(a.uiLine) + B2N(a.uiFull)
  }

  const VALID_COLUMNS: seq<string> := ["name", "disk-usage", "apparent-size", "itemcount", "mtime"]
  const VALID_ORDERS: seq<string> := ["asc", "desc"]

  /** `is_valid_sort_option`: with a `-`, the text before the last one must
      be a column and the text after it an order; without, a column. */
  predicate IsValidSortOption(sort: string) {
    match RSplitOnce(sort, '-')
    case Some((column, order)) => column in VALID_COLUMNS && order in VALID_ORDERS
    case None => sort in VALID_COLUMNS
  }

  /** The checks `Args::validate` makes, in the order it makes them. */
  datatype Check =
    | OneUiMode
    | Exclusive(pair: nat)
    | ThreadsPositive
    | CompressLevelRange
    | BlockSizeRange
    | SortOptionValid

  /** The first check the command line fails, if any. */
  function FailedCheck(a: Args): Option<Check> {
    if UiModeCount(a) > 1 then Some(OneUiMode)
    else if a.sameFs && a.crossFs then Some(Exclusive(0))
    else if a.extended && a.noExtended then Some(Exclusive(1))
    else if a.followSymlinks && a.noFollowSymlinks then Some(Exclusive(2))
    else if a.excludeCaches && a.includeCaches then Some(Exclusive(3))
    else if a.excludeKernfs && a.includeKernfs then Some(Exclusive(4))
    else if a.compress && a.noCompress then Some(Exclusive(5))
    else if a.si && a.noSi then Some(Exclusive(6))
    else if a.apparentSize && a.diskUsage then Some(Exclusive(7))
    else if a.showHidden && a.hideHidden then Some(Exclusive(8))
    else if a.enableNatsort && a.disableNatsort then Some(Exclusive(9))
    else if a.groupDirectoriesFirst && a.noGroupDirectoriesFirst then Some(Exclusive(10))
    else if a.confirmQuit && a.noConfirmQuit then Some(Exclusive(11))
    else if a.confirmDelete && a.noConfirmDelete then Some(Exclusive(12))
    else if a.threads == Some(0) then Some(ThreadsPositive)
    else if a.compressLevel.Some? && !(1 <= a.compressLevel.value <= 22) then Some(CompressLevelRange)
    else if a.exportBlockSize.Some? && !(4 <= a.exportBlockSize.value <= 16000) then Some(BlockSizeRange)
    else if a.sort.Some? && !IsValidSortOption(a.sort.value) then Some(SortOptionValid)
    else None
  }

  /** The flag pairs in the order `Args::validate` checks them. */
  const EXCLUSIVE_PAIRS: seq<(string, string)> := [
    ("--one-file-system", "--cross-file-system"), ("--extended", "--no-extended"),
    ("--follow-symlinks", "--no-follow-symlinks"), ("--exclude-caches", "--include-caches"),
    ("--exclude-kernfs", "--include-kernfs"), ("--compress", "--no-compress"), ("--si", "--no-si"),
    ("--apparent-size", "--disk-usage"), ("--show-hidden", "--hide-hidden"),
    ("--enable-natsort", "--disable-natsort"), ("--group-directories-first", "--no-group-directories-first"),
    ("--confirm-quit", "--no-confirm-quit"), ("--confirm-delete", "--no-confirm-delete")]

  /** The message a failed check reports. */
  function CheckMessage(c: Check, sort: string): string {
    match c
    case OneUiMode => "Only one UI mode can be specified"
    case Exclusive(i) =>
      if i < |EXCLUSIVE_PAIRS| then EXCLUSIVE_PAIRS[i].0 + " and " + EXCLUSIVE_PAIRS[i].1 + " are mutually exclusive"
      else ""
    case ThreadsPositive => "Number of threads must be greater than 0"
    case CompressLevelRange => "Compression level must be between 1 and 22"
    case BlockSizeRange => "Export block size must be between 4 and 16000 KiB"
    case SortOptionValid => "Invalid sort option: " + sort
  }

  /** `Args::validate`: the first failing check gives the message. */
  function Validate(a: Args): Result<(), string> {
    match FailedCheck(a)
    case None => Ok(())
    case Some(c) => Err(CheckMessage(c, a.sort.GetOr("")))
  }

  // ---------------------------------------------------------------------
  // Reference definition of a consistent command line

  /** For each pair of options that contradict each other: are both given? */
  function Conflicts(a: Args): seq<bool> {
    [a.sameFs && a.crossFs, a.extended && a.noExtended, a.followSymlinks && a.noFollowSymlinks,
     a.excludeCaches && a.includeCaches, a.excludeKernfs && a.includeKernfs, a.compress && a.noCompress,
     a.si && a.noSi, a.apparentSize && a.diskUsage, a.showHidden && a.hideHidden,
     a.enableNatsort && a.disableNatsort, a.groupDirectoriesFirst && a.noGroupDirectoriesFirst,
     a.confirmQuit && a.noConfirmQuit, a.confirmDelete && a.noConfirmDelete]
  }

  /** No contradicting pair is given together. */
  predicate NoConflicts(a: Args) {
    !(a.sameFs && a.crossFs) && !(a.extended && a.noExtended) && !(a.followSymlinks && a.noFollowSymlinks)
    && !(a.excludeCaches && a.includeCaches) && !(a.excludeKernfs && a.includeKernfs) && !(a.compress && a.noCompress)
    && !(a.si && a.noSi) && !(a.apparentSize && a.diskUsage) && !(a.showHidden && a.hideHidden)
    && !(a.enableNatsort && a.disableNatsort) && !(a.groupDirectoriesFirst && a.noGroupDirectoriesFirst)
    && !(a.confirmQuit && a.noConfirmQuit) && !(a.confirmDelete && a.noConfirmDelete)
  }

  /** A pair listed in `Conflicts` is a pair `NoConflicts` excludes. */
  lemma ConflictExcluded(a: Args, i: nat)
    requires i < |Conflicts(a)| && Conflicts(a)[i]
    ensures !NoConflicts(a)
  {
  }

  predicate InRange(v: Option<nat>, lo: nat, hi: nat) {
    v.None? || lo <= v.value <= hi
  }

  /** A command line is consistent when at most one UI mode is chosen, no
      contradicting pair is given together, the numbers lie in their
      ranges and the sort option is well formed. */
  predicate Consistent(a: Args) {
    UiModeCount(a) <= 1
    && NoConflicts(a)
    && a.threads != Some(0)
    && InRange(a.compressLevel, 1, 22)
    && InRange(a.exportBlockSize, 4, 16000)
    && (a.sort.Some? ==> IsValidSortOption(a.sort.value))
  }

  lemma ValidateOkIffConsistent(a: Args)
    ensures Validate(a).Ok? <==> Consistent(a)
  {
    if Validate(a).Ok? { OkMeansConsistent(a); }
    if Consistent(a) { ConsistentMeansOk(a); }
  }

  lemma OkMeansConsistent(a: Args)
    requires Validate(a).Ok?
    ensures Consistent(a)
  {
  }

  lemma ConsistentMeansOk(a: Args)
    requires Consistent(a)
    ensures Validate(a).Ok?
  {
  }

  /** Requesting two UI modes is the first thing reported. */
  lemma TwoUiModesRejected(a: Args)
    requires UiModeCount(a) >= 2
    ensures Validate(a) == Err("Only one UI mode can be specified")
  {
  }

  /** Giving both options of any contradicting pair fails. */
  lemma ExclusivePairRejected(a: Args, i: nat)
    requires i < |Conflicts(a)| && Conflicts(a)[i]
    ensures Validate(a).Err?
  {
    ConflictExcluded(a, i);
    ValidateOkIffConsistent(a);
  }

  /** Zero threads, a compression level outside 1..=22 and a block size
      outside 4..=16000 are each rejected. */
  lemma NumericRangesChecked(a: Args)
    requires a.threads == Some(0) || !InRange(a.compressLevel, 1, 22) || !InRange(a.exportBlockSize, 4, 16000)
    ensures Validate(a).Err?
  {
    ValidateOkIffConsistent(a);
  }

  /** A command line without options is accepted, and one with both
      `--one-file-system` and `--cross-file-system` fails the first pair
      check. */
  lemma ValidateExamples()
    ensures Validate(NoArgs()) == Ok(())
    ensures Validate(NoArgs().(sameFs := true, crossFs := true)).Err?
    ensures FailedCheck(NoArgs().(sameFs := true, crossFs := true)) == Some(Exclusive(0))
  {
  }

  /** Some opposite options are not among the checked pairs: asking for
      both `--enable-shell` and `--disable-shell`, or both slow and fast UI
      updates, passes validation. */
  lemma UncheckedPairsAccepted()
    ensures Validate(NoArgs().(enableShell := true, disableShell := true)) == Ok(())
    ensures Validate(NoArgs().(slowUpdates := true, fastUpdates := true)) == Ok(())
  {
  }

  // ---------------------------------------------------------------------
  // The sort option, enumerated

  /** Every text `is_valid_sort_option` accepts. */
  const ACCEPTED_SORT_OPTIONS: set<string> := {
    "name", "itemcount", "mtime",
    "name-asc", "name-desc", "disk-usage-asc", "disk-usage-desc",
    "apparent-size-asc", "apparent-size-desc", "itemcount-asc", "itemcount-desc",
    "mtime-asc", "mtime-desc"}

  lemma SortOptionWithOrder(column: string, order: string)
    requires column in VALID_COLUMNS && order in VALID_ORDERS
    ensures IsValidSortOption(column + "-" + order)
  {
    assert '-' !in order;
    RSplitOnceAt(column, order, '-');
  }

  /** The accepted sort options are exactly the thirteen above: a column
      with an order, or one of the three columns without a `-` in its name
      alone. In particular the bare "disk-usage" and "apparent-size" are
      rejected, since their own `-` is taken as the order separator. */
  lemma SortOptionsEnumerated(sort: string)
    ensures IsValidSortOption(sort) <==> sort in ACCEPTED_SORT_OPTIONS
  {
    if sort in ACCEPTED_SORT_OPTIONS {
      AcceptedIsValid(sort);
    }
    if IsValidSortOption(sort) {
      ValidIsAccepted(sort);
    }
  }

  lemma AcceptedIsValid(sort: string)
    requires sort in ACCEPTED_SORT_OPTIONS
    ensures IsValidSortOption(sort)
  {
    if sort == "name" || sort == "itemcount" || sort == "mtime" {
      assert '-' !in sort;
    } else {
      AcceptedWithOrder(sort);
    }
  }

  lemma AcceptedWithOrder(sort: string)
    requires sort in ACCEPTED_SORT_OPTIONS - {"name", "itemcount", "mtime"}
    ensures IsValidSortOption(sort)
  {
    if sort == "name-asc" {
      assert sort == "name" + "-" + "asc";
      SortOptionWithOrder("name", "asc");
    } else if sort == "name-desc" {
      assert sort == "name" + "-" + "desc";
      SortOptionWithOrder("name", "desc");
    } else if sort == "disk-usage-asc" {
      assert sort == "disk-usage" + "-" + "asc";
      SortOptionWithOrder("disk-usage", "asc");
    } else if sort == "disk-usage-desc" {
      assert sort == "disk-usage" + "-" + "desc";
      SortOptionWithOrder("disk-usage", "desc");
    } else if sort == "apparent-size-asc" {
      assert sort == "apparent-size" + "-" + "asc";
      SortOptionWithOrder("apparent-size", "asc");
    } else if sort == "apparent-size-desc" {
      assert sort == "apparent-size" + "-" + "desc";
      SortOptionWithOrder("apparent-size", "desc");
    } else if sort == "itemcount-asc" {
      assert sort == "itemcount" + "-" + "asc";
      SortOptionWithOrder("itemcount", "asc");
    } else if sort == "itemcount-desc" {
      assert sort == "itemcount" + "-" + "desc";
      SortOptionWithOrder("itemcount", "desc");
    } else if sort == "mtime-asc" {
      assert sort == "mtime" + "-" + "asc";
      SortOptionWithOrder("mtime", "asc");
    } else if sort == "mtime-desc" {
      assert sort == "mtime" + "-" + "desc";
      SortOptionWithOrder("mtime", "desc");
    }
  }

  lemma ValidIsAccepted(sort: string)
    requires IsValidSortOption(sort)
    ensures sort in ACCEPTED_SORT_OPTIONS
  {
    match RSplitOnce(sort, '-')
    case Some((column, order)) =>
      ColumnWithOrderAccepted(column, order);
    case None =>
      LoneColumnAccepted(sort);
  }

  lemma ColumnWithOrderAccepted(column: string, order: string)
    requires column in VALID_COLUMNS && order in VALID_ORDERS
    ensures column + "-" + order in ACCEPTED_SORT_OPTIONS
  {
    if column == "name" && order == "asc" {
      assert column + "-" + order == "name-asc";
    } else if column == "name" && order == "desc" {
      assert column + "-" + order == "name-desc";
    } else if column == "disk-usage" && order == "asc" {
      assert column + "-" + order == "disk-usage-asc";
    } else if column == "disk-usage" && order == "desc" {
      assert column + "-" + order == "disk-usage-desc";
    } else if column == "apparent-size" && order == "asc" {
      assert column + "-" + order == "apparent-size-asc";
    } else if column == "apparent-size" && order == "desc" {
      assert column + "-" + order == "apparent-size-desc";
    } else if column == "itemcount" && order == "asc" {
      assert column + "-" + order == "itemcount-asc";
    } else if column == "itemcount" && order == "desc" {
      assert column + "-" + order == "itemcount-desc";
    } else if column == "mtime" && order == "asc" {
      assert column + "-" + order == "mtime-asc";
    } else if column == "mtime" && order == "desc" {
      assert column + "-" + order == "mtime-desc";
    }
  }

  lemma LoneColumnAccepted(sort: string)
    requires sort in VALID_COLUMNS && '-' !in sort
    ensures sort in ACCEPTED_SORT_OPTIONS
  {
    assert "disk-usage"[4] == '-' && "apparent-size"[8] == '-';
  }

  /** The accepted examples of the source's own test. */
  lemma SortOptionAcceptedExamples()
    ensures IsValidSortOption("name") && IsValidSortOption("name-asc") && IsValidSortOption("disk-usage-desc")
  {
    AcceptedIsValid("name");
    AcceptedIsValid("name-asc");
    AcceptedIsValid("disk-usage-desc");
  }

  /** The rejected examples of the source's own test. */
  lemma SortOptionRejectedExamples()
    ensures !IsValidSortOption("invalid") && !IsValidSortOption("name-invalid")
  {
    if IsValidSortOption("invalid") {
      ValidIsAccepted("invalid");
    }
    if IsValidSortOption("name-invalid") {
      ValidIsAccepted("name-invalid");
    }
  }

  /** The bare "disk-usage" column is rejected: its `-` is read as the
      separator before an order. */
  lemma BareDiskUsageInvalid()
    ensures !IsValidSortOption("disk-usage")
  {
    if IsValidSortOption("disk-usage") {
      ValidIsAccepted("disk-usage");
    }
  }
}
