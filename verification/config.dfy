/** Configuration (src/config.rs): the settings record, the `key=value`
    configuration-file parser with its flag and option setters, the
    `--sort` parser, merging of two configurations, the exclude-file line
    filter and the thread-count default. Reading files, the environment and
    the processor count are not modelled: file contents arrive as text and
    the processor count as a parameter `cpus`. The fields are grouped as
    the comments of the `Config` struct group them. */
module Configuration {
  import opened Wrappers
  import opened Strings
  import opened Natural
  import opened Cli
  import Model

  datatype ScanUi = UiNone | UiLine | UiFull

  /** Scan options. */
  datatype ScanOptions = ScanOptions(
    sameFs: bool,
    extended: bool,
    followSymlinks: bool,
    excludeCaches: bool,
    excludeKernfs: bool,
    threads: nat,
    excludePatterns: seq<string>)

  /** Export and import options. */
  datatype ExportOptions = ExportOptions(
    compress: bool,
    compressLevel: nat,
    exportBlockSize: Option<nat>,
    exportJson: Option<string>,
    exportBinary: Option<string>)

  /** User-interface options. */
  datatype UiOptions = UiOptions(
    scanUi: Option<ScanUi>,
    updateDelayMs: nat,
    si: bool,
    color: ColorScheme)

  /** Display options. */
  datatype DisplayOptions = DisplayOptions(
    showHidden: bool,
    showBlocks: bool,
    showShared: SharedColumn,
    showItems: bool,
    showMtime: bool,
    showGraph: bool,
    showPercent: bool,
    graphStyle: GraphStyle)

  /** Sorting options. */
  datatype SortOptions = SortOptions(
    sortCol: Model.SortColumn,
    sortOrder: Model.SortOrder,
    sortDirsFirst: bool,
    sortNatural: bool)

  /** Feature flags. */
  datatype FeatureFlags = FeatureFlags(
    canDelete: Option<bool>,
    canShell: Option<bool>,
    canRefresh: Option<bool>,
    confirmQuit: bool,
    confirmDelete: bool,
    deleteCommand: string)

  /** A snapshot of every `Config` field. */
  datatype ConfigData = ConfigData(
    scan: ScanOptions,
    exports: ExportOptions,
    ui: UiOptions,
    display: DisplayOptions,
    sorting: SortOptions,
    features: FeatureFlags,
    imported: bool)

  const USIZE_MAX: nat := 0xFFFF_FFFF_FFFF_FFFF
  const U8_MAX: nat := 0xFF
  const U16_MAX: nat := 0xFFFF

  /** `num_cpus::get().max(1)`. */
  function DefaultThreads(cpus: nat): (n: nat)
    ensures n >= 1 && (cpus >= 1 ==> n == cpus)
  {
    if cpus >= 1 then cpus else 1
  }

  /** `Config::default`. */
  function DefaultConfig(cpus: nat): (c: ConfigData)
    ensures !c.scan.sameFs && !c.scan.extended && c.scan.threads >= 1 && c.scan.excludePatterns == []
    ensures c.sorting.sortCol == Model.Size && c.sorting.sortOrder == Model.Desc
  {
    ConfigData(
      ScanOptions(false, false, false, false, false, DefaultThreads(cpus), []),
      ExportOptions(false, 4, None, None, None),
      UiOptions(None, 100, false, ColorScheme.Off),
      DisplayOptions(true, true, SharedColumn.Shared, false, false, true, false, Hash),
      SortOptions(Model.Size, Model.Desc, false, true),
      FeatureFlags(None, None, None, false, true, ""),
      false)
  }

  // ---------------------------------------------------------------------
  // Flags

  /** The settings a flag can switch; the last three are tri-state
      (`None` until set). */
  datatype Switch = SameFs | Extended | FollowSymlinks | ExcludeCaches | ExcludeKernfs | Compress | Si | ShowHidden | ShowBlocks | ShowItems | ShowMtime | ShowGraph | ShowPercent | SortDirsFirst | SortNatural | ConfirmQuit | ConfirmDelete | CanShell | CanDelete | CanRefresh

  /** The value of a switch, a two-state one as `Some`. */
  function SwitchValue(c: ConfigData, s: Switch): Option<bool> {
    match s
    case SameFs => Some(c.scan.sameFs)
    case Extended => Some(c.scan.extended)
    case FollowSymlinks => Some(c.scan.followSymlinks)
    case ExcludeCaches => Some(c.scan.excludeCaches)
    case ExcludeKernfs => Some(c.scan.excludeKernfs)
    case Compress => Some(c.exports.compress)
    case Si => Some(c.ui.si)
    case ShowHidden => Some(c.display.showHidden)
    case ShowBlocks => Some(c.display.showBlocks)
    case ShowItems => Some(c.display.showItems)
    case ShowMtime => Some(c.display.showMtime)
    case ShowGraph => Some(c.display.showGraph)
    case ShowPercent => Some(c.display.showPercent)
    case SortDirsFirst => Some(c.sorting.sortDirsFirst)
    case SortNatural => Some(c.sorting.sortNatural)
    case ConfirmQuit => Some(c.features.confirmQuit)
    case ConfirmDelete => Some(c.features.confirmDelete)
    case CanShell => c.features.canShell
    case CanDelete => c.features.canDelete
    case CanRefresh => c.features.canRefresh
  }

  /** The configuration with switch `s` set to `v`. */
  function SetSwitch(c: ConfigData, s: Switch, v: bool): ConfigData {
    match s
    case SameFs => c.(scan := c.scan.(sameFs := v))
    case Extended => c.(scan := c.scan.(extended := v))
    case FollowSymlinks => c.(scan := c.scan.(followSymlinks := v))
    case ExcludeCaches => c.(scan := c.scan.(excludeCaches := v))
    case ExcludeKernfs => c.(scan := c.scan.(excludeKernfs := v))
    case Compress => c.(exports := c.exports.(compress := v))
    case Si => c.(ui := c.ui.(si := v))
    case ShowHidden => c.(display := c.display.(showHidden := v))
    case ShowBlocks => c.(display := c.display.(showBlocks := v))
    case ShowItems => c.(display := c.display.(showItems := v))
    case ShowMtime => c.(display := c.display.(showMtime := v))
    case ShowGraph => c.(display := c.display.(showGraph := v))
    case ShowPercent => c.(display := c.display.(showPercent := v))
    case SortDirsFirst => c.(sorting := c.sorting.(sortDirsFirst := v))
    case SortNatural => c.(sorting := c.sorting.(sortNatural := v))
    case ConfirmQuit => c.(features := c.features.(confirmQuit := v))
    case ConfirmDelete => c.(features := c.features.(confirmDelete := v))
    case CanShell => c.(features := c.features.(canShell := Some(v)))
    case CanDelete => c.(features := c.features.(canDelete := Some(v)))
    case CanRefresh => c.(features := c.features.(canRefresh := Some(v)))
  }

  /** The switch a known flag sets and the value it sets it to. */
  function FlagTarget(flag: string): Option<(Switch, bool)> {
    match flag
    case "same-fs" => Some((SameFs, true))
    case "one-file-system" => Some((SameFs, true))
    case "cross-file-system" => Some((SameFs, false))
    case "extended" => Some((Extended, true))
    case "no-extended" => Some((Extended, false))
    case "follow-symlinks" => Some((FollowSymlinks, true))
    case "no-follow-symlinks" => Some((FollowSymlinks, false))
    case "exclude-caches" => Some((ExcludeCaches, true))
    case "include-caches" => Some((ExcludeCaches, false))
    case "exclude-kernfs" => Some((ExcludeKernfs, true))
    case "include-kernfs" => Some((ExcludeKernfs, false))
    case "compress" => Some((Compress, true))
    case "no-compress" => Some((Compress, false))
    case "si" => Some((Si, true))
    case "no-si" => Some((Si, false))
    case "show-hidden" => Some((ShowHidden, true))
    case "hide-hidden" => Some((ShowHidden, false))
    case "apparent-size" => Some((ShowBlocks, false))
    case "disk-usage" => Some((ShowBlocks, true))
    case "show-itemcount" => Some((ShowItems, true))
    case "hide-itemcount" => Some((ShowItems, false))
    case "show-mtime" => Some((ShowMtime, true))
    case "hide-mtime" => Some((ShowMtime, false))
    case "show-graph" => Some((ShowGraph, true))
    case "hide-graph" => Some((ShowGraph, false))
    case "show-percent" => Some((ShowPercent, true))
    case "hide-percent" => Some((ShowPercent, false))
    case "group-directories-first" => Some((SortDirsFirst, true))
    case "no-group-directories-first" => Some((SortDirsFirst, false))
    case "enable-natsort" => Some((SortNatural, true))
    case "disable-natsort" => Some((SortNatural, false))
    case "confirm-quit" => Some((ConfirmQuit, true))
    case "no-confirm-quit" => Some((ConfirmQuit, false))
    case "confirm-delete" => Some((ConfirmDelete, true))
    case "no-confirm-delete" => Some((ConfirmDelete, false))
    case "enable-shell" => Some((CanShell, true))
    case "disable-shell" => Some((CanShell, false))
    case "enable-delete" => Some((CanDelete, true))
    case "disable-delete" => Some((CanDelete, false))
    case "enable-refresh" => Some((CanRefresh, true))
    case "disable-refresh" => Some((CanRefresh, false))
    case _ => None
  }

  /** The name that switches `s` on. */
  function OnFlag(s: Switch): string {
    match s
    case SameFs => "same-fs"
    case Extended => "extended"
    case FollowSymlinks => "follow-symlinks"
    case ExcludeCaches => "exclude-caches"
    case ExcludeKernfs => "exclude-kernfs"
    case Compress => "compress"
    case Si => "si"
    case ShowHidden => "show-hidden"
    case ShowBlocks => "disk-usage"
    case ShowItems => "show-itemcount"
    case ShowMtime => "show-mtime"
    case ShowGraph => "show-graph"
    case ShowPercent => "show-percent"
    case SortDirsFirst => "group-directories-first"
    case SortNatural => "enable-natsort"
    case ConfirmQuit => "confirm-quit"
    case ConfirmDelete => "confirm-delete"
    case CanShell => "enable-shell"
    case CanDelete => "enable-delete"
    case CanRefresh => "enable-refresh"
  }

  /** The name that switches `s` off. */
  function OffFlag(s: Switch): string {
    match s
    case SameFs => "cross-file-system"
    case Extended => "no-extended"
    case FollowSymlinks => "no-follow-symlinks"
    case ExcludeCaches => "include-caches"
    case ExcludeKernfs => "include-kernfs"
    case Compress => "no-compress"
    case Si => "no-si"
    case ShowHidden => "hide-hidden"
    case ShowBlocks => "apparent-size"
    case ShowItems => "hide-itemcount"
    case ShowMtime => "hide-mtime"
    case ShowGraph => "hide-graph"
    case ShowPercent => "hide-percent"
    case SortDirsFirst => "no-group-directories-first"
    case SortNatural => "disable-natsort"
    case ConfirmQuit => "no-confirm-quit"
    case ConfirmDelete => "no-confirm-delete"
    case CanShell => "disable-shell"
    case CanDelete => "disable-delete"
    case CanRefresh => "disable-refresh"
  }

  /** The new configuration and the outcome of one setter call. A failed
      call may already have changed the configuration (see
      `SortOutcome`). */
  datatype Outcome = Outcome(config: ConfigData, result: Result<(), string>)

  /** `apply_config_flag` on a snapshot. */
  function FlagOutcome(c: ConfigData, flag: string): (o: Outcome)
    ensures o.result.Err? ==> o.config == c
  {
    match FlagTarget(flag)
    case Some((s, v)) => Outcome(SetSwitch(c, s, v), Ok(()))
    case None => Outcome(c, Err("Unknown config flag: " + flag))
  }

  /** Setting a switch changes that switch and no other. */
  lemma SetSwitchChangesOnlyIt(c: ConfigData, s: Switch, v: bool, t: Switch)
    ensures SwitchValue(SetSwitch(c, s, v), t) == if t == s then Some(v) else SwitchValue(c, t)
  {
  }

  /** Setting a switch twice keeps the second value. */
  lemma SetSwitchTwice(c: ConfigData, s: Switch, v: bool, w: bool)
    ensures SetSwitch(SetSwitch(c, s, v), s, w) == SetSwitch(c, s, w)
  {
  }

  /** The file-system, metadata and symlink flags select their switch and value. */
  lemma ScanFlagNames()
    ensures FlagTarget("same-fs") == Some((SameFs, true))
    ensures FlagTarget("one-file-system") == Some((SameFs, true))
    ensures FlagTarget("cross-file-system") == Some((SameFs, false))
    ensures FlagTarget("extended") == Some((Extended, true))
    ensures FlagTarget("no-extended") == Some((Extended, false))
    ensures FlagTarget("follow-symlinks") == Some((FollowSymlinks, true))
    ensures FlagTarget("no-follow-symlinks") == Some((FollowSymlinks, false))
  {
  }

  /** The cache and kernel file-system flags select their switch and value. */
  lemma CacheFlagNames()
    ensures FlagTarget("exclude-caches") == Some((ExcludeCaches, true))
    ensures FlagTarget("include-caches") == Some((ExcludeCaches, false))
    ensures FlagTarget("exclude-kernfs") == Some((ExcludeKernfs, true))
    ensures FlagTarget("include-kernfs") == Some((ExcludeKernfs, false))
  {
  }

  /** The compression and unit flags select their switch and value. */
  lemma UnitFlagNames()
    ensures FlagTarget("compress") == Some((Compress, true))
    ensures FlagTarget("no-compress") == Some((Compress, false))
    ensures FlagTarget("si") == Some((Si, true))
    ensures FlagTarget("no-si") == Some((Si, false))
  {
  }

  /** The hidden-file, size and item-count flags select their switch and value. */
  lemma DisplayFlagNames()
    ensures FlagTarget("show-hidden") == Some((ShowHidden, true))
    ensures FlagTarget("hide-hidden") == Some((ShowHidden, false))
    ensures FlagTarget("apparent-size") == Some((ShowBlocks, false))
    ensures FlagTarget("disk-usage") == Some((ShowBlocks, true))
    ensures FlagTarget("show-itemcount") == Some((ShowItems, true))
    ensures FlagTarget("hide-itemcount") == Some((ShowItems, false))
  {
  }

  /** The column flags select their switch and value. */
  lemma ColumnFlagNames()
    ensures FlagTarget("show-mtime") == Some((ShowMtime, true))
    ensures FlagTarget("hide-mtime") == Some((ShowMtime, false))
    ensures FlagTarget("show-graph") == Some((ShowGraph, true))
    ensures FlagTarget("hide-graph") == Some((ShowGraph, false))
    ensures FlagTarget("show-percent") == Some((ShowPercent, true))
    ensures FlagTarget("hide-percent") == Some((ShowPercent, false))
  {
  }

  /** The sorting flags select their switch and value. */
  lemma SortFlagNames()
    ensures FlagTarget("group-directories-first") == Some((SortDirsFirst, true))
    ensures FlagTarget("no-group-directories-first") == Some((SortDirsFirst, false))
    ensures FlagTarget("enable-natsort") == Some((SortNatural, true))
    ensures FlagTarget("disable-natsort") == Some((SortNatural, false))
  {
  }

  /** The confirmation flags select their switch and value. */
  lemma ConfirmFlagNames()
    ensures FlagTarget("confirm-quit") == Some((ConfirmQuit, true))
    ensures FlagTarget("no-confirm-quit") == Some((ConfirmQuit, false))
    ensures FlagTarget("confirm-delete") == Some((ConfirmDelete, true))
    ensures FlagTarget("no-confirm-delete") == Some((ConfirmDelete, false))
  {
  }

  /** The feature flags select their switch and value. */
  lemma FeatureFlagNames()
    ensures FlagTarget("enable-shell") == Some((CanShell, true))
    ensures FlagTarget("disable-shell") == Some((CanShell, false))
    ensures FlagTarget("enable-delete") == Some((CanDelete, true))
    ensures FlagTarget("disable-delete") == Some((CanDelete, false))
    ensures FlagTarget("enable-refresh") == Some((CanRefresh, true))
    ensures FlagTarget("disable-refresh") == Some((CanRefresh, false))
  {
  }

  /** Every switch has a flag that turns it on and one that turns it off. */
  lemma FlagPairs(s: Switch)
    ensures FlagTarget(OnFlag(s)) == Some((s, true))
    ensures FlagTarget(OffFlag(s)) == Some((s, false))
  {
    ScanFlagNames();
    CacheFlagNames();
    UnitFlagNames();
    DisplayFlagNames();
    ColumnFlagNames();
    SortFlagNames();
    ConfirmFlagNames();
    FeatureFlagNames();
  }

  /** A flag followed by its opposite leaves the configuration as the
      opposite alone would. */
  lemma PairedFlagsAreInverse(c: ConfigData, s: Switch)
    ensures FlagOutcome(FlagOutcome(c, OnFlag(s)).config, OffFlag(s)) == FlagOutcome(c, OffFlag(s))
    ensures FlagOutcome(FlagOutcome(c, OffFlag(s)).config, OnFlag(s)) == FlagOutcome(c, OnFlag(s))
  {
    FlagPairs(s);
    SetSwitchTwice(c, s, true, false);
    SetSwitchTwice(c, s, false, true);
  }

  // ---------------------------------------------------------------------
  // Options

  /** The text of the `ParseIntError` that `str::parse` reports for an
      unsigned type with largest value `max`: empty input, a character
      that is not a digit, or a value that overflows before the first such
      character. */
  function ParseIntErrorMessage(s: string, max: nat): string {
    if s == [] then "cannot parse integer from empty string"
    else
      var digits := if s[0] == '+' then s[1..] else s;
      var run := DigitRunLength(digits);
      if digits == [] then "invalid digit found in string"
      else if DecimalValue(digits[..run]) > max then "number too large to fit in target type"
      else "invalid digit found in string"
  }

  function ParseNumber(s: string, max: nat): (r: Result<nat, string>)
    ensures r.Ok? ==> r.value <= max
  {
    match ParseUnsigned(s, max)
    case Some(n) => Ok(n)
    case None => Err(ParseIntErrorMessage(s, max))
  }

  /** `apply_config_option` on a snapshot. */
  function OptionOutcome(c: ConfigData, key: string, value: string): (o: Outcome)
    ensures key != "sort" && o.result.Err? ==> o.config == c
  {
    match key
    case "threads" =>
      (match ParseNumber(value, USIZE_MAX)
       case Ok(n) => Outcome(c.(scan := c.scan.(threads := n)), Ok(()))
       case Err(e) => Outcome(c, Err(e)))
    case "compress-level" =>
      (match ParseNumber(value, U8_MAX)
       case Ok(n) => Outcome(c.(exports := c.exports.(compressLevel := n)), Ok(()))
       case Err(e) => Outcome(c, Err(e)))
    case "export-block-size" =>
      (match ParseNumber(value, U16_MAX)
       case Ok(n) => Outcome(c.(exports := c.exports.(exportBlockSize := Some(n * 1024))), Ok(()))
       case Err(e) => Outcome(c, Err(e)))
    case "exclude" => Outcome(c.(scan := c.scan.(excludePatterns := c.scan.excludePatterns + [value])), Ok(()))
    case "delete-command" => Outcome(c.(features := c.features.(deleteCommand := value)), Ok(()))
    case "extended" =>
      (match value
       case "true" => Outcome(c.(scan := c.scan.(extended := true)), Ok(()))
       case "false" => Outcome(c.(scan := c.scan.(extended := false)), Ok(()))
       case _ => Outcome(c, Err("Invalid boolean value for extended: " + value)))
    case "color" =>
      (match value
       case "off" => Outcome(c.(ui := c.ui.(color := ColorScheme.Off)), Ok(()))
       case "dark" => Outcome(c.(ui := c.ui.(color := Dark)), Ok(()))
       case "dark-bg" => Outcome(c.(ui := c.ui.(color := DarkBg)), Ok(()))
       case _ => Outcome(c, Err("Invalid color scheme: " + value)))
    case "graph-style" =>
      (match value
       case "hash" => Outcome(c.(display := c.display.(graphStyle := Hash)), Ok(()))
       case "half-block" => Outcome(c.(display := c.display.(graphStyle := HalfBlock)), Ok(()))
       case "eighth-block" => Outcome(c.(display := c.display.(graphStyle := EighthBlock)), Ok(()))
       case _ => Outcome(c, Err("Invalid graph style: " + value)))
    case "shared-column" =>
      (match value
       case "off" => Outcome(c.(display := c.display.(showShared := SharedColumn.Off)), Ok(()))
       case "shared" => Outcome(c.(display := c.display.(showShared := Shared)), Ok(()))
       case "unique" => Outcome(c.(display := c.display.(showShared := Unique)), Ok(()))
       case _ => Outcome(c, Err("Invalid shared column mode: " + value)))
    case "sort" => SortOutcome(c, value)
    case _ => Outcome(c, Err("Unknown config option: " + key))
  }

  /** `export-block-size` stores the number of KiB given, in bytes, for
      every value a `u16` holds; a larger value is rejected and changes
      nothing. */
  lemma ExportBlockSizeInBytes(c: ConfigData, kib: nat)
    ensures kib <= U16_MAX ==>
      OptionOutcome(c, "export-block-size", DecimalString(kib))
        == Outcome(c.(exports := c.exports.(exportBlockSize := Some(kib * 1024))), Ok(()))
    ensures kib > U16_MAX ==>
      OptionOutcome(c, "export-block-size", DecimalString(kib)) == Outcome(c, Err("number too large to fit in target type"))
  {
    if kib <= U16_MAX {
      DecimalRoundTrip(kib, U16_MAX);
    } else {
      var s := DecimalString(kib);
      DigitRunLengthUnique(s, |s|);
      assert s[..|s|] == s;
    }
  }

  /** `threads` takes any `usize` written in decimal. */
  lemma ThreadsOption(c: ConfigData, n: nat)
    requires n <= USIZE_MAX
    ensures OptionOutcome(c, "threads", DecimalString(n)) == Outcome(c.(scan := c.scan.(threads := n)), Ok(()))
  {
    DecimalRoundTrip(n, USIZE_MAX);
  }

  /** `extended` accepts exactly the words "true" and "false". */
  lemma ExtendedTakesBooleansOnly(c: ConfigData, value: string)
    ensures OptionOutcome(c, "extended", value).result.Ok? <==> value == "true" || value == "false"
    ensures value == "true" ==> OptionOutcome(c, "extended", value).config.scan.extended
    ensures value == "false" ==> !OptionOutcome(c, "extended", value).config.scan.extended
  {
  }

  // ---------------------------------------------------------------------
  // The sort option

  function ParseSortColumn(column: string): Option<Model.SortColumn> {
    match column
    case "name" => Some(Model.Name)
    case "disk-usage" => Some(Model.Blocks)
    case "blocks" => Some(Model.Blocks)
    case "apparent-size" => Some(Model.Size)
    case "itemcount" => Some(Model.Items)
    case "mtime" => Some(Model.Mtime)
    case _ => None
  }

  /** The order a column gets when none is given. */
  function DefaultOrder(column: Model.SortColumn): (order: Model.SortOrder)
    ensures order == Model.Asc <==> column == Model.Name || column == Model.Mtime
  {
    match column
    case Name => Model.Asc
    case Mtime => Model.Asc
    case Blocks => Model.Desc
    case Size => Model.Desc
    case Items => Model.Desc
  }

  /** The column text and the order text, split at the last `-`. */
  function SortParts(sort: string): (string, Option<string>) {
    match RSplitOnce(sort, '-')
    case Some((column, order)) => (column, Some(order))
    case None => (sort, None)
  }

  /** `parse_sort_option` on a snapshot: the column is stored before the
      order is looked at, so a bad order leaves the new column in place. */
  function SortOutcome(c: ConfigData, sort: string): Outcome {
    var (column, order) := SortParts(sort);
    match ParseSortColumn(column)
    case None => Outcome(c, Err("Invalid sort column: " + column))
    case Some(col) =>
      var c1 := c.(sorting := c.sorting.(sortCol := col));
      match order
      case None => Outcome(c1.(sorting := c1.sorting.(sortOrder := DefaultOrder(col))), Ok(()))
      case Some(o) =>
        if o == "asc" then Outcome(c1.(sorting := c1.sorting.(sortOrder := Model.Asc)), Ok(()))
        else if o == "desc" then Outcome(c1.(sorting := c1.sorting.(sortOrder := Model.Desc)), Ok(()))
        else Outcome(c1, Err("Invalid sort order: " + o))
  }

  /** A column with an order sets both; a bad order still sets the
      column. */
  lemma SortWithOrder(c: ConfigData, column: string, order: string, col: Model.SortColumn)
    requires '-' !in order && ParseSortColumn(column) == Some(col)
    ensures order == "asc" ==>
      SortOutcome(c, column + "-" + order) == Outcome(c.(sorting := c.sorting.(sortCol := col, sortOrder := Model.Asc)), Ok(()))
    ensures order == "desc" ==>
      SortOutcome(c, column + "-" + order) == Outcome(c.(sorting := c.sorting.(sortCol := col, sortOrder := Model.Desc)), Ok(()))
    ensures order != "asc" && order != "desc" ==>
      SortOutcome(c, column + "-" + order) == Outcome(c.(sorting := c.sorting.(sortCol := col)), Err("Invalid sort order: " + order))
  {
    RSplitOnceAt(column, order, '-');
  }

  /** A column alone takes its default order. */
  lemma SortWithoutOrder(c: ConfigData, column: string, col: Model.SortColumn)
    requires '-' !in column && ParseSortColumn(column) == Some(col)
    ensures SortOutcome(c, column) == Outcome(c.(sorting := c.sorting.(sortCol := col, sortOrder := DefaultOrder(col))), Ok(()))
  {
  }

  /** An unknown column is reported and changes nothing. */
  lemma InvalidSortColumn(c: ConfigData, sort: string)
    requires ParseSortColumn(SortParts(sort).0).None?
    ensures SortOutcome(c, sort) == Outcome(c, Err("Invalid sort column: " + SortParts(sort).0))
  {
  }

  /** The examples of the source's own test: "name-asc" and "blocks". */
  lemma SortOptionExamples(c: ConfigData)
    ensures SortOutcome(c, "name-asc") == Outcome(c.(sorting := c.sorting.(sortCol := Model.Name, sortOrder := Model.Asc)), Ok(()))
    ensures SortOutcome(c, "blocks") == Outcome(c.(sorting := c.sorting.(sortCol := Model.Blocks, sortOrder := Model.Desc)), Ok(()))
  {
    assert "name-asc" == "name" + "-" + "asc";
    SortWithOrder(c, "name", "asc", Model.Name);
    assert '-' !in "blocks";
    SortWithoutOrder(c, "blocks", Model.Blocks);
  }

  /** Bare "disk-usage" is split into column "disk" and order "usage", and
      is rejected. */
  lemma BareDiskUsageRejected(c: ConfigData)
    ensures SortOutcome(c, "disk-usage") == Outcome(c, Err("Invalid sort column: " + "disk"))
  {
    assert "disk-usage" == "disk" + "-" + "usage";
    RSplitOnceAt("disk", "usage", '-');
    assert SortParts("disk-usage") == ("disk", Some("usage"));
    assert ParseSortColumn("disk") == None;
  }

  lemma ValidColumnParses(column: string)
    requires column in VALID_COLUMNS
    ensures ParseSortColumn(column).Some?
  {
  }

  /** Every sort option the command-line check accepts is one the parser
      takes. */
  lemma ValidatedSortOptionParses(c: ConfigData, sort: string)
    requires IsValidSortOption(sort)
    ensures SortOutcome(c, sort).result.Ok?
  {
    match RSplitOnce(sort, '-')
    case Some((column, order)) =>
      ValidColumnParses(column);
    case None =>
      ValidColumnParses(sort);
  }

  // ---------------------------------------------------------------------
  // Configuration files

  /** One line of a configuration file: the new configuration, or the
      error that ends the parse. */
  function ProcessLine(c: ConfigData, raw: string): Result<ConfigData, string> {
    ProcessTrimmedLine(c, Trim(raw))
  }

  /** A line after trimming: blank lines and `#` comments are skipped, a
      leading `@` makes a failure harmless, a `key=value` line sets an
      option and any other line is a flag. */
  function ProcessTrimmedLine(c: ConfigData, line: string): Result<ConfigData, string> {
    if |line| == 0 || line[0] == '#' then Ok(c)
    else
      var ignoreError := line[0] == '@';
      var body := if ignoreError then line[1..] else line;
      var o :=
        match SplitOnce(body, '=')
        case Some((key, value)) => OptionOutcome(c, Trim(key), Trim(value))
        case None => FlagOutcome(c, body);
      if o.result.Err? && !ignoreError then Err("Error in config line: " + body)
      else Ok(o.config)
  }

  /** The lines in order, stopping at the first error. */
  function ProcessLines(c: ConfigData, lines: seq<string>): Result<ConfigData, string> {
    if |lines| == 0 then Ok(c)
    else
      match ProcessLines(c, lines[..|lines| - 1])
      case Err(e) => Err(e)
      case Ok(c1) => ProcessLine(c1, lines[|lines| - 1])
  }

  /** `Config::parse_config_content` as a function of the text. */
  function ParsedContent(content: string, cpus: nat): Result<ConfigData, string> {
    ProcessLines(DefaultConfig(cpus), Lines(content))
  }

  /** Blank lines and comments change nothing. */
  lemma SkippedLine(c: ConfigData, raw: string)
    requires |Trim(raw)| == 0 || Trim(raw)[0] == '#'
    ensures ProcessLine(c, raw) == Ok(c)
  {
  }

  /** A line starting with `@` never fails. */
  lemma IgnoredLineNeverFails(c: ConfigData, raw: string)
    requires |Trim(raw)| > 0 && Trim(raw)[0] == '@'
    ensures ProcessLine(c, raw).Ok?
  {
  }

  /** Once a line fails, the lines after it do not matter. */
  lemma {:induction false} ErrorIsFinal(c: ConfigData, lines: seq<string>, k: nat)
    requires k <= |lines| && ProcessLines(c, lines[..k]).Err?
    ensures ProcessLines(c, lines) == ProcessLines(c, lines[..k])
    decreases |lines|
  {
    if k < |lines| {
      var p := lines[..|lines| - 1];
      assert p[..k] == lines[..k];
      ErrorIsFinal(c, p, k);
    } else {
      assert lines[..k] == lines;
    }
  }

  /** A failing line without `@` makes the whole parse fail with its
      message, whatever follows it. */
  lemma FirstBadLineFails(c: ConfigData, before: seq<string>, raw: string, after: seq<string>)
    requires ProcessLines(c, before).Ok?
    requires ProcessLine(ProcessLines(c, before).value, raw).Err?
    ensures ProcessLines(c, before + [raw] + after) == ProcessLine(ProcessLines(c, before).value, raw)
  {
    var lines := before + [raw] + after;
    var k := |before| + 1;
    assert lines[..k][..k - 1] == before && lines[..k][k - 1] == raw;
    ErrorIsFinal(c, lines, k);
  }

  /** A trimmed line without `=` that is not a comment and has no `@` is a
      flag; it fails exactly when the flag does. */
  lemma FlagLine(c: ConfigData, flag: string)
    requires |flag| > 0 && flag[0] != '#' && flag[0] != '@' && '=' !in flag
    ensures FlagOutcome(c, flag).result.Ok? ==> ProcessTrimmedLine(c, flag) == Ok(FlagOutcome(c, flag).config)
    ensures FlagOutcome(c, flag).result.Err? ==> ProcessTrimmedLine(c, flag) == Err("Error in config line: " + flag)
  {
  }

  /** A trimmed `key=value` line whose key is not a comment and has no `@`
      applies the option named by the trimmed key; it fails exactly when
      the option does. */
  lemma OptionLine(c: ConfigData, key: string, value: string)
    requires |key| > 0 && key[0] != '#' && key[0] != '@' && '=' !in key
    ensures var o := OptionOutcome(c, Trim(key), Trim(value));
      (o.result.Ok? ==> ProcessTrimmedLine(c, key + "=" + value) == Ok(o.config))
      && (o.result.Err? ==> ProcessTrimmedLine(c, key + "=" + value) == Err("Error in config line: " + (key + "=" + value)))
  {
    var line := key + "=" + value;
    assert line == key + ['='] + value;
    SplitOnceAt(key, value, '=');
    assert line[0] == key[0];
  }

  /** A line holding only a flag name applies that flag. */
  lemma ExampleFlagLine(c: ConfigData)
    ensures ProcessLine(c, "same-fs") == Ok(c.(scan := c.scan.(sameFs := true)))
  {
    TrimUnchanged("same-fs");
    assert '=' !in "same-fs";
    ScanFlagNames();
    FlagLine(c, "same-fs");
  }

  /** A `key=value` line applies that option. */
  lemma ExampleThreadsLine(c: ConfigData)
    ensures ProcessLine(c, "threads" + "=" + "8") == Ok(c.(scan := c.scan.(threads := 8)))
  {
    TrimUnchanged("threads" + "=" + "8");
    assert '=' !in "threads";
    OptionLine(c, "threads", "8");
    TrimUnchanged("threads");
    TrimUnchanged("8");
    ThreadsOption(c, 8);
    assert DecimalString(8) == "8";
  }

  lemma ExampleExcludeLine(c: ConfigData)
    ensures ProcessLine(c, "exclude" + "=" + "*.tmp") == Ok(c.(scan := c.scan.(excludePatterns := c.scan.excludePatterns + ["*.tmp"])))
  {
    TrimUnchanged("exclude" + "=" + "*.tmp");
    assert '=' !in "exclude";
    OptionLine(c, "exclude", "*.tmp");
    TrimUnchanged("exclude");
    TrimUnchanged("*.tmp");
  }

  /** Processing one more line continues from the lines before it. */
  lemma ProcessLinesStep(c: ConfigData, lines: seq<string>, line: string)
    ensures ProcessLines(c, lines + [line])
         == match ProcessLines(c, lines) case Err(e) => Err(e) case Ok(c1) => ProcessLine(c1, line)
  {
    assert (lines + [line])[..|lines|] == lines;
  }

  /** The lines of the source's own example file. */
  const EXAMPLE_LINES: seq<string> := ["", "# This is a comment", "same-fs", "threads" + "=" + "8", "exclude" + "=" + "*.tmp"]

  /** The example file's text cuts back into its lines. */
  lemma ExampleText()
    ensures Lines(Terminated(EXAMPLE_LINES)) == EXAMPLE_LINES
  {
    var ls := EXAMPLE_LINES;
    assert '\n' !in ls[0] && '\n' !in ls[1] && '\n' !in ls[2] && '\n' !in ls[3] && '\n' !in ls[4];
    LinesOfTerminated(ls);
  }

  /** The blank line and the comment of the example change nothing, and
      its flag line sets `same_fs`. */
  lemma ExampleFirstLines(c: ConfigData)
    ensures ProcessLines(c, EXAMPLE_LINES[..3]) == Ok(c.(scan := c.scan.(sameFs := true)))
  {
    var ls := EXAMPLE_LINES;
    TrimUnchanged("# This is a comment");
    SkippedLine(c, "");
    SkippedLine(c, "# This is a comment");
    ExampleFlagLine(c);
    ProcessLinesStep(c, ls[..0], ls[0]);
    ProcessLinesStep(c, ls[..1], ls[1]);
    ProcessLinesStep(c, ls[..2], ls[2]);
    assert ls[..1] == ls[..0] + [ls[0]] && ls[..2] == ls[..1] + [ls[1]] && ls[..3] == ls[..2] + [ls[2]];
  }

  /** The lines of the example set `same_fs`, the thread count and one
      exclude pattern. */
  lemma ExampleLinesApply(c: ConfigData)
    ensures ProcessLines(c, EXAMPLE_LINES)
         == Ok(c.(scan := c.scan.(sameFs := true, threads := 8, excludePatterns := c.scan.excludePatterns + ["*.tmp"])))
  {
    var ls := EXAMPLE_LINES;
    var c3 := c.(scan := c.scan.(sameFs := true));
    var c4 := c3.(scan := c3.scan.(threads := 8));
    ExampleFirstLines(c);
    ExampleThreadsLine(c3);
    ExampleExcludeLine(c4);
    ProcessLinesStep(c, ls[..3], ls[3]);
    ProcessLinesStep(c, ls[..4], ls[4]);
    assert ls[..4] == ls[..3] + [ls[3]] && ls == ls[..4] + [ls[4]];
  }

  /** The example of the source's own test: a file holding a blank line, a
      comment, the `same-fs` flag, `threads=8` and `exclude=*.tmp` sets
      exactly those three settings. */
  lemma ExampleConfigParses(cpus: nat)
    ensures ParsedContent(Terminated(EXAMPLE_LINES), cpus)
         == Ok(DefaultConfig(cpus).(scan := DefaultConfig(cpus).scan.(sameFs := true, threads := 8, excludePatterns := ["*.tmp"])))
  {
    ExampleText();
    var c := DefaultConfig(cpus);
    ExampleLinesApply(c);
    assert c.scan.excludePatterns + ["*.tmp"] == ["*.tmp"];
  }

  /** The scan options after `merge`: enabled options stay enabled,
      patterns accumulate, and the other thread count wins unless it is
      the default. */
  function MergedScan(s: ScanOptions, os: ScanOptions, cpus: nat): ScanOptions {
    s.(sameFs := s.sameFs || os.sameFs,
       extended := s.extended || os.extended,
       followSymlinks := s.followSymlinks || os.followSymlinks,
       excludeCaches := s.excludeCaches || os.excludeCaches,
       excludeKernfs := s.excludeKernfs || os.excludeKernfs,
       threads := if os.threads != DefaultThreads(cpus) then os.threads else s.threads,
       excludePatterns := s.excludePatterns + os.excludePatterns)
  }

  /** The export options after `merge`; the export file names are not
      taken over. */
  function MergedExports(x: ExportOptions, ox: ExportOptions): ExportOptions {
    x.(compress := x.compress || ox.compress,
       compressLevel := if ox.compressLevel != 4 then ox.compressLevel else x.compressLevel,
       exportBlockSize := if ox.exportBlockSize.Some? then ox.exportBlockSize else x.exportBlockSize)
  }

  /** The interface options after `merge`; the colour scheme is not taken
      over. */
  function MergedUi(u: UiOptions, ou: UiOptions): UiOptions {
    u.(scanUi := if ou.scanUi.Some? then ou.scanUi else u.scanUi,
       updateDelayMs := if ou.updateDelayMs != 100 then ou.updateDelayMs else u.updateDelayMs,
       si := u.si || ou.si)
  }

  /** The display options after `merge`: a column hidden by either side is
      hidden, one shown by either side is shown; the shared-column mode and
      the graph style are not taken over. */
  function MergedDisplay(d: DisplayOptions, od: DisplayOptions): DisplayOptions {
    d.(showHidden := d.showHidden && od.showHidden,
       showBlocks := d.showBlocks && od.showBlocks,
       showItems := d.showItems || od.showItems,
       showMtime := d.showMtime || od.showMtime,
       showGraph := d.showGraph && od.showGraph,
       showPercent := d.showPercent || od.showPercent)
  }

  /** The feature flags after `merge`: a tri-state flag set on the other
      side wins, and either side can ask for a confirmation. */
  function MergedFeatures(f: FeatureFlags, of: FeatureFlags): FeatureFlags {
    f.(canDelete := if of.canDelete.Some? then of.canDelete else f.canDelete,
       canShell := if of.canShell.Some? then of.canShell else f.canShell,
       canRefresh := if of.canRefresh.Some? then of.canRefresh else f.canRefresh,
       confirmQuit := f.confirmQuit || of.confirmQuit,
       confirmDelete := f.confirmDelete && of.confirmDelete,
       deleteCommand := if of.deleteCommand != "" then of.deleteCommand else f.deleteCommand)
  }

  /** `merge` on snapshots; the sorting options are not taken over. */
  function Merged(c: ConfigData, other: ConfigData, cpus: nat): ConfigData {
    c.(scan := MergedScan(c.scan, other.scan, cpus),
       exports := MergedExports(c.exports, other.exports),
       ui := MergedUi(c.ui, other.ui),
       display := MergedDisplay(c.display, other.display),
       features := MergedFeatures(c.features, other.features))
  }

  /** Merging never turns an enabled scan option off, and the other
      configuration's exclude patterns follow this one's. */
  lemma MergeKeepsScanOptions(c: ConfigData, other: ConfigData, cpus: nat)
    ensures var m := Merged(c, other, cpus).scan;
      (c.scan.sameFs ==> m.sameFs) && (c.scan.extended ==> m.extended)
      && (c.scan.followSymlinks ==> m.followSymlinks) && (c.scan.excludeCaches ==> m.excludeCaches)
      && (c.scan.excludeKernfs ==> m.excludeKernfs)
      && m.excludePatterns == c.scan.excludePatterns + other.scan.excludePatterns
  {
  }

  /** Merging in a default configuration changes nothing. */
  lemma MergeDefaultIsIdentity(c: ConfigData, cpus: nat)
    ensures Merged(c, DefaultConfig(cpus), cpus) == c
  {
  }

  /** The sorting options, the export file names, the colour scheme, the
      graph style and the shared-column mode of the other configuration are
      never taken over. */
  lemma MergeKeepsUntouchedChoices(c: ConfigData, other: ConfigData, cpus: nat)
    ensures var m := Merged(c, other, cpus);
      m.sorting == c.sorting && m.ui.color == c.ui.color && m.display.graphStyle == c.display.graphStyle
      && m.display.showShared == c.display.showShared && m.exports.exportJson == c.exports.exportJson
      && m.exports.exportBinary == c.exports.exportBinary && m.imported == c.imported
  {
  }

  // ---------------------------------------------------------------------
  // Exclude files

  /** The patterns an exclude file yields: each line trimmed, blank lines
      and `#` comments dropped. */
  function ExcludeLines(lines: seq<string>): seq<string> {
    if |lines| == 0 then []
    else
      var line := Trim(lines[|lines| - 1]);
      ExcludeLines(lines[..|lines| - 1]) + (if |line| > 0 && line[0] != '#' then [line] else [])
  }

  /** Every pattern read from an exclude file is non-empty, is not a
      comment and has no surrounding whitespace; there are at most as many
      as lines. */
  lemma {:induction false} ExcludePatternsWellFormed(lines: seq<string>)
    ensures |ExcludeLines(lines)| <= |lines|
    ensures forall i :: 0 <= i < |ExcludeLines(lines)| ==>
      |ExcludeLines(lines)[i]| > 0 && ExcludeLines(lines)[i][0] != '#' && Trim(ExcludeLines(lines)[i]) == ExcludeLines(lines)[i]
  {
    if |lines| > 0 {
      ExcludePatternsWellFormed(lines[..|lines| - 1]);
      TrimIdempotent(lines[|lines| - 1]);
    }
  }

  // ---------------------------------------------------------------------
  // Thread count

  /** The thread count `Config::from_args` settles on: a zero left by the
      configuration sources becomes the processor count (at least 1). */
  function ResolvedThreads(threads: nat, cpus: nat): (n: nat)
    ensures n >= 1
    ensures threads >= 1 ==> n == threads
    ensures threads == 0 ==> n == DefaultThreads(cpus)
  {
    if threads == 0 then DefaultThreads(cpus) else threads
  }

  // ---------------------------------------------------------------------
  // The configuration object

  /** `Config`, whose setters update its fields in place. */
  class Config {
    var scan: ScanOptions
    var exports: ExportOptions
    var ui: UiOptions
    var display: DisplayOptions
    var sorting: SortOptions
    var features: FeatureFlags
    var imported: bool

    /** The current value of every field. */
    function View(): ConfigData
      reads this
    {
      ConfigData(scan, exports, ui, display, sorting, features, imported)
    }

    /** `Config::default`. */
    constructor (cpus: nat)
      ensures View() == DefaultConfig(cpus)
    {
      var d := DefaultConfig(cpus);
      scan, exports, ui, display, sorting, features, imported :=
        d.scan, d.exports, d.ui, d.display, d.sorting, d.features, d.imported;
    }

    /** `Config::apply_config_flag`: the flag's name selects a field and
        the value stored in it (`FlagTarget`). */
    method ApplyConfigFlag(flag: string) returns (r: Result<(), string>)
      modifies this
      ensures r == FlagOutcome(old(View()), flag).result
      ensures View() == FlagOutcome(old(View()), flag).config
    {
      match FlagTarget(flag) {
        case None => r := Err("Unknown config flag: " + flag);
        case Some((s, v)) =>
          r := Ok(());
          match s {
            case SameFs => scan := scan.(sameFs := v);
            case Extended => scan := scan.(extended := v);
            case FollowSymlinks => scan := scan.(followSymlinks := v);
            case ExcludeCaches => scan := scan.(excludeCaches := v);
            case ExcludeKernfs => scan := scan.(excludeKernfs := v);
            case Compress => exports := exports.(compress := v);
            case Si => ui := ui.(si := v);
            case ShowHidden => display := display.(showHidden := v);
            case ShowBlocks => display := display.(showBlocks := v);
            case ShowItems => display := display.(showItems := v);
            case ShowMtime => display := display.(showMtime := v);
            case ShowGraph => display := display.(showGraph := v);
            case ShowPercent => display := display.(showPercent := v);
            case SortDirsFirst => sorting := sorting.(sortDirsFirst := v);
            case SortNatural => sorting := sorting.(sortNatural := v);
            case ConfirmQuit => features := features.(confirmQuit := v);
            case ConfirmDelete => features := features.(confirmDelete := v);
            case CanShell => features := features.(canShell := Some(v));
            case CanDelete => features := features.(canDelete := Some(v));
            case CanRefresh => features := features.(canRefresh := Some(v));
          }
      }
    }

    /** `Config::apply_config_option`. */
    method ApplyConfigOption(key: string, value: string) returns (r: Result<(), string>)
      modifies this
      ensures Outcome(View(), r) == OptionOutcome(old(View()), key, value)
    {
      r := Ok(());
      match key {
        case "threads" =>
          var n := ParseNumber(value, USIZE_MAX);
          if n.Err? {
            return Err(n.error);
          }
          scan := scan.(threads := n.value);
        case "compress-level" =>
          var n := ParseNumber(value, U8_MAX);
          if n.Err? {
            return Err(n.error);
          }
          exports := exports.(compressLevel := n.value);
        case "export-block-size" =>
          var n := ParseNumber(value, U16_MAX);
          if n.Err? {
            return Err(n.error);
          }
          exports := exports.(exportBlockSize := Some(n.value * 1024));
        case "exclude" => scan := scan.(excludePatterns := scan.excludePatterns + [value]);
        case "delete-command" => features := features.(deleteCommand := value);
        case "extended" =>
          match value {
            case "true" => scan := scan.(extended := true);
            case "false" => scan := scan.(extended := false);
            case _ => return Err("Invalid boolean value for extended: " + value);
          }
        case "color" =>
          match value {
            case "off" => ui := ui.(color := ColorScheme.Off);
            case "dark" => ui := ui.(color := Dark);
            case "dark-bg" => ui := ui.(color := DarkBg);
            case _ => return Err("Invalid color scheme: " + value);
          }
        case "graph-style" =>
          match value {
            case "hash" => display := display.(graphStyle := Hash);
            case "half-block" => display := display.(graphStyle := HalfBlock);
            case "eighth-block" => display := display.(graphStyle := EighthBlock);
            case _ => return Err("Invalid graph style: " + value);
          }
        case "shared-column" =>
          match value {
            case "off" => display := display.(showShared := SharedColumn.Off);
            case "shared" => display := display.(showShared := Shared);
            case "unique" => display := display.(showShared := Unique);
            case _ => return Err("Invalid shared column mode: " + value);
          }
        case "sort" => r := ParseSortOption(value);
        case _ => r := Err("Unknown config option: " + key);
      }
    }

    /** `Config::parse_sort_option`. */
    method ParseSortOption(sort: string) returns (r: Result<(), string>)
      modifies this
      ensures Outcome(View(), r) == SortOutcome(old(View()), sort)
    {
      var (column, order) := SortParts(sort);
      var col := ParseSortColumn(column);
      if col.None? {
        return Err("Invalid sort column: " + column);
      }
      sorting := sorting.(sortCol := col.value);
      if order.Some? {
        if order.value == "asc" {
          sorting := sorting.(sortOrder := Model.Asc);
        } else if order.value == "desc" {
          sorting := sorting.(sortOrder := Model.Desc);
        } else {
          return Err("Invalid sort order: " + order.value);
        }
      } else {
        sorting := sorting.(sortOrder := DefaultOrder(sorting.sortCol));
      }
      r := Ok(());
    }

    /** `Config::merge`, group by group. */
    method Merge(other: ConfigData, cpus: nat)
      modifies this
      ensures scan == MergedScan(old(scan), other.scan, cpus)
      ensures exports == MergedExports(old(exports), other.exports)
      ensures ui == MergedUi(old(ui), other.ui)
      ensures display == MergedDisplay(old(display), other.display)
      ensures features == MergedFeatures(old(features), other.features)
      ensures sorting == old(sorting) && imported == old(imported)
    {
      MergeScan(other, cpus);
      MergeExports(other);
      MergeUi(other);
      MergeDisplay(other);
      MergeFeatures(other);
    }

    /** The scan-option part of `Config::merge`. */
    method MergeScan(other: ConfigData, cpus: nat)
      modifies this
      ensures scan == MergedScan(old(scan), other.scan, cpus)
      ensures exports == old(exports) && ui == old(ui) && display == old(display) && sorting == old(sorting) && features == old(features) && imported == old(imported)
    {
      var s := scan;
      if other.scan.sameFs {
        s := s.(sameFs := true);
      }
      if other.scan.extended {
        s := s.(extended := true);
      }
      if other.scan.followSymlinks {
        s := s.(followSymlinks := true);
      }
      if other.scan.excludeCaches {
        s := s.(excludeCaches := true);
      }
      if other.scan.excludeKernfs {
        s := s.(excludeKernfs := true);
      }
      if other.scan.threads != DefaultThreads(cpus) {
        s := s.(threads := other.scan.threads);
      }
      s := s.(excludePatterns := s.excludePatterns + other.scan.excludePatterns);
      scan := s;
    }

    /** The export-option part of `Config::merge`. */
    method MergeExports(other: ConfigData)
      modifies this
      ensures exports == MergedExports(old(exports), other.exports)
      ensures scan == old(scan) && ui == old(ui) && display == old(display) && sorting == old(sorting) && features == old(features) && imported == old(imported)
    {
      var x := exports;
      if other.exports.compress {
        x := x.(compress := true);
      }
      if other.exports.compressLevel != 4 {
        x := x.(compressLevel := other.exports.compressLevel);
      }
      if other.exports.exportBlockSize.Some? {
        x := x.(exportBlockSize := other.exports.exportBlockSize);
      }
      exports := x;
    }

    /** The interface-option part of `Config::merge`. */
    method MergeUi(other: ConfigData)
      modifies this
      ensures ui == MergedUi(old(ui), other.ui)
      ensures scan == old(scan) && exports == old(exports) && display == old(display) && sorting == old(sorting) && features == old(features) && imported == old(imported)
    {
      var u := ui;
      if other.ui.scanUi.Some? {
        u := u.(scanUi := other.ui.scanUi);
      }
      if other.ui.updateDelayMs != 100 {
        u := u.(updateDelayMs := other.ui.updateDelayMs);
      }
      if other.ui.si {
        u := u.(si := true);
      }
      ui := u;
    }

    /** The display-option part of `Config::merge`. */
    method MergeDisplay(other: ConfigData)
      modifies this
      ensures display == MergedDisplay(old(display), other.display)
      ensures scan == old(scan) && exports == old(exports) && ui == old(ui) && sorting == old(sorting) && features == old(features) && imported == old(imported)
    {
      var d := display;
      if !other.display.showHidden {
        d := d.(showHidden := false);
      }
      if !other.display.showBlocks {
        d := d.(showBlocks := false);
      }
      if other.display.showItems {
        d := d.(showItems := true);
      }
      if other.display.showMtime {
        d := d.(showMtime := true);
      }
      if !other.display.showGraph {
        d := d.(showGraph := false);
      }
      if other.display.showPercent {
        d := d.(showPercent := true);
      }
      display := d;
    }

    /** The feature-flag part of `Config::merge`. */
    method MergeFeatures(other: ConfigData)
      modifies this
      ensures features == MergedFeatures(old(features), other.features)
      ensures scan == old(scan) && exports == old(exports) && ui == old(ui) && display == old(display) && sorting == old(sorting) && imported == old(imported)
    {
      var f := features;
      if other.features.canDelete.Some? {
        f := f.(canDelete := other.features.canDelete);
      }
      if other.features.canShell.Some? {
        f := f.(canShell := other.features.canShell);
      }
      if other.features.canRefresh.Some? {
        f := f.(canRefresh := other.features.canRefresh);
      }
      if other.features.confirmQuit {
        f := f.(confirmQuit := true);
      }
      if !other.features.confirmDelete {
        f := f.(confirmDelete := false);
      }
      if other.features.deleteCommand != "" {
        f := f.(deleteCommand := other.features.deleteCommand);
      }
      features := f;
    }

    /** The line filter of `Config::load_exclude_file`, on the file's text. */
    method LoadExcludeContent(content: string)
      modifies this
      ensures scan == old(scan).(excludePatterns := old(scan).excludePatterns + ExcludeLines(Lines(content)))
      ensures exports == old(exports) && ui == old(ui) && display == old(display)
      ensures sorting == old(sorting) && features == old(features) && imported == old(imported)
    {
      var lines := Lines(content);
      var patterns := scan.excludePatterns;
      for i := 0 to |lines|
        invariant patterns == old(scan).excludePatterns + ExcludeLines(lines[..i])
      {
        assert lines[..i + 1][..i] == lines[..i];
        var line := Trim(lines[i]);
        if |line| > 0 && line[0] != '#' {
          patterns := patterns + [line];
        }
      }
      assert lines[..|lines|] == lines;
      scan := scan.(excludePatterns := patterns);
    }

    /** The thread default applied at the end of `Config::from_args`. */
    method FillThreadDefault(cpus: nat)
      modifies this
      ensures View() == old(View()).(scan := old(scan).(threads := ResolvedThreads(old(scan).threads, cpus)))
    {
      if scan.threads == 0 {
        scan := scan.(threads := DefaultThreads(cpus));
      }
    }
  }

  /** `Config::parse_config_content`: a default configuration updated line
      by line. */
  method ParseConfigContent(content: string, cpus: nat) returns (r: Result<ConfigData, string>)
    ensures r == ParsedContent(content, cpus)
  {
    var config := new Config(cpus);
    var lines := Lines(content);
    for i := 0 to |lines|
      invariant ProcessLines(DefaultConfig(cpus), lines[..i]) == Ok(config.View())
    {
      assert lines[..i + 1][..i] == lines[..i];
      var line := Trim(lines[i]);
      if |line| == 0 || line[0] == '#' {
        continue;
      }
      var ignoreError := line[0] == '@';
      var body := if ignoreError then line[1..] else line;
      var result;
      match SplitOnce(body, '=') {
        case Some((key, value)) =>
          result := config.ApplyConfigOption(Trim(key), Trim(value));
        case None =>
          result := config.ApplyConfigFlag(body);
      }
      if result.Err? && !ignoreError {
        ErrorIsFinal(DefaultConfig(cpus), lines, i + 1);
        return Err("Error in config line: " + body);
      }
    }
    assert lines[..|lines|] == lines;
    r := Ok(config.View());
  }
}
