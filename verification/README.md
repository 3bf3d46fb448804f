# rsdu core, modelled and verified in Dafny

rsdu is a disk-usage analyser in the spirit of ncdu. It scans a directory
tree into a tree of `Entry` records. Each record carries its own size and
blocks, its device, inode and link count, and its type (directory, file,
symlink, hard link, special, error, excluded, other file system, kernel
file system). rsdu then sorts each directory's children and lets the user
browse the tree. This project models the parts of rsdu that decide things,
each in the form the Rust code has:

- `model.dfy` (module `Model`, src/model.rs)
  - The `Entry` tree as an inductive datatype.
  - Its recursive aggregates (total size, blocks and items; shared size and
    blocks; sub-errors).
  - The serialisable projection and its inverse.
  - The children comparator of `sort_children`, with an in-place insertion
    sort on an `array` proved to leave a sorted permutation in which
    entries that compare Equal keep their relative order (a stable sort).
  - `ScanStats` as a class of six counters.
- `scanner.dfy` (module `Scanner`, src/scanner.rs)
  - The sequential scan engine. The file system is an abstract tree of
    metadata and listing outcomes.
  - A reference function `ScanNode` defines what a scan yields. The
    `ScanContext` class's methods are proved to compute exactly that,
    updating the statistics, the hard-link registry and the entry-id
    counter in place.
  - Lemmas state the classification precedence, failure containment and
    exact accounting of the statistics. They also state hard-link
    de-duplication: each registered inode keeps one File entry, and every
    later sighting of it is a Hardlink entry.
  - `natural_sort` and its saturating `extract_number`.
- `config.dfy` (module `Configuration`, src/config.rs)
  - The `Config` class: flag and option setters, the `--sort` parser and
    `merge`.
  - The line-oriented configuration-file parser, the exclude-file line
    filter and the thread-count default.
- `cli.dfy` (module `Cli`, src/cli.rs): `Args::validate` and
  `is_valid_sort_option`.
- `utils.dfy` (module `Utils`, src/utils.rs)
  - Thousands separators, hidden-name test, `path_file_name`,
    `expand_user_path` with HOME as a parameter, and `natural_compare` with
    its zero-on-overflow `extract_number`.
  - Control-character escaping, truncation and padding.
- `errors.dfy` (module `Errors`, src/error.rs): the `RsduError` taxonomy,
  `is_recoverable`, `path()`, the constructor helpers and
  `io_error_with_path`.
- `browser.dfy` (module `Browser`, src/browser.rs)
  - The `Browser` class: selection, scrolling, directory stack and help
    toggle.
  - Its transitions are specified by pure functions on a `BrowserState`
    value.
- `tui.dfy` (module `Tui`, src/tui.rs)
  - The `TuiApp` mode machine (Scanning, Browsing, Quit) and its browsing
    transitions.
  - The percentage bar, the type-indicator mapping, the breadcrumb path
    and the directory-size helpers.
- Helper modules:
  - `wrappers.dfy` (`Option`, `Result`, `Ordering`).
  - `strings.dfy`: the Rust string operations the code relies on, such as
    trim, lines, split_once / rsplit_once, join, split and unsigned integer
    parse / print.
  - `natural.dfy`: a token-based reference definition of natural ordering,
    shared by the two natural comparators.

Both comparators are loops over peekable iterators. In the model they are
`while` loops proved equal to the `Natural.NaturalOrder` reference, which
is proved reflexive, antisymmetric and transitive. The two copies differ
only in the value of a digit run that overflows a `u64`: the scanner
saturates it at `u64::MAX` and `utils.rs` parses it as 0. This is kept as
the `Overflow` parameter.

## Model

| member | source | states |
|---|---|---|
| Wrappers.CompareInt | src/model.rs:313-316 | `Ord::cmp` on integers: Less, Equal or Greater exactly when a < b, a == b, a > b |
| Wrappers.CompareOption | src/model.rs:317-321 | `Option::cmp` on mtimes: None equals None, None is before Some, two Somes compare by value |
| Wrappers.Reverse | src/model.rs:324-327 | `Ordering::reverse` swaps Less and Greater and keeps Equal |
| Wrappers.CompareLexEqual | src/model.rs:313 | lexicographic name comparison is Equal exactly for equal names |
| Wrappers.CompareLexFlip | src/model.rs:313 | swapping two names reverses their lexicographic comparison |
| Wrappers.CompareLexTransitive | src/model.rs:313 | lexicographic name comparison is transitive |
| Strings.DecimalString | src/utils.rs:38 | `u64::to_string`: a non-empty digit string with no leading zero whose decimal value is n |
| Strings.ParseUnsigned | src/config.rs:285-288 | `str::parse` to an unsigned type fails on empty input or a lone '+', on any non-digit other than a leading '+', and on a value above the type's maximum; every other input parses, to the decimal value of its digits |
| Strings.DecimalRoundTrip | src/config.rs:285-288 | parsing the decimal string of n (n within range) gives back n |
| Strings.DecimalValueDetermines | src/config.rs:285-288 | two digit strings of equal length and equal value are equal |
| Strings.TrimStartRemovesWhitespace | src/config.rs:201 | `trim_start` removes exactly a whitespace prefix and stops at a non-whitespace char |
| Strings.TrimEndRemovesWhitespace | src/config.rs:201 | `trim_end` removes exactly a whitespace suffix and stops at a non-whitespace char |
| Strings.TrimmedEnds | src/config.rs:201 | a trimmed line is empty or starts and ends with non-whitespace |
| Strings.TrimUnchanged | src/config.rs:201 | a string with non-whitespace ends is its own trim |
| Strings.TrimIdempotent | src/config.rs:201 | trimming twice is trimming once |
| Strings.FindFirst | src/config.rs:215 | finds the first occurrence of a char, or reports that there is none |
| Strings.FindLast | src/config.rs:337 | finds the last occurrence of a char, or reports that there is none |
| Strings.SplitOnce | src/config.rs:215 | `split_once`: None iff the char is absent; otherwise the parts around its first occurrence |
| Strings.RSplitOnce | src/config.rs:337 | `rsplit_once`: None iff the char is absent; otherwise the parts around its last occurrence |
| Strings.SplitOnceAt | src/config.rs:215 | splitting `a + c + b` once, with c not in a, gives (a, b) |
| Strings.RSplitOnceAt | src/cli.rs:385 | splitting `a + c + b` at the last c, with c not in b, gives (a, b) |
| Strings.Lines | src/config.rs:200 | `str::lines` yields lines without a newline |
| Strings.LinesOfTerminated | src/config.rs:200 | `lines` of newline-terminated lines gives those lines back |
| Strings.Split | src/tui.rs:796 | splitting on a separator yields at least one piece |
| Strings.SplitPiecesLackSeparator | src/tui.rs:796 | no piece of a split holds the separator |
| Strings.SplitWithoutSeparator | src/tui.rs:796 | a string without the separator splits into itself |
| Strings.SplitAfterLast | src/tui.rs:796 | splitting `a + sep + b` (sep not in b) is the split of a followed by b |
| Strings.SplitJoin | src/browser.rs:554 | splitting names joined by a separator they lack gives the names back |
| Strings.SplitRootedJoin | src/tui.rs:796 | splitting "/" + names joined by "/" gives an empty first piece then the names |
| Natural.RunValue | src/scanner.rs:597-610 | a digit run's value never exceeds u64::MAX and equals its decimal value when that fits |
| Natural.DigitRunLength | src/scanner.rs:599-608 | the maximal run of leading digits: all digits, followed by a non-digit or the end |
| Natural.DigitRunLengthUnique | src/scanner.rs:599-608 | any digit prefix followed by a non-digit or the end is the maximal run |
| Natural.NumberTokenStep | src/scanner.rs:573-580 | one step of the walk at a digit consumes the maximal run as one number token |
| Natural.CharTokenStep | src/scanner.rs:581-588 | one step of the walk at a non-digit consumes exactly that character |
| Natural.MixedCharStep | src/scanner.rs:573-588 | where one name has a digit and the other a non-digit, comparing the characters agrees with comparing a number token to that char, and is never Equal |
| Natural.FirstTokenIsNumber | src/scanner.rs:573 | a name starting with a digit starts with a number token |
| Natural.CharTokens | src/scanner.rs:581-588 | a word without digits tokenises into one char token per character |
| Natural.TokensAfterWord | src/scanner.rs:581-588 | tokenising a digit-free word followed by s is its char tokens then the tokens of s |
| Natural.TokensAfterNumber | src/scanner.rs:573-580 | tokenising a digit run followed by a non-digit is one number token then the rest |
| Natural.CompareTokensCommonPrefix | src/scanner.rs:567-592 | a shared token prefix does not affect the comparison |
| Natural.CompareNumberedNames | src/scanner.rs:562-594 | names equal but for one digit run compare as the runs' values |
| Natural.TokensWellFormed | src/scanner.rs:562-594 | a tokenised name never has two number tokens in a row |
| Natural.CompareTokensReflexive | src/scanner.rs:562-594 | token sequences compare Equal to themselves |
| Natural.CompareTokenFlip | src/scanner.rs:562-594 | swapping two tokens reverses their comparison |
| Natural.CompareTokensFlip | src/scanner.rs:562-594 | swapping two token sequences reverses their comparison |
| Natural.CompareTokenTransitive | src/scanner.rs:562-594 | token comparison is transitive, strictly so when one step is strict |
| Natural.CompareTokensTransitive | src/scanner.rs:562-594 | comparison of well-formed token sequences is transitive |
| Natural.NaturalOrderReflexive | src/scanner.rs:562-594 | natural order of a name with itself is Equal |
| Natural.NaturalOrderFlip | src/scanner.rs:562-594 | natural order of (b, a) is the reverse of (a, b) |
| Natural.NaturalOrderTransitive | src/scanner.rs:562-594 | natural order is transitive, so it is a total preorder usable by a sort |
| Model.EntryTypeClasses | src/model.rs:53-63 | `is_directory` holds exactly for Directory, OtherFs, KernelFs; `is_countable` fails exactly for Error, Excluded; directories are countable |
| Model.NoExtendedInfo | src/model.rs:92-99 | `ExtendedInfo::new` is empty |
| Model.IsEmptyExactlyNew | src/model.rs:101-103 | `is_empty` holds exactly for the value `new` builds |
| Model.NewEntry | src/model.rs:159-183 | `Entry::new` stores the given fields, with no extended info, no error and no children |
| Model.ErrorEntry | src/model.rs:186-201 | `Entry::error`: type Error (so `has_error`), size, blocks, device, inode and nlink 0, the message stored, no children |
| Model.AddChild | src/model.rs:229-250 | `add_child` puts the child after the existing children, which keep their order, and changes nothing else; the parent's total size, blocks and item count grow by exactly the child's, and it has an error below it iff it had one before or the child is or holds one |
| Model.Names | src/browser.rs:549-552 | the names of a sequence of entries, position by position |
| Model.LeafTotals | src/model.rs:238-250 | a leaf's totals are its own size and blocks, one item, and it has no sub-error |
| Model.ErrorEntryTotals | src/model.rs:186-250 | an error entry totals 0 size, 0 blocks, 1 item, with no sub-error |
| Model.OwnSumsAppend | src/model.rs:238-246 | own sizes and blocks of a concatenation add up |
| Model.TotalsAreSumsOverSubtree | src/model.rs:238-250 | `total_size`/`total_blocks` are the sums of own sizes/blocks over the whole subtree, `total_items` its node count |
| Model.SumsOverSubtrees | src/model.rs:238-250 | the same for a sequence of children |
| Model.HasSubErrorIffErrorBelow | src/model.rs:223-227 | `has_sub_error` holds iff some proper descendant has type Error |
| Model.AnyErrorIffErrorIn | src/model.rs:223-227 | children have an error at or below them iff some node of their subtrees is an Error |
| Model.SharedWithinTotal | src/model.rs:253-293 | `shared_size` ≤ `total_size` and `shared_blocks` ≤ `total_blocks` |
| Model.SumSharedWithinTotal | src/model.rs:253-293 | the same bound summed over children |
| Model.SharedSizesAppend | src/model.rs:253-272 | shared sizes of a concatenation add up |
| Model.SharedSizeIsSumOfSharedEntries | src/model.rs:253-272 | `shared_size` is the sum, over the subtree, of the size of every node that is multiply linked, registered, and has links outside the tree |
| Model.SumSharedSizeOverSubtrees | src/model.rs:253-272 | the same for a sequence of children |
| Model.NothingSharedWithoutLinks | src/model.rs:253-293 | with an empty hard-link map nothing is shared |
| Model.NothingSharedWithoutLinksAll | src/model.rs:253-293 | the same for a sequence of children |
| Model.ToSerializable | src/model.rs:333-347 | `to_serializable` copies every field and projects the children one by one |
| Model.ToSerializableAll | src/model.rs:345 | children are projected position by position |
| Model.FromSerializable | src/model.rs:350-372 | `from_serializable` rebuilds every field and the children one by one |
| Model.FromSerializableAll | src/model.rs:364-368 | children are rebuilt position by position |
| Model.FromToSerializable | src/model.rs:333-372 | `from_serializable(to_serializable(e)) == e` for every tree |
| Model.ToFromSerializable | src/model.rs:333-372 | `to_serializable(from_serializable(s)) == s` for every serialised tree |
| Model.CompareEntries | src/model.rs:297-329 | with dirs_first a directory-like entry sorts before a non-directory, and after it the other way round |
| Model.DescReversesAsc | src/model.rs:325-328 | outside the dirs-first split, Desc compares (a, b) as Asc compares (b, a) |
| Model.MissingMtimeFirst | src/model.rs:317-321 | in ascending mtime order an entry without mtime precedes one with |
| Model.CompareColumnFlip | src/model.rs:312-322 | each column comparison is antisymmetric |
| Model.CompareColumnTransitive | src/model.rs:312-322 | each column comparison is transitive |
| Model.CompareEntriesFlip | src/model.rs:297-329 | the full comparator is antisymmetric |
| Model.CompareEntriesTransitive | src/model.rs:297-329 | the full comparator is transitive |
| Model.SortedSnoc | src/model.rs:297 | a sorted sequence extended by an element no smaller than every member stays sorted |
| Model.AdjacentSortedIsSorted | src/model.rs:297 | for this comparator, sorted adjacent pairs imply every pair is in order |
| Model.SortedDirectoriesFirst | src/model.rs:300-310 | after sorting with dirs_first, every directory-like child precedes every other child |
| Model.Insert | src/model.rs:297 | insertion into a sorted run adds one element |
| Model.StableSort | src/model.rs:297 | the sort reference keeps the length |
| Model.InsertPermutes | src/model.rs:297 | insertion adds exactly the new element to the multiset |
| Model.InsertLast | src/model.rs:297 | after insertion the last element is the new one or the previous last |
| Model.InsertKeepsSorted | src/model.rs:297 | insertion keeps adjacent pairs in order |
| Model.StableSortPermutes | src/model.rs:297 | the sort result is a permutation of its input |
| Model.StableSortSorted | src/model.rs:297 | the sort result is sorted by the comparator |
| Model.StableSortAdjacent | src/model.rs:297 | the sort result has its adjacent pairs in order |
| Model.TiesSnoc | src/model.rs:297 | the ties of an entry in a sequence grow by the appended element when it ties |
| Model.InsertTies | src/model.rs:297 | insertion moves the new element only past elements it does not tie with, so every entry's ties keep their order and gain at most the new element, last |
| Model.StableSortStable | src/model.rs:297 | `sort_by` is stable: for every entry, the elements comparing Equal with it are in the same order before and after the sort |
| Model.InsertSums | src/model.rs:238-250 | insertion adds the new element's totals to the sums |
| Model.StableSortSums | src/model.rs:238-250 | sorting keeps the summed size, blocks and items of the children |
| Model.SortInPlace | src/model.rs:297-329 | the in-place array sort leaves exactly the stable sort of the old contents |
| Model.InsertInvStep | src/model.rs:297 | one swap step of the in-place insertion keeps its invariant |
| Model.InsertInvDone | src/model.rs:297 | when the swaps stop, the prefix is the insertion of the new element |
| Model.InsertAt | src/model.rs:297 | inserting a[i] into the sorted prefix a[..i], leaving the rest of the array alone |
| Model.SwapAdjacent | src/model.rs:297 | swapping two neighbours changes exactly those two cells |
| Model.SortChildren | src/model.rs:296-330 | `sort_children` leaves a permutation of the children, sorted by the column, order and dirs-first rule, in which children that compare Equal keep their old order |
| Model.ScanStats.constructor | src/model.rs:441-443 | `ScanStats::new`: all six counters 0 |
| Model.ScanStats.IncrementEntries | src/model.rs:445-447 | raises the entry counter by one, leaves the others unchanged, none decreases |
| Model.ScanStats.IncrementDirectories | src/model.rs:449-451 | raises the directory counter by one, leaves the others unchanged, none decreases |
| Model.ScanStats.IncrementFiles | src/model.rs:453-455 | raises the file counter by one, leaves the others unchanged, none decreases |
| Model.ScanStats.IncrementErrors | src/model.rs:457-459 | raises the error counter by one, leaves the others unchanged, none decreases |
| Model.ScanStats.AddSize | src/model.rs:461-463 | adds the size to the size counter, leaves the others unchanged, none decreases |
| Model.ScanStats.AddBlocks | src/model.rs:465-467 | adds the blocks to the block counter, leaves the others unchanged, none decreases |
| Model.ScanStatsScenario | src/model.rs:543-552 | one entry, one file and 1024 bytes give entries 1, files 1, size 1024 |
| Errors.Quoted | src/error.rs:16-26 | the path between single quotes, as the error messages print it |
| Errors.Path | src/error.rs:77-85 | `path()` is Some exactly for PermissionDenied, PathNotFound, InvalidPath and ScanError, and returns the stored path |
| Errors.RecoverableHasPath | src/error.rs:67-85 | every recoverable error has a path; InvalidPath is the only error with a path that is not recoverable |
| Errors.OccursAfterPrefix | src/error.rs:16-26 | a part placed inside a message occurs in it |
| Errors.DescribeShowsPath | src/error.rs:16-26 | the message of every error with a path shows that path in quotes |
| Errors.PermissionDeniedAt | src/error.rs:88-93 | `permission_denied` stores the path and source, and is recoverable |
| Errors.PathNotFoundAt | src/error.rs:96-98 | `path_not_found` stores the path, and is recoverable |
| Errors.InvalidPathAt | src/error.rs:101-106 | `invalid_path` stores the path and reason, and is not recoverable |
| Errors.ScanErrorAt | src/error.rs:109-114 | `scan_error` stores the path and message, and is recoverable |
| Errors.IoErrorWithPath | src/error.rs:118-125 | PermissionDenied kind becomes PermissionDenied{path}, NotFound becomes PathNotFound{path}, anything else Io; recoverable exactly for the first two |
| Errors.WithPath | src/error.rs:132-136 | `with_path` keeps an Ok value and maps an error through `io_error_with_path` |
| Utils.KeepPieces | src/utils.rs:53-58 | the kept path components are all real names (not empty, not ".") |
| Utils.FileName | src/utils.rs:184-189 | `Path::file_name` returns, when there is one, a plain name: non-empty, no '/', not "." or ".." |
| Utils.KeepPiecesNoSeparator | src/utils.rs:53-58 | filtering keeps the components free of '/' |
| Utils.ComponentsHaveNoSeparator | src/utils.rs:53-58 | no path component contains '/' |
| Utils.ComponentsOfPlainName | src/utils.rs:53-58 | a plain name is a single component |
| Utils.ComponentsAfterSeparator | src/utils.rs:53-58 | the components of dir/name are those of dir followed by name |
| Utils.FileNameOfJoin | src/utils.rs:184-189 | the file name of `dir.join(name)` is name |
| Utils.HiddenIffNameStartsWithDot | src/utils.rs:53-59 | `is_hidden_file(dir/name)` holds iff name starts with '.' |
| Utils.HiddenNameExample | src/utils.rs:303 | ".hidden" is hidden |
| Utils.VisibleNameExample | src/utils.rs:305 | "visible" is not hidden |
| Utils.HiddenInDirectoryExample | src/utils.rs:304 | "/path/to/.hidden" is hidden |
| Utils.VisibleInDirectoryExample | src/utils.rs:306 | "/path/to/visible" is not hidden |
| Utils.PathFileName | src/utils.rs:184-189 | `path_file_name` is the file name when there is one, else "" |
| Utils.ExpandUserPath | src/utils.rs:62-79 | with HOME set, "~" becomes HOME and "~/rest" becomes HOME joined with rest; every other path, and every path without HOME, is unchanged |
| Utils.ExpandedNameInHome | src/utils.rs:62-79 | "~/name" expands to a path whose file name is name |
| Utils.LoopOutputShort | src/utils.rs:42-47 | up to three digits the separator loop inserts nothing |
| Utils.LoopOutputPrefix | src/utils.rs:42-47 | the loop's output on a prefix depends only on the digits' distance from the end |
| Utils.LoopOutputIsGrouped | src/utils.rs:42-47 | the loop puts a separator before every group of three digits counted from the right |
| Utils.FormatNumberWithSeparator | src/utils.rs:37-50 | the result is the decimal string of num grouped in threes from the right |
| Utils.DigitsOfAppend | src/utils.rs:37-50 | keeping only digits distributes over concatenation |
| Utils.DigitsOfDigits | src/utils.rs:37-50 | a digit string keeps all its characters |
| Utils.DigitsOfNone | src/utils.rs:37-50 | a separator without digits vanishes |
| Utils.UngroupGrouped | src/utils.rs:37-50 | removing a digit-free separator from the grouped string gives back the digits |
| Utils.GroupedExamples | src/utils.rs:331-335 | 1000 → "1,000", 1234567 → "1,234,567", 123 → "123" |
| Utils.DecimalStringExamples | src/utils.rs:38 | the decimal strings of 123, 1000 and 1234567 |
| Utils.ExtractNumber | src/utils.rs:155-168 | consumes the maximal digit run; its value, or 0 when it overflows a u64 |
| Utils.NaturalCompare | src/utils.rs:118-152 | the loop computes the natural order with the zero-on-overflow rule |
| Utils.NaturalCompareSmallerNumber | src/utils.rs:313 | "file1.txt" < "file2.txt" |
| Utils.NaturalCompareLargerNumber | src/utils.rs:314-317 | "file10.txt" > "file2.txt" |
| Utils.NaturalCompareSameName | src/utils.rs:318 | "file1.txt" equals itself |
| Utils.HexDigit | src/utils.rs:177 | a hex digit is printable |
| Utils.EscapeCharPrintable | src/utils.rs:171-181 | one escaped character is printable; a printable char is kept, a control char becomes a backslash escape |
| Utils.EscapedControlReadsBack | src/utils.rs:177 | a control char other than tab, newline and return becomes "\x" and two hex digits giving its code |
| Utils.EscapedIsPrintable | src/utils.rs:171-181 | `escape_for_display` output has no control characters and is no shorter than its input |
| Utils.PlainTextUnescaped | src/utils.rs:171-181 | text without control characters is unchanged |
| Utils.EscapeTabAndNewline | src/utils.rs:353 | tab and newline become "\t" and "\n" between printable text |
| Utils.EscapeForDisplayPlainExample | src/utils.rs:354 | "normal" is unchanged |
| Utils.EscapeOne | src/utils.rs:171-181 | a one-character string escapes as that character |
| Utils.EscapeAppend | src/utils.rs:171-181 | escaping is character by character, so it distributes over concatenation |
| Utils.TruncateString | src/utils.rs:226-233 | unchanged when short enough; otherwise the first max−3 chars (none when max < 3) followed by "...", never longer than max when max ≥ 3 |
| Utils.TruncateStringExamples | src/utils.rs:339-341 | "hello"/10, "hello world"/8 → "hello...", "hi"/5 |
| Utils.Spaces | src/utils.rs:241 | n spaces |
| Utils.PadString | src/utils.rs:236-248 | length max(len, width); right-aligned puts the spaces before the text, otherwise after |
| Utils.PadStringExamples | src/utils.rs:345-347 | "hello"/10 left and right, "hello world"/5 |
| Cli.ConflictExcluded | src/cli.rs:288-349 | a set mutually exclusive pair breaks the no-conflict condition |
| Cli.ValidateOkIffConsistent | src/cli.rs:282-378 | `validate` is Ok exactly when at most one UI mode is set, no exclusive pair is set, threads ≠ 0, the compression level is in 1..=22, the block size in 4..=16000 and the sort option is valid |
| Cli.OkMeansConsistent | src/cli.rs:282-378 | an Ok from `validate` implies every condition |
| Cli.ConsistentMeansOk | src/cli.rs:282-378 | meeting every condition gives Ok |
| Cli.TwoUiModesRejected | src/cli.rs:284-286 | two or more UI modes give the UI-mode error, checked first |
| Cli.ExclusivePairRejected | src/cli.rs:288-349 | any set exclusive pair makes `validate` fail |
| Cli.NumericRangesChecked | src/cli.rs:352-368 | threads 0, a level outside 1..=22 or a block size outside 4..=16000 makes `validate` fail |
| Cli.ValidateExamples | src/cli.rs:471-477 | all-default arguments validate; same-fs with cross-fs fails on the first exclusive pair |
| Cli.UncheckedPairsAccepted | src/cli.rs:282-378 | enable/disable-shell and slow/fast-updates together are accepted, since `validate` does not check them |
| Cli.SortOptionWithOrder | src/cli.rs:381-390 | a valid column, '-', a valid order is a valid sort option |
| Cli.SortOptionsEnumerated | src/cli.rs:381-390 | the valid sort options are exactly the listed set |
| Cli.AcceptedIsValid | src/cli.rs:381-390 | every listed option is valid |
| Cli.AcceptedWithOrder | src/cli.rs:381-390 | every listed option with an order is valid |
| Cli.ValidIsAccepted | src/cli.rs:381-390 | every valid option is listed |
| Cli.ColumnWithOrderAccepted | src/cli.rs:381-390 | column-order combinations are listed |
| Cli.LoneColumnAccepted | src/cli.rs:381-390 | a column without '-' is listed |
| Cli.SortOptionAcceptedExamples | src/cli.rs:397-399 | "name", "name-asc" and "disk-usage-desc" are valid |
| Cli.SortOptionRejectedExamples | src/cli.rs:400-401 | "invalid" and "name-invalid" are not |
| Cli.BareDiskUsageInvalid | src/cli.rs:381-390 | bare "disk-usage" is rejected, because the split at the last '-' gives column "disk" |
| Configuration.DefaultThreads | src/config.rs:97 | the default thread count is the processor count, at least 1 |
| Configuration.DefaultConfig | src/config.rs:89-140 | defaults: same_fs and extended off, threads ≥ 1, no patterns, sort by size descending |
| Configuration.FlagOutcome | src/config.rs:235-280 | a rejected flag leaves the configuration unchanged |
| Configuration.SetSwitchChangesOnlyIt | src/config.rs:235-279 | setting one switch changes that switch and no other |
| Configuration.SetSwitchTwice | src/config.rs:235-279 | the later setting of a switch wins |
| Configuration.ScanFlagNames | src/config.rs:237-242 | same-fs/one-file-system/cross-file-system, extended/no-extended, follow-symlinks/no-follow-symlinks set their fields |
| Configuration.CacheFlagNames | src/config.rs:243-246 | exclude/include-caches and exclude/include-kernfs set their fields |
| Configuration.UnitFlagNames | src/config.rs:247-250 | compress/no-compress and si/no-si set their fields |
| Configuration.DisplayFlagNames | src/config.rs:251-256 | show/hide-hidden, apparent-size/disk-usage and show/hide-itemcount set their fields |
| Configuration.ColumnFlagNames | src/config.rs:257-262 | show/hide-mtime, -graph and -percent set their fields |
| Configuration.SortFlagNames | src/config.rs:263-266 | group-directories-first and the natsort flags set their fields |
| Configuration.ConfirmFlagNames | src/config.rs:267-270 | confirm-quit and confirm-delete flags set their fields |
| Configuration.FeatureFlagNames | src/config.rs:271-276 | enable/disable-shell, -delete and -refresh set their tri-state fields |
| Configuration.FlagPairs | src/config.rs:235-279 | every switch has an on-flag and an off-flag |
| Configuration.PairedFlagsAreInverse | src/config.rs:235-279 | an on-flag followed by its off-flag is the off-flag alone, and vice versa |
| Configuration.ParseNumber | src/config.rs:285-288 | a parsed option number is within the target type's maximum |
| Configuration.OptionOutcome | src/config.rs:283-333 | a rejected option other than "sort" leaves the configuration unchanged |
| Configuration.ExportBlockSizeInBytes | src/config.rs:287-290 | "export-block-size" stores the parsed u16 times 1024, and a value above u16 fails with the configuration unchanged |
| Configuration.ThreadsOption | src/config.rs:285 | "threads=n" sets threads to n |
| Configuration.ExtendedTakesBooleansOnly | src/config.rs:293-304 | "extended" accepts exactly "true" and "false" and sets the field accordingly |
| Configuration.DefaultOrder | src/config.rs:361-364 | the default order is Asc exactly for Name and Mtime |
| Configuration.SortWithOrder | src/config.rs:336-367 | "column-order" sets both on asc/desc; an invalid order fails after the column is already set |
| Configuration.SortWithoutOrder | src/config.rs:336-367 | a column alone sets the column and its default order |
| Configuration.InvalidSortColumn | src/config.rs:343-350 | an invalid column fails with the configuration unchanged |
| Configuration.SortOptionExamples | src/config.rs:717-727 | "name-asc" gives Name/Asc, "blocks" gives Blocks/Desc |
| Configuration.BareDiskUsageRejected | src/config.rs:336-350 | a bare "disk-usage" fails as column "disk" |
| Configuration.ValidColumnParses | src/config.rs:343-350 | every column the command line accepts parses here |
| Configuration.ValidatedSortOptionParses | src/config.rs:336-367 | every sort option `validate` accepts parses without error |
| Configuration.SkippedLine | src/config.rs:201-206 | blank and '#' lines change nothing |
| Configuration.IgnoredLineNeverFails | src/config.rs:209-227 | a line starting with '@' never fails the parse |
| Configuration.ErrorIsFinal | src/config.rs:200-228 | once a prefix of the lines fails, the whole parse fails the same way |
| Configuration.FirstBadLineFails | src/config.rs:200-228 | the first failing line decides the result |
| Configuration.FlagLine | src/config.rs:224-228 | a line without '=' is applied as a flag, and its failure is reported with the line |
| Configuration.OptionLine | src/config.rs:215-222 | a line with '=' is split at the first '=' into trimmed key and value, and applied as an option |
| Configuration.ExampleFlagLine | src/config.rs:705 | "same-fs" sets same_fs |
| Configuration.ExampleThreadsLine | src/config.rs:706 | "threads=8" sets threads to 8 |
| Configuration.ExampleExcludeLine | src/config.rs:707 | "exclude=*.tmp" appends "*.tmp" |
| Configuration.ProcessLinesStep | src/config.rs:200-228 | one more line either keeps an earlier error or is applied to the result so far |
| Configuration.ExampleText | src/config.rs:703-708 | the example text splits into its lines |
| Configuration.ExampleFirstLines | src/config.rs:703-705 | blank, comment and "same-fs" lines give same_fs only |
| Configuration.ExampleLinesApply | src/config.rs:703-708 | the example's lines set same_fs, threads 8 and exclude "*.tmp" |
| Configuration.ExampleConfigParses | src/config.rs:702-714 | the example content parses to the defaults with same_fs, threads 8 and patterns ["*.tmp"] |
| Configuration.MergeKeepsScanOptions | src/config.rs:592-610 | merging never turns an enabled scan option off, and appends the other's patterns after its own |
| Configuration.MergeDefaultIsIdentity | src/config.rs:589-671 | merging in a default configuration changes nothing |
| Configuration.MergeKeepsUntouchedChoices | src/config.rs:589-671 | sorting, colour, graph style, shared column and export file names are never taken from the other side |
| Configuration.ExcludePatternsWellFormed | src/config.rs:578-583 | exclude-file patterns are non-empty, not comments, trimmed, and no more than the lines |
| Configuration.ResolvedThreads | src/config.rs:160-162 | a thread count of 0 becomes the processor default (at least 1); any other is kept |
| Configuration.Config.constructor | src/config.rs:89-140 | a new configuration holds the defaults |
| Configuration.Config.ApplyConfigFlag | src/config.rs:235-280 | `apply_config_flag` returns and applies what the flag table says |
| Configuration.Config.ApplyConfigOption | src/config.rs:283-333 | `apply_config_option` returns and applies what the option table says |
| Configuration.Config.ParseSortOption | src/config.rs:336-367 | `parse_sort_option` returns and applies the sort-option outcome |
| Configuration.Config.Merge | src/config.rs:589-671 | `merge` leaves each group of fields as the merge rules give, sorting untouched |
| Configuration.Config.MergeScan | src/config.rs:592-610 | merges the scan options and nothing else |
| Configuration.Config.MergeExports | src/config.rs:612-620 | merges the export options and nothing else |
| Configuration.Config.MergeUi | src/config.rs:622-630 | merges the interface options and nothing else |
| Configuration.Config.MergeDisplay | src/config.rs:632-650 | merges the display options and nothing else |
| Configuration.Config.MergeFeatures | src/config.rs:652-670 | merges the feature flags and nothing else |
| Configuration.Config.LoadExcludeContent | src/config.rs:578-583 | appends the exclude file's filtered lines to the patterns, nothing else changes |
| Configuration.Config.FillThreadDefault | src/config.rs:159-162 | replaces a zero thread count by the default, nothing else changes |
| Configuration.ParseConfigContent | src/config.rs:197-231 | the line loop computes the parse of the content from the defaults |
| Scanner.U32 | src/scanner.rs:233 | the `as u32` cast keeps the low 32 bits and is the identity below 2^32 |
| Scanner.ScanItemsIncluded | src/scanner.rs:400-406 | an included, readable listing item is scanned and its entry appended |
| Scanner.ScanItemsPassed | src/scanner.rs:400-406 | an unreadable or excluded listing item adds nothing and changes nothing |
| Scanner.ScanNodeCounted | src/scanner.rs:212-266 | readable metadata and no placeholder type lead to the counted path |
| Scanner.ScanCountedDirectory | src/scanner.rs:268-361 | a directory is counted as one and then scanned as a directory |
| Scanner.ScanCountedFile | src/scanner.rs:268-361 | a non-directory is counted as a file and returned |
| Scanner.CountedEntryShape | src/scanner.rs:268-312 | a counted entry has the metadata's size and blocks, no children, no error, and is a Hardlink exactly when it is a multiply-linked file already registered |
| Scanner.ScanContext.constructor | src/scanner.rs:89-96 | a new context has zero statistics, an empty registry and no root device |
| Scanner.ScanContext.GenerateEntryId | src/model.rs:498-500 | hands out the next id and advances the counter by one |
| Scanner.ScanContext.ScanEntry | src/scanner.rs:204-364 | `scan_entry` returns the entry and leaves the statistics, registry and id counter as the reference scan says |
| Scanner.ScanContext.ScanCountedEntry | src/scanner.rs:268-361 | the counted part of `scan_entry`, as the reference says |
| Scanner.ScanContext.RecordHardlinkStep | src/scanner.rs:288-312 | the hard-link bookkeeping updates the registry in place as the reference says |
| Scanner.ScanContext.ScanDirectoryEntry | src/scanner.rs:330-358 | the directory part of `scan_entry`, as the reference says |
| Scanner.ScanContext.ScanDirectoryContents | src/scanner.rs:366-413 | a failed listing returns the scan error and changes nothing; otherwise the sequential loop returns the scanned included items |
| Scanner.NewContext | src/scanner.rs:75-97 | `ScanContext::new` fails with the first invalid exclude pattern, otherwise builds a fresh context |
| Scanner.ScanDirectory | src/scanner.rs:143-201 | `scan_directory` returns the reference scan's root entry and final statistics, or its error |
| Scanner.AccountedNothing | src/scanner.rs:204-413 | an empty scan accounts for nothing |
| Scanner.SingleSums | src/scanner.rs:204-413 | sums over one entry are that entry's totals |
| Scanner.SnocSums | src/scanner.rs:366-413 | sums over children grow by the last child's totals |
| Scanner.AccountedSnoc | src/scanner.rs:400-406 | the accounting of a listing extends by that of its next child |
| Scanner.InsertCounts | src/scanner.rs:465-530 | insertion adds the new entry's error, Hardlink and first-sighting counts |
| Scanner.StableSortCounts | src/scanner.rs:465-530 | sorting keeps the error, Hardlink and first-sighting counts of the children |
| Scanner.AccountedSorted | src/scanner.rs:340-350 | sorting the children keeps their accounting |
| Scanner.LeafAccounted | src/scanner.rs:204-364 | a childless entry whose state change matches its own fields is accounted for |
| Scanner.NodeAccounted | src/scanner.rs:204-364 | every scanned entry is accounted for by the statistics, id counter and registry |
| Scanner.CountedAccounted | src/scanner.rs:268-361 | the same for the counted path |
| Scanner.CountedDirectoryAccounted | src/scanner.rs:326-358 | a counted directory, whatever becomes of it, is accounted for |
| Scanner.FileAccounted | src/scanner.rs:359-361 | a counted non-directory is accounted for |
| Scanner.DirectoryAccounted | src/scanner.rs:330-358 | a scanned directory keeps its size and blocks, becomes Directory, Excluded or Error, and its children are accounted for |
| Scanner.ItemsAccounted | src/scanner.rs:400-406 | the scanned items of a listing are accounted for |
| Scanner.ScanTotals | src/scanner.rs:148-201 | after a scan the size, block and error counters equal the tree's totals, entries = directories + files, one id per node, and per hard-link key the registry counts one plus the Hardlink entries; a registered key keeps exactly one File entry (its first sighting) when its recorded link total, the u32 cast of `nlink`, exceeds one and none otherwise, and a key never registered has no File entry with more than one link |
| Scanner.ScanNodeName | src/scanner.rs:219-276 | every entry is named by the path's file name, or the path when it has none |
| Scanner.ChildNamedAsListed | src/scanner.rs:403 | a listed child's entry has its listed name |
| Scanner.MetadataErrorLeaf | src/scanner.rs:213-223 | unreadable metadata gives an Error leaf with the message, errors + 1, nothing else counted |
| Scanner.PlaceholderUncounted | src/scanner.rs:226-266 | other-fs, kernel-fs and pattern-excluded entries are placeholders with size 0, blocks 0, no children, no counter change |
| Scanner.ScanPrecedence | src/scanner.rs:212-337 | OtherFs exactly when readable and on another file system; KernelFs exactly when not that but under a pseudo mount; Excluded only by a pattern or a cache tag |
| Scanner.CacheTaggedDirectory | src/scanner.rs:326-337 | a cache-tagged directory becomes Excluded yet keeps its size and blocks and is counted as an entry and a directory |
| Scanner.ListingFailureContained | src/scanner.rs:339-358 | an unlistable directory becomes an Error node with the scan-error message and no children, errors + 1, and the scan goes on |
| Scanner.HardlinkSighting | src/scanner.rs:288-312 | a first sighting registers {nlink, 1} and stays File; a later one increments links_in_tree and becomes Hardlink |
| Scanner.UnlinkedUnregistered | src/scanner.rs:288 | a single-link file or non-file leaves the registry unchanged and is not a Hardlink |
| Scanner.ScannedChildrenSorted | src/scanner.rs:339-350 | a listed directory's children are a permutation of its scanned items, sorted by the configured ordering |
| Scanner.ContentsFollowListing | src/scanner.rs:398-408 | the scanned children are named exactly as the included listing items, in listing order |
| Scanner.KernelFsOff | src/scanner.rs:121-123 | with exclude_kernfs off nothing is a kernel file system |
| Scanner.KernelMountAndBelow | src/scanner.rs:120-131 | a pseudo mount point and every path below it are kernel file systems |
| Scanner.NotUnderMountWithoutSeparator | src/scanner.rs:126-130 | a mount followed by anything but '/' is not under it |
| Scanner.ProcfooNotKernel | src/scanner.rs:120-131 | "/procfoo" is not a kernel file system |
| Scanner.DotEntriesExcluded | src/scanner.rs:425-428 | "." and ".." are never included |
| Scanner.HiddenNamesFollowSetting | src/scanner.rs:421-423 | another dot name is included iff show_hidden |
| Scanner.VisibleNamesIncluded | src/scanner.rs:416-431 | a name not starting with '.' is included |
| Scanner.EntryTypeOfKind | src/scanner.rs:443-462 | the type is Directory, File, Symlink or Special; directory-like iff a directory; File for files and unknown kinds |
| Scanner.PatternCheckFindsFirstInvalid | src/scanner.rs:76-87 | the pattern check succeeds iff every pattern compiles, and otherwise reports the first bad pattern |
| Scanner.SaturatingStep | src/scanner.rs:603 | one saturating multiply-add step extends the capped value of the run by a digit |
| Scanner.ExtractNumber | src/scanner.rs:597-610 | consumes exactly the maximal digit run, leaves the next non-digit, and yields its value capped at u64::MAX |
| Scanner.NaturalSort | src/scanner.rs:562-594 | the loop computes the natural order with the saturating rule |
| Scanner.NaturalSortSmallerNumber | src/scanner.rs:773 | "file1" < "file2" |
| Scanner.NaturalSortLargerNumber | src/scanner.rs:774 | "file10" > "file2" |
| Scanner.NaturalSortLeadingZero | src/scanner.rs:775 | "file01" equals "file1" |
| Scanner.ExtractNumberTest | src/scanner.rs:779-783 | on "123abc" the run is 123 and 'a' is next |
| Browser.VisibleHeight | src/browser.rs:256-259 | terminal height − 4, saturating at 0 |
| Browser.Scrolled | src/browser.rs:245-253 | with a positive height the selection lies in the window after scrolling; a visible selection keeps the offset |
| Browser.DescendsPrefix | src/browser.rs:195-216 | every prefix of a descent path from the root is a descent path |
| Browser.MovedClamps | src/browser.rs:178-192 | no-op on an empty directory; otherwise up saturates at 0, down caps at len−1, and the selection stays visible; the state stays valid |
| Browser.EnteredDescends | src/browser.rs:195-207 | enter descends only into a directory-like non-Error child, pushing the current directory and resetting selection and scroll; otherwise nothing changes |
| Browser.BackAscends | src/browser.rs:210-216 | back pops the stack and resets the selection, or is a no-op on an empty stack; the state stays valid |
| Browser.EnterThenBack | src/browser.rs:195-216 | enter then back restores the directory and stack, with selection and scroll at 0 |
| Browser.EnteredPathExtends | src/browser.rs:545-555 | entering appends "/" and the child's name to the current path |
| Browser.CurrentPathSplits | src/browser.rs:545-555 | the current path splits at '/' into the stack's names then the current name |
| Browser.QuitKeys | src/browser.rs:107-116 | Ctrl-C, q and Esc, and only they, quit, and they change nothing |
| Browser.KeyStepValid | src/browser.rs:107-175 | every key keeps the state valid: a descent from the root with the selection in range |
| Browser.HomeAndEnd | src/browser.rs:137-148 | Home sets selection and scroll to 0; End selects len−1 and scrolls it into view, or does nothing on an empty directory |
| Browser.StubKeysAndHelp | src/browser.rs:117-172 | s, r, a and d leave the state unchanged; '?' toggles help, and F1 then '?' restores it |
| Browser.Browser.constructor | src/browser.rs:40-50 | starts at the root with an empty stack, selection and scroll 0, help off |
| Browser.Browser.Resize | src/browser.rs:94-97 | a resize stores the new width and height and nothing else |
| Browser.Browser.HandleKey | src/browser.rs:107-175 | `handle_key` changes the state and returns the action as the key-step function says, keeping the state valid |
| Browser.Browser.MoveSelection | src/browser.rs:178-192 | `move_selection` leaves the moved state |
| Browser.Browser.EnterSelected | src/browser.rs:195-207 | `enter_selected` leaves the entered state |
| Browser.Browser.GoBack | src/browser.rs:210-216 | `go_back` leaves the state one level up |
| Browser.Browser.AdjustScroll | src/browser.rs:245-253 | `adjust_scroll` changes only the scroll offset, to the scrolled one |
| Browser.Browser.GetCurrentPath | src/browser.rs:545-555 | the loop builds the stack's names and the current name joined by "/" |
| Browser.NewBrowser | src/browser.rs:36-51 | a terminal-size error becomes a UI error; otherwise a fresh valid browser at the root with that size |
| Tui.BrowsingStartsAtRoot | src/tui.rs:278-290 | browsing starts at the root with an empty stack, selection 0, help off |
| Tui.MovedInClamps | src/tui.rs:362-384 | moving clamps the selection to 0..len−1 and is a no-op on an empty directory or outside Browsing |
| Tui.EnteredInDescends | src/tui.rs:387-409 | entering keeps the mode valid |
| Tui.BackInAscends | src/tui.rs:346-351 | going back keeps the mode valid |
| Tui.KeyEventValid | src/tui.rs:293-359 | every key keeps the mode valid |
| Tui.QuitKeys | src/tui.rs:293-359 | quit is signalled for q, Esc, c while scanning, and for q, Esc while browsing without help |
| Tui.HelpBlocksNavigation | src/tui.rs:311-352 | while help is shown navigation keys change nothing and q/Esc close help instead of quitting |
| Tui.NavigationAgrees | src/tui.rs:321-351 | the TUI's navigation keys move through the tree as the browser's do |
| Tui.TuiApp.constructor | src/tui.rs:135-139 | a new application is in Quit mode |
| Tui.TuiApp.StartScan | src/tui.rs:144-158 | enters Scanning mode on the path |
| Tui.TuiApp.StartBrowsing | src/tui.rs:278-290 | enters the starting Browsing mode, which is valid |
| Tui.TuiApp.HandleKeyEvent | src/tui.rs:293-359 | `handle_key_event` changes the mode and returns quit as the key-event function says, keeping the mode valid |
| Tui.TuiApp.MoveSelection | src/tui.rs:362-384 | `move_selection` leaves the moved mode |
| Tui.TuiApp.EnterSelected | src/tui.rs:387-409 | `enter_selected` leaves the entered mode |
| Tui.Filled | src/tui.rs:760 | the filled width is at most width, all of it at 100% or more, none at 0%, and ⌊p·width/100⌋ up to 100% |
| Tui.CreatePercentageBar | src/tui.rs:755-772 | exactly width cells: the filled ones '█', the rest spaces (so "" for width 0) |
| Tui.TypeOfIndicator | src/tui.rs:775-787 | a recognised indicator char belongs to the type it is read back as |
| Tui.IndicatorsDistinct | src/tui.rs:775-787 | every entry type has an indicator, and it determines the type back |
| Tui.BuildCurrentPath | src/tui.rs:790-797 | "/" followed by the stack names and the current name joined by "/", which splits back into those names |
| Tui.RootedPathSplits | src/tui.rs:790-797 | "/" + names joined by "/" splits into "" followed by the names |
| Tui.CalculateTotalSize | src/tui.rs:800-811 | the children's sizes only: the directory's size plus this is its directory size |
| Tui.DirectorySizeIsTotal | src/tui.rs:814-827 | `calculate_directory_size` is at most `total_size`, and equal when only directory-like entries have children |
| Tui.ChildrenSizeIsTotal | src/tui.rs:803-827 | the same bound and equality summed over children |

## Left out

- Concurrency: the rayon parallel branch of `scan_directory_contents` (src/scanner.rs:380-397) and the atomics of `ScanStats` are not modelled. The counters are plain fields updated one call at a time.
- u64 arithmetic: sums of sizes, blocks and items and the statistics counters are unbounded; the wrap-around of u64 sums and `fetch_add` is not modelled. The `as u32` casts of device and link count and the saturation or zeroing of over-long digit runs are modelled.
- The progress channel, `ScanMessage`, `ProgressStats`, `TuiApp::update` and the `println!` output of `scan_directory` are left out as I/O. `ScanDirectory` returns the final statistics instead of printing them.
- `KERNEL_FS_TYPES` is declared in src/scanner.rs but never read; it is not modelled.
- `calculate_total_entry_size`, `_blocks` and `_items` (src/scanner.rs:533-560) compute exactly `total_size`, `total_blocks` and `total_items`. The model uses `Model.TotalSize`, `TotalBlocks` and `TotalItems` for both.
- The walkdir alternative `scan_directory_walkdir` / `scan_walkdir_entry` is dead code and not modelled.
- File-system access is data: `metadata`, `symlink_metadata`, `read_dir` and the CACHEDIR.TAG test are fields of an abstract `FsNode` tree. `has_cachedir_tag` is modelled as that flag together with `exclude_caches`.
- Glob compilation and matching are a parameter (`GlobEngine`), since the glob library is foreign code. `matches_glob_pattern` is not modelled for the same reason.
- `generate_entry_id`'s global counter is the `nextId` field of `ScanContext`.
- Scanner.ScanContext.ScanEntry: the one Rust function is split into `ScanEntry`, `ScanCountedEntry`, `RecordHardlinkStep` and `ScanDirectoryEntry`, which are proved together against the reference scan.
- Names are `seq<char>`: `OsString` ordering is modelled as ordering by character code, and the lossy UTF-8 conversion is the identity.
- Modification times are whole seconds (`Option<int>`). chrono types are not modelled.
- Rendering is left out: every `draw_*` function, `centered_rect`, unicode-width truncation and colours. Browser's `get_type_indicator` uses the same mapping as `Tui.FileTypeInfo`, and Browser's `calculate_directory_size` only formats a display string; neither is modelled separately.
- Terminal I/O (raw mode, the event loop, `terminal::size`) is left out. The terminal size is a parameter of `NewBrowser`, and key events are method calls.
- Browser.Browser.HandleKey: the Rust `handle_key` returns `Result`, but it never produces `Err`, so the model returns the action directly.
- Browser.MovedClamps: the model computes in unbounded integers. The `usize` / `i32` conversions in `move_selection` (overflow of `selected_index + delta`, or `-delta` for `i32::MIN`) are not modelled.
- Tui.MovedInClamps: the same unbounded computation is used for the TUI's `move_selection`.
- ratatui's `ListState` is modelled as its selected index, `Option<nat>`. Scanning mode keeps only the current path, not the progress counters or the receiver.
- Floating point: `format_percentage`, `create_progress_bar` and the percentage in `create_file_list_items` are left out.
- Foreign libraries: `format_file_size` / `format_blocks` (humansize), `num_cpus` (the processor count is a parameter), atty, `is_running_in_container`, `get_user_config_dir`, `get_terminal_size`, `get_cpu_count`, `system_time_to_timestamp`, `path_extension`, `ensure_directory_exists` and `current_dir` are left out.
- `Config::from_args`, `load_from_files` and `load_config_file` read files and the environment. Only their pure parts are modelled: the content parser, `merge`, the exclude-file line filter and the thread default.
- `apply_args` (src/config.rs:371-572) copies command-line fields one by one. It is not modelled; `apply_config_flag` covers the same switches.
- The anyhow context chain of configuration errors is modelled as one message per failure ("Error in config line: ..."), not as a chain of causes.
- `Entry::full_path`, `name_str` and the `parent` pointer are not modelled: the first two return the name, and the parent is never set.
- src/export.rs, src/import.rs, src/main.rs and src/ui.rs are not part of this model.
