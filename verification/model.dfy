/** The entry tree (src/model.rs): one `Entry` per file-system object, its
    recursive aggregates, the serialisable projection, the ordering used to
    sort a directory's children, hard-link bookkeeping records and the scan
    statistics counters. */
module Model {
  import opened Wrappers
  import opened Natural

  datatype EntryType =
    | Directory | File | Symlink | Hardlink | Special
    | Error | Excluded | OtherFs | KernelFs
  {
    /** Directory-like: a real directory or a directory standing for a
        skipped file system. */
    predicate IsDirectory() {
      this == Directory || this == OtherFs || this == KernelFs
    }

    /** Counted in statistics: everything but errors and exclusions. */
    predicate IsCountable() {
      !(this == Error || this == Excluded)
    }
  }

  /** Exactly three types are directory-like, all of them countable, and
      exactly two are not countable. */
  lemma EntryTypeClasses(t: EntryType)
    ensures t.IsDirectory() ==> t.IsCountable()
    ensures t.IsDirectory() <==> t in {Directory, OtherFs, KernelFs}
    ensures !t.IsCountable() <==> t in {Error, Excluded}
  {
  }

  /** Optional metadata; `mtime` is seconds since the epoch. */
  datatype ExtendedInfo = ExtendedInfo(mtime: Option<int>, uid: Option<nat>, gid: Option<nat>, mode: Option<nat>)
  {
    predicate IsEmpty() {
      mtime.None? && uid.None? && gid.None? && mode.None?
    }
  }

  /** `ExtendedInfo::new`: nothing known. */
  function NoExtendedInfo(): (x: ExtendedInfo)
    ensures x.IsEmpty()
  {
    ExtendedInfo(None, None, None, None)
  }

  /** `is_empty` holds of exactly one value, the one `new` builds; so setting
      any field makes the record non-empty. */
  lemma IsEmptyExactlyNew(x: ExtendedInfo)
    ensures x.IsEmpty() <==> x == NoExtendedInfo()
  {
  }

  /** A file-system object and, for a directory, its children. The name is
      the last path component; `device` and `nlink` are 32-bit fields, the
      rest 64-bit. */
  datatype Entry = Entry(
    id: nat,
    entryType: EntryType,
    name: string,
    size: nat,
    blocks: nat,
    device: nat,
    inode: nat,
    nlink: nat,
    extended: Option<ExtendedInfo>,
    error: Option<string>,
    children: seq<Entry>)
  {
    predicate HasError() {
      entryType == Error
    }
  }

  /** `Entry::new`: a childless entry without extended info or error. */
  function NewEntry(id: nat, entryType: EntryType, name: string, size: nat, blocks: nat,
                    device: nat, inode: nat, nlink: nat): (e: Entry)
    ensures e.id == id && e.entryType == entryType && e.name == name
    ensures e.size == size && e.blocks == blocks
    ensures e.device == device && e.inode == inode && e.nlink == nlink
    ensures e.extended.None? && e.error.None? && e.children == []
  {
    Entry(id, entryType, name, size, blocks, device, inode, nlink, None, None, [])
  }

  /** `Entry::error`: an Error leaf that occupies nothing and carries the
      message. */
  function ErrorEntry(id: nat, name: string, message: string): (e: Entry)
    ensures e.id == id && e.name == name && e.entryType == Error && e.HasError()
    ensures e.size == 0 && e.blocks == 0 && e.device == 0 && e.inode == 0 && e.nlink == 0
    ensures e.extended.None? && e.error == Some(message) && e.children == []
  {
    Entry(id, Error, name, 0, 0, 0, 0, 0, None, Some(message), [])
  }

  /** `Entry::add_child`: the child goes after the existing children, the
      entry's own fields stay as they were, and the entry's totals grow by
      exactly the child's. */
  function AddChild(e: Entry, child: Entry): (r: Entry)
    ensures r.(children := e.children) == e
    ensures |r.children| == |e.children| + 1
    ensures r.children[..|e.children|] == e.children && r.children[|e.children|] == child
    ensures TotalSize(r) == TotalSize(e) + TotalSize(child)
    ensures TotalBlocks(r) == TotalBlocks(e) + TotalBlocks(child)
    ensures TotalItems(r) == TotalItems(e) + TotalItems(child)
    ensures HasSubError(r) <==> HasSubError(e) || child.HasError() || HasSubError(child)
  {
    var cs := e.children + [child];
    assert cs[..|cs| - 1] == e.children;
    e.(children := cs)
  }

  /** The names of a sequence of entries, in order. */
  function Names(es: seq<Entry>): (r: seq<string>)
    ensures |r| == |es| && forall i :: 0 <= i < |es| ==> r[i] == es[i].name
  {
    if |es| == 0 then [] else Names(es[..|es| - 1]) + [es[|es| - 1].name]
  }

  // ---------------------------------------------------------------------
  // Aggregates

  function TotalSize(e: Entry): nat {
    e.size + SumTotalSize(e.children)
  }

  function SumTotalSize(cs: seq<Entry>): nat {
    if |cs| == 0 then 0 else SumTotalSize(cs[..|cs| - 1]) + TotalSize(cs[|cs| - 1])
  }

  function TotalBlocks(e: Entry): nat {
    e.blocks + SumTotalBlocks(e.children)
  }

  function SumTotalBlocks(cs: seq<Entry>): nat {
    if |cs| == 0 then 0 else SumTotalBlocks(cs[..|cs| - 1]) + TotalBlocks(cs[|cs| - 1])
  }

  function TotalItems(e: Entry): nat {
    1 + SumTotalItems(e.children)
  }

  function SumTotalItems(cs: seq<Entry>): nat {
    if |cs| == 0 then 0 else SumTotalItems(cs[..|cs| - 1]) + TotalItems(cs[|cs| - 1])
  }

  /** `has_sub_error`: some child is an error or has one below it. */
  predicate HasSubError(e: Entry) {
    AnyError(e.children)
  }

  predicate AnyError(cs: seq<Entry>) {
    |cs| > 0 && (AnyError(cs[..|cs| - 1]) || cs[|cs| - 1].HasError() || HasSubError(cs[|cs| - 1]))
  }

  /** A childless entry counts its own size and blocks and one item. */
  lemma LeafTotals(e: Entry)
    requires e.children == []
    ensures TotalSize(e) == e.size && TotalBlocks(e) == e.blocks && TotalItems(e) == 1
    ensures !HasSubError(e)
  {
  }

  /** An error entry occupies nothing and has no errors below it. */
  lemma ErrorEntryTotals(id: nat, name: string, message: string)
    ensures TotalSize(ErrorEntry(id, name, message)) == 0
    ensures TotalBlocks(ErrorEntry(id, name, message)) == 0
    ensures TotalItems(ErrorEntry(id, name, message)) == 1
    ensures !HasSubError(ErrorEntry(id, name, message))
  {
  }

  // ---------------------------------------------------------------------
  // Reference definition: the pre-order list of an entry and all its
  // descendants.

  function Flatten(e: Entry): seq<Entry> {
    [e] + FlattenAll(e.children)
  }

  function FlattenAll(cs: seq<Entry>): seq<Entry> {
    if |cs| == 0 then [] else FlattenAll(cs[..|cs| - 1]) + Flatten(cs[|cs| - 1])
  }

  /** All entries strictly below `e`. */
  function Descendants(e: Entry): seq<Entry> {
    FlattenAll(e.children)
  }

  function OwnSizes(es: seq<Entry>): nat {
    if |es| == 0 then 0 else OwnSizes(es[..|es| - 1]) + es[|es| - 1].size
  }

  function OwnBlocks(es: seq<Entry>): nat {
    if |es| == 0 then 0 else OwnBlocks(es[..|es| - 1]) + es[|es| - 1].blocks
  }

  lemma {:induction false} OwnSumsAppend(a: seq<Entry>, b: seq<Entry>)
    ensures OwnSizes(a + b) == OwnSizes(a) + OwnSizes(b)
    ensures OwnBlocks(a + b) == OwnBlocks(a) + OwnBlocks(b)
    decreases |b|
  {
    if |b| > 0 {
      assert (a + b)[..|a + b| - 1] == a + b[..|b| - 1];
      OwnSumsAppend(a, b[..|b| - 1]);
    } else {
      assert a + b == a;
    }
  }

  /** `total_size` / `total_blocks` are the sums of the own sizes / blocks
      of the entry and all its descendants, and `total_items` counts them. */
  lemma {:induction false} TotalsAreSumsOverSubtree(e: Entry)
    ensures TotalSize(e) == OwnSizes(Flatten(e))
    ensures TotalBlocks(e) == OwnBlocks(Flatten(e))
    ensures TotalItems(e) == |Flatten(e)|
    decreases e, 1
  {
    SumsOverSubtrees(e.children);
    OwnSumsAppend([e], FlattenAll(e.children));
  }

  lemma {:induction false} SumsOverSubtrees(cs: seq<Entry>)
    ensures SumTotalSize(cs) == OwnSizes(FlattenAll(cs))
    ensures SumTotalBlocks(cs) == OwnBlocks(FlattenAll(cs))
    ensures SumTotalItems(cs) == |FlattenAll(cs)|
    decreases cs, 0
  {
    if |cs| > 0 {
      SumsOverSubtrees(cs[..|cs| - 1]);
      TotalsAreSumsOverSubtree(cs[|cs| - 1]);
      OwnSumsAppend(FlattenAll(cs[..|cs| - 1]), Flatten(cs[|cs| - 1]));
    }
  }

  /** `has_sub_error` holds exactly when some proper descendant is an Error
      entry. */
  lemma {:induction false} HasSubErrorIffErrorBelow(e: Entry)
    ensures HasSubError(e) <==> exists d :: d in Descendants(e) && d.HasError()
    decreases e, 1
  {
    AnyErrorIffErrorIn(e.children);
  }

  lemma {:induction false} AnyErrorIffErrorIn(cs: seq<Entry>)
    ensures AnyError(cs) <==> exists d :: d in FlattenAll(cs) && d.HasError()
    decreases cs, 0
  {
    if |cs| > 0 {
      var last := cs[|cs| - 1];
      AnyErrorIffErrorIn(cs[..|cs| - 1]);
      HasSubErrorIffErrorBelow(last);
      assert FlattenAll(cs) == FlattenAll(cs[..|cs| - 1]) + ([last] + Descendants(last));
    }
  }

  // ---------------------------------------------------------------------
  // Hard links

  datatype HardlinkKey = HardlinkKey(device: nat, inode: nat)

  /** What is known about an inode met with several links: its link count,
      how many of its links the scan found, and the first entry found. */
  datatype HardlinkInfo = HardlinkInfo(totalLinks: nat, linksInTree: nat, size: nat, blocks: nat, firstEntry: Entry)

  type HardlinkMap = map<HardlinkKey, HardlinkInfo>

  /** The entry's inode is recorded and has links outside the scanned tree. */
  predicate IsShared(e: Entry, links: HardlinkMap) {
    var key := HardlinkKey(e.device, e.inode);
    e.nlink > 1 && key in links && links[key].totalLinks > links[key].linksInTree
  }

  function SharedSize(e: Entry, links: HardlinkMap): nat {
    (if IsShared(e, links) then e.size else 0) + SumSharedSize(e.children, links)
  }

  function SumSharedSize(cs: seq<Entry>, links: HardlinkMap): nat {
    if |cs| == 0 then 0 else SumSharedSize(cs[..|cs| - 1], links) + SharedSize(cs[|cs| - 1], links)
  }

  function SharedBlocks(e: Entry, links: HardlinkMap): nat {
    (if IsShared(e, links) then e.blocks else 0) + SumSharedBlocks(e.children, links)
  }

  function SumSharedBlocks(cs: seq<Entry>, links: HardlinkMap): nat {
    if |cs| == 0 then 0 else SumSharedBlocks(cs[..|cs| - 1], links) + SharedBlocks(cs[|cs| - 1], links)
  }

  /** The shared part of a subtree never exceeds its total. */
  lemma {:induction false} SharedWithinTotal(e: Entry, links: HardlinkMap)
    ensures SharedSize(e, links) <= TotalSize(e)
    ensures SharedBlocks(e, links) <= TotalBlocks(e)
    decreases e, 1
  {
    SumSharedWithinTotal(e.children, links);
  }

  lemma {:induction false} SumSharedWithinTotal(cs: seq<Entry>, links: HardlinkMap)
    ensures SumSharedSize(cs, links) <= SumTotalSize(cs)
    ensures SumSharedBlocks(cs, links) <= SumTotalBlocks(cs)
    decreases cs, 0
  {
    if |cs| > 0 {
      SumSharedWithinTotal(cs[..|cs| - 1], links);
      SharedWithinTotal(cs[|cs| - 1], links);
    }
  }

  /** Size of the shared entries of a list. */
  function SharedSizes(es: seq<Entry>, links: HardlinkMap): nat {
    if |es| == 0 then 0
    else SharedSizes(es[..|es| - 1], links) + (if IsShared(es[|es| - 1], links) then es[|es| - 1].size else 0)
  }

  lemma {:induction false} SharedSizesAppend(a: seq<Entry>, b: seq<Entry>, links: HardlinkMap)
    ensures SharedSizes(a + b, links) == SharedSizes(a, links) + SharedSizes(b, links)
    decreases |b|
  {
    if |b| > 0 {
      assert (a + b)[..|a + b| - 1] == a + b[..|b| - 1];
      SharedSizesAppend(a, b[..|b| - 1], links);
    } else {
      assert a + b == a;
    }
  }

  /** `shared_size` sums the own sizes of exactly those entries of the
      subtree whose inode has links outside it. */
  lemma {:induction false} SharedSizeIsSumOfSharedEntries(e: Entry, links: HardlinkMap)
    ensures SharedSize(e, links) == SharedSizes(Flatten(e), links)
    decreases e, 1
  {
    SumSharedSizeOverSubtrees(e.children, links);
    SharedSizesAppend([e], FlattenAll(e.children), links);
  }

  lemma {:induction false} SumSharedSizeOverSubtrees(cs: seq<Entry>, links: HardlinkMap)
    ensures SumSharedSize(cs, links) == SharedSizes(FlattenAll(cs), links)
    decreases cs, 0
  {
    if |cs| > 0 {
      SumSharedSizeOverSubtrees(cs[..|cs| - 1], links);
      SharedSizeIsSumOfSharedEntries(cs[|cs| - 1], links);
      SharedSizesAppend(FlattenAll(cs[..|cs| - 1]), Flatten(cs[|cs| - 1]), links);
    }
  }

  /** With no recorded hard links nothing is shared. */
  lemma {:induction false} NothingSharedWithoutLinks(e: Entry)
    ensures SharedSize(e, map[]) == 0 && SharedBlocks(e, map[]) == 0
    decreases e, 1
  {
    NothingSharedWithoutLinksAll(e.children);
  }

  lemma {:induction false} NothingSharedWithoutLinksAll(cs: seq<Entry>)
    ensures SumSharedSize(cs, map[]) == 0 && SumSharedBlocks(cs, map[]) == 0
    decreases cs, 0
  {
    if |cs| > 0 {
      NothingSharedWithoutLinksAll(cs[..|cs| - 1]);
      NothingSharedWithoutLinks(cs[|cs| - 1]);
    }
  }

  // ---------------------------------------------------------------------
  // Serialisable projection (names are already text, so the lossy
  // conversion is the identity here)

  datatype SerializableEntry = SerializableEntry(
    id: nat,
    entryType: EntryType,
    name: string,
    size: nat,
    blocks: nat,
    device: nat,
    inode: nat,
    nlink: nat,
    extended: Option<ExtendedInfo>,
    error: Option<string>,
    children: seq<SerializableEntry>)

  function ToSerializable(e: Entry): (s: SerializableEntry)
    ensures s.id == e.id && s.entryType == e.entryType && s.name == e.name
    ensures s.size == e.size && s.blocks == e.blocks
    ensures s.device == e.device && s.inode == e.inode && s.nlink == e.nlink
    ensures s.extended == e.extended && s.error == e.error
    ensures s.children == ToSerializableAll(e.children)
    decreases e, 1
  {
    SerializableEntry(e.id, e.entryType, e.name, e.size, e.blocks, e.device, e.inode, e.nlink,
      e.extended, e.error, ToSerializableAll(e.children))
  }

  function ToSerializableAll(cs: seq<Entry>): (r: seq<SerializableEntry>)
    ensures |r| == |cs|
    ensures forall i :: 0 <= i < |cs| ==> r[i] == ToSerializable(cs[i])
    decreases cs, 0
  {
    if |cs| == 0 then [] else ToSerializableAll(cs[..|cs| - 1]) + [ToSerializable(cs[|cs| - 1])]
  }

  function FromSerializable(s: SerializableEntry): (e: Entry)
    ensures e.id == s.id && e.entryType == s.entryType && e.name == s.name
    ensures e.size == s.size && e.blocks == s.blocks
    ensures e.device == s.device && e.inode == s.inode && e.nlink == s.nlink
    ensures e.extended == s.extended && e.error == s.error
    ensures e.children == FromSerializableAll(s.children)
    decreases s, 1
  {
    var e := NewEntry(s.id, s.entryType, s.name, s.size, s.blocks, s.device, s.inode, s.nlink);
    e.(extended := s.extended, error := s.error, children := FromSerializableAll(s.children))
  }

  function FromSerializableAll(ss: seq<SerializableEntry>): (r: seq<Entry>)
    ensures |r| == |ss|
    ensures forall i :: 0 <= i < |ss| ==> r[i] == FromSerializable(ss[i])
    decreases ss, 0
  {
    if |ss| == 0 then [] else FromSerializableAll(ss[..|ss| - 1]) + [FromSerializable(ss[|ss| - 1])]
  }

  /** Exporting and importing back gives the same tree. */
  lemma {:induction false} FromToSerializable(e: Entry)
    ensures FromSerializable(ToSerializable(e)) == e
    decreases e
  {
    var r := FromSerializable(ToSerializable(e));
    forall i | 0 <= i < |e.children|
      ensures r.children[i] == e.children[i]
    {
      FromToSerializable(e.children[i]);
    }
    assert r.children == e.children;
  }

  /** Importing and exporting back gives the same document. */
  lemma {:induction false} ToFromSerializable(s: SerializableEntry)
    ensures ToSerializable(FromSerializable(s)) == s
    decreases s
  {
    var r := ToSerializable(FromSerializable(s));
    forall i | 0 <= i < |s.children|
      ensures r.children[i] == s.children[i]
    {
      ToFromSerializable(s.children[i]);
    }
    assert r.children == s.children;
  }

  // ---------------------------------------------------------------------
  // Ordering of siblings

  datatype SortColumn = Name | Size | Blocks | Items | Mtime
  datatype SortOrder = Asc | Desc

  /** How a directory's children are ordered: the column, its direction,
      whether directory-like entries go first, and whether names compare in
      natural order (only `sort_entries` offers that; `sort_children`
      compares names plainly). */
  datatype SortKey = SortKey(column: SortColumn, order: SortOrder, dirsFirst: bool, natural: bool)

  function MtimeOf(e: Entry): Option<int> {
    if e.extended.Some? then e.extended.value.mtime else None
  }

  /** The ascending comparison on one column. */
  function CompareColumn(a: Entry, b: Entry, column: SortColumn, natural: bool): Ordering {
    match column
    case Name => if natural then NaturalOrder(a.name, b.name, Saturate) else CompareLex(a.name, b.name)
    case Size => CompareInt(TotalSize(a), TotalSize(b))
    case Blocks => CompareInt(TotalBlocks(a), TotalBlocks(b))
    case Items => CompareInt(TotalItems(a), TotalItems(b))
    case Mtime => CompareOption(MtimeOf(a), MtimeOf(b))
  }

  /** The comparator handed to `sort_by`. */
  function CompareEntries(a: Entry, b: Entry, key: SortKey): (r: Ordering)
    ensures key.dirsFirst && a.entryType.IsDirectory() && !b.entryType.IsDirectory() ==> r == Less
    ensures key.dirsFirst && !a.entryType.IsDirectory() && b.entryType.IsDirectory() ==> r == Greater
  {
    if key.dirsFirst && a.entryType.IsDirectory() != b.entryType.IsDirectory() then
      if a.entryType.IsDirectory() then Less else Greater
    else
      var c := CompareColumn(a, b, key.column, key.natural);
      match key.order
      case Asc => c
      case Desc => c.Reverse()
  }

  /** Desc is Asc with the operands swapped, among entries that the
      directories-first rule does not separate. */
  lemma DescReversesAsc(a: Entry, b: Entry, key: SortKey)
    requires !key.dirsFirst || a.entryType.IsDirectory() == b.entryType.IsDirectory()
    ensures CompareEntries(a, b, key.(order := Desc)) == CompareEntries(b, a, key.(order := Asc))
  {
    CompareColumnFlip(a, b, key.column, key.natural);
  }

  /** By modification time, ascending, an entry without a time comes before
      one with a time. */
  lemma MissingMtimeFirst(a: Entry, b: Entry, key: SortKey)
    requires key.column == Mtime && key.order == Asc
    requires !key.dirsFirst || a.entryType.IsDirectory() == b.entryType.IsDirectory()
    requires MtimeOf(a).None? && MtimeOf(b).Some?
    ensures CompareEntries(a, b, key) == Less
  {
  }

  lemma CompareColumnFlip(a: Entry, b: Entry, column: SortColumn, natural: bool)
    ensures CompareColumn(b, a, column, natural) == CompareColumn(a, b, column, natural).Reverse()
  {
    if column == Name {
      if natural {
        NaturalOrderFlip(a.name, b.name, Saturate);
      } else {
        CompareLexFlip(a.name, b.name);
      }
    }
  }

  lemma CompareColumnTransitive(a: Entry, b: Entry, c: Entry, column: SortColumn, natural: bool)
    requires CompareColumn(a, b, column, natural) != Greater
    requires CompareColumn(b, c, column, natural) != Greater
    ensures CompareColumn(a, c, column, natural) != Greater
  {
    if column == Name {
      if natural {
        NaturalOrderTransitive(a.name, b.name, c.name, Saturate);
      } else {
        CompareLexTransitive(a.name, b.name, c.name);
      }
    }
  }

  /** The comparator is antisymmetric ... */
  lemma CompareEntriesFlip(a: Entry, b: Entry, key: SortKey)
    ensures CompareEntries(b, a, key) == CompareEntries(a, b, key).Reverse()
  {
    CompareColumnFlip(a, b, key.column, key.natural);
  }

  /** ... and "not after" is transitive: a total preorder. */
  lemma CompareEntriesTransitive(a: Entry, b: Entry, c: Entry, key: SortKey)
    requires CompareEntries(a, b, key) != Greater && CompareEntries(b, c, key) != Greater
    ensures CompareEntries(a, c, key) != Greater
  {
    if !key.dirsFirst
      || (a.entryType.IsDirectory() == b.entryType.IsDirectory()
          && b.entryType.IsDirectory() == c.entryType.IsDirectory())
    {
      if key.order == Asc {
        CompareColumnTransitive(a, b, c, key.column, key.natural);
      } else {
        CompareColumnFlip(a, b, key.column, key.natural);
        CompareColumnFlip(b, c, key.column, key.natural);
        CompareColumnFlip(a, c, key.column, key.natural);
        CompareColumnTransitive(c, b, a, key.column, key.natural);
      }
    }
  }

  predicate AdjacentSorted(s: seq<Entry>, key: SortKey) {
    forall k :: 0 < k < |s| ==> CompareEntries(s[k - 1], s[k], key) != Greater
  }

  /** No entry is placed after one that the comparator puts after it. */
  predicate Sorted(s: seq<Entry>, key: SortKey) {
    forall i, j :: 0 <= i < j < |s| ==> CompareEntries(s[i], s[j], key) != Greater
  }

  lemma SortedSnoc(p: seq<Entry>, x: Entry, key: SortKey)
    requires Sorted(p, key)
    requires forall i :: 0 <= i < |p| ==> CompareEntries(p[i], x, key) != Greater
    ensures Sorted(p + [x], key)
  {
    var s := p + [x];
    forall i, j | 0 <= i < j < |s| ensures CompareEntries(s[i], s[j], key) != Greater {
      assert s[i] == p[i];
      if j < |p| {
        assert s[j] == p[j];
      }
    }
  }

  lemma {:induction false} AdjacentSortedIsSorted(s: seq<Entry>, key: SortKey)
    requires AdjacentSorted(s, key)
    ensures Sorted(s, key)
    decreases |s|
  {
    if |s| > 1 {
      var p := s[..|s| - 1];
      var x := s[|s| - 1];
      assert AdjacentSorted(p, key);
      AdjacentSortedIsSorted(p, key);
      assert CompareEntries(p[|p| - 1], x, key) != Greater;
      forall i | 0 <= i < |p|
        ensures CompareEntries(p[i], x, key) != Greater
      {
        if i < |p| - 1 {
          CompareEntriesTransitive(p[i], p[|p| - 1], x, key);
        }
      }
      SortedSnoc(p, x, key);
      assert p + [x] == s;
    }
  }

  /** With directories first, a sorted list has every directory-like entry
      before every other entry. */
  lemma SortedDirectoriesFirst(s: seq<Entry>, key: SortKey)
    requires key.dirsFirst && Sorted(s, key)
    ensures forall i, j :: 0 <= i < j < |s| && s[j].entryType.IsDirectory() ==> s[i].entryType.IsDirectory()
  {
  }

  /** `x` placed after the last element of `s` that does not compare
      Greater than it, moving past only elements that do. */
  function Insert(s: seq<Entry>, x: Entry, key: SortKey): (r: seq<Entry>)
    ensures |r| == |s| + 1
  {
    if |s| == 0 || CompareEntries(s[|s| - 1], x, key) != Greater then s + [x]
    else Insert(s[..|s| - 1], x, key) + [s[|s| - 1]]
  }

  /** The order a stable sort (`sort_by`) leaves: insertion sort, where
      equal elements keep their relative order. */
  function StableSort(s: seq<Entry>, key: SortKey): (r: seq<Entry>)
    ensures |r| == |s|
  {
    if |s| == 0 then [] else Insert(StableSort(s[..|s| - 1], key), s[|s| - 1], key)
  }

  lemma {:induction false} InsertPermutes(s: seq<Entry>, x: Entry, key: SortKey)
    ensures multiset(Insert(s, x, key)) == multiset(s) + multiset{x}
    decreases |s|
  {
    if |s| > 0 && CompareEntries(s[|s| - 1], x, key) == Greater {
      InsertPermutes(s[..|s| - 1], x, key);
      assert s == s[..|s| - 1] + [s[|s| - 1]];
    }
  }

  /** The last element after an insertion is `x` or the old last one. */
  lemma InsertLast(s: seq<Entry>, x: Entry, key: SortKey)
    ensures var r := Insert(s, x, key);
      r[|r| - 1] == x || (|s| > 0 && r[|r| - 1] == s[|s| - 1])
  {
  }

  lemma {:induction false} InsertKeepsSorted(s: seq<Entry>, x: Entry, key: SortKey)
    requires AdjacentSorted(s, key)
    ensures AdjacentSorted(Insert(s, x, key), key)
    decreases |s|
  {
    if |s| > 0 && CompareEntries(s[|s| - 1], x, key) == Greater {
      var p := s[..|s| - 1];
      assert AdjacentSorted(p, key);
      InsertKeepsSorted(p, x, key);
      var q := Insert(p, x, key);
      InsertLast(p, x, key);
      CompareEntriesFlip(s[|s| - 1], x, key);
      assert CompareEntries(q[|q| - 1], s[|s| - 1], key) != Greater;
    }
  }

  /** The stable sort is a permutation ... */
  lemma {:induction false} StableSortPermutes(s: seq<Entry>, key: SortKey)
    ensures multiset(StableSort(s, key)) == multiset(s)
    decreases |s|
  {
    if |s| > 0 {
      StableSortPermutes(s[..|s| - 1], key);
      InsertPermutes(StableSort(s[..|s| - 1], key), s[|s| - 1], key);
      assert s == s[..|s| - 1] + [s[|s| - 1]];
    }
  }

  /** ... and sorted. */
  lemma {:induction false} StableSortSorted(s: seq<Entry>, key: SortKey)
    ensures Sorted(StableSort(s, key), key)
    decreases |s|
  {
    if |s| > 0 {
      StableSortAdjacent(s[..|s| - 1], key);
      InsertKeepsSorted(StableSort(s[..|s| - 1], key), s[|s| - 1], key);
    }
    AdjacentSortedIsSorted(StableSort(s, key), key);
  }

  lemma {:induction false} StableSortAdjacent(s: seq<Entry>, key: SortKey)
    ensures AdjacentSorted(StableSort(s, key), key)
    decreases |s|
  {
    if |s| > 0 {
      StableSortAdjacent(s[..|s| - 1], key);
      InsertKeepsSorted(StableSort(s[..|s| - 1], key), s[|s| - 1], key);
    }
  }

  /** The elements of `s` the comparator ranks Equal with `x`, in their
      order in `s`. */
  function Ties(s: seq<Entry>, x: Entry, key: SortKey): seq<Entry> {
    if |s| == 0 then []
    else Ties(s[..|s| - 1], x, key) + (if CompareEntries(s[|s| - 1], x, key) == Equal then [s[|s| - 1]] else [])
  }

  lemma TiesSnoc(s: seq<Entry>, y: Entry, x: Entry, key: SortKey)
    ensures Ties(s + [y], x, key) == Ties(s, x, key) + Ties([y], x, key)
  {
    assert (s + [y])[..|s|] == s;
    assert [y][..0] == [];
  }

  /** Insertion moves `x` only past elements it is not Equal to, so the ties
      of any entry keep their order. */
  lemma {:induction false} InsertTies(s: seq<Entry>, y: Entry, x: Entry, key: SortKey)
    ensures Ties(Insert(s, y, key), x, key) == Ties(s, x, key) + Ties([y], x, key)
    decreases |s|
  {
    if |s| == 0 || CompareEntries(s[|s| - 1], y, key) != Greater {
      TiesSnoc(s, y, x, key);
    } else {
      var p, l := s[..|s| - 1], s[|s| - 1];
      assert s == p + [l];
      InsertTies(p, y, x, key);
      TiesSnoc(Insert(p, y, key), l, x, key);
      TiesSnoc(p, l, x, key);
      if CompareEntries(y, x, key) == Equal && CompareEntries(l, x, key) == Equal {
        CompareEntriesFlip(y, x, key);
        CompareEntriesTransitive(l, x, y, key);
        assert false;
      }
    }
  }

  /** Stability: sorting leaves the entries that compare Equal with any
      given entry in the order they had before. */
  lemma {:induction false} StableSortStable(s: seq<Entry>, x: Entry, key: SortKey)
    ensures Ties(StableSort(s, key), x, key) == Ties(s, x, key)
    decreases |s|
  {
    if |s| > 0 {
      var p, l := s[..|s| - 1], s[|s| - 1];
      StableSortStable(p, x, key);
      InsertTies(StableSort(p, key), l, x, key);
      assert Ties([l], x, key) == (if CompareEntries(l, x, key) == Equal then [l] else []) by {
        assert [l][..0] == [];
      }
    }
  }

  lemma {:induction false} InsertSums(s: seq<Entry>, x: Entry, key: SortKey)
    ensures SumTotalSize(Insert(s, x, key)) == SumTotalSize(s) + TotalSize(x)
    ensures SumTotalBlocks(Insert(s, x, key)) == SumTotalBlocks(s) + TotalBlocks(x)
    ensures SumTotalItems(Insert(s, x, key)) == SumTotalItems(s) + TotalItems(x)
    decreases |s|
  {
    var r := Insert(s, x, key);
    if |s| == 0 || CompareEntries(s[|s| - 1], x, key) != Greater {
      assert r[..|r| - 1] == s;
    } else {
      InsertSums(s[..|s| - 1], x, key);
      assert r[..|r| - 1] == Insert(s[..|s| - 1], x, key);
    }
  }

  /** Sorting the children changes none of the parent's totals. */
  lemma {:induction false} StableSortSums(s: seq<Entry>, key: SortKey)
    ensures SumTotalSize(StableSort(s, key)) == SumTotalSize(s)
    ensures SumTotalBlocks(StableSort(s, key)) == SumTotalBlocks(s)
    ensures SumTotalItems(StableSort(s, key)) == SumTotalItems(s)
    decreases |s|
  {
    if |s| > 0 {
      StableSortSums(s[..|s| - 1], key);
      InsertSums(StableSort(s[..|s| - 1], key), s[|s| - 1], key);
    }
  }

  /** `sort_by` on the children vector, in place, by insertion with
      adjacent swaps. */
  method SortInPlace(a: array<Entry>, key: SortKey)
    modifies a
    ensures a[..] == StableSort(old(a[..]), key)
  {
    var i := 0;
    while i < a.Length
      invariant 0 <= i <= a.Length
      invariant a[..i] == StableSort(old(a[..i]), key)
      invariant a[i..] == old(a[i..])
    {
      assert old(a[..i + 1])[..i] == old(a[..i]);
      InsertAt(a, i, key);
      i := i + 1;
    }
    assert a[..] == a[..a.Length] && old(a[..]) == old(a[..a.Length]);
  }

  /** The state of `InsertAt` part-way: `x` sits at `j`, the prefix before
      it is untouched, the elements it has moved past follow it, and the
      insertion still to do accounts for them. */
  ghost predicate InsertInv(s: seq<Entry>, o: seq<Entry>, i: nat, j: nat, x: Entry, key: SortKey) {
    j <= i < |s| == |o| && s[j] == x
    && s[..j] == o[..j] && s[j + 1..i + 1] == o[j..i] && s[i + 1..] == o[i + 1..]
    && Insert(o[..i], x, key) == Insert(o[..j], x, key) + o[j..i]
  }

  /** One swap of `InsertAt` keeps its invariant. */
  lemma InsertInvStep(s: seq<Entry>, o: seq<Entry>, i: nat, j: nat, x: Entry, key: SortKey)
    requires InsertInv(s, o, i, j, x, key) && j > 0
    requires CompareEntries(s[j - 1], s[j], key) == Greater
    ensures InsertInv(s[j - 1 := s[j]][j := s[j - 1]], o, i, j - 1, x, key)
  {
    var t := s[j - 1 := s[j]][j := s[j - 1]];
    assert s[j - 1] == o[j - 1] by { assert s[..j][j - 1] == o[..j][j - 1]; }
    assert o[..j][..j - 1] == o[..j - 1];
    assert Insert(o[..j], x, key) == Insert(o[..j - 1], x, key) + [o[j - 1]];
    assert o[j - 1..i] == [o[j - 1]] + o[j..i];
    assert t[..j - 1] == s[..j - 1];
    assert t[j..i + 1] == [s[j - 1]] + s[j + 1..i + 1];
    assert t[i + 1..] == s[i + 1..];
  }

  /** When `InsertAt` stops, the prefix holds the insertion. */
  lemma InsertInvDone(s: seq<Entry>, o: seq<Entry>, i: nat, j: nat, x: Entry, key: SortKey)
    requires InsertInv(s, o, i, j, x, key)
    requires j == 0 || CompareEntries(s[j - 1], s[j], key) != Greater
    ensures s[..i + 1] == Insert(o[..i], x, key)
  {
    if j > 0 {
      assert s[j - 1] == o[j - 1] by { assert s[..j][j - 1] == o[..j][j - 1]; }
      assert o[..j][j - 1] == o[j - 1];
    }
    assert Insert(o[..j], x, key) == o[..j] + [x];
    assert s[..i + 1] == s[..j] + [s[j]] + s[j + 1..i + 1];
  }

  /** Moves `a[i]` down past the elements of `a[..i]` that compare Greater
      than it. */
  method InsertAt(a: array<Entry>, i: nat, key: SortKey)
    requires i < a.Length
    modifies a
    ensures a[..i + 1] == Insert(old(a[..i]), old(a[i]), key)
    ensures a[i + 1..] == old(a[i + 1..])
  {
    var j: nat := i;
    ghost var o := a[..];
    ghost var x := a[i];
    assert o[..i][..i] == o[..i] && o[i..i] == [];
    while j > 0 && CompareEntries(a[j - 1], a[j], key) == Greater
      invariant InsertInv(a[..], o, i, j, x, key)
    {
      InsertInvStep(a[..], o, i, j, x, key);
      SwapAdjacent(a, j);
      j := j - 1;
    }
    InsertInvDone(a[..], o, i, j, x, key);
    assert a[..][..i + 1] == a[..i + 1];
    assert o[..i] == old(a[..i]) && o[i + 1..] == old(a[i + 1..]);
  }

  method SwapAdjacent(a: array<Entry>, j: nat)
    requires 0 < j < a.Length
    modifies a
    ensures a[..] == old(a[..])[j - 1 := old(a[j])][j := old(a[j - 1])]
  {
    a[j - 1], a[j] := a[j], a[j - 1];
  }

  /** `Entry::sort_children`: the same entry with its children reordered
      by a stable sort; they are then a sorted permutation of the old ones
      in which entries that compare Equal keep their old order. */
  method SortChildren(e: Entry, column: SortColumn, order: SortOrder, dirsFirst: bool) returns (r: Entry)
    ensures r == e.(children := StableSort(e.children, SortKey(column, order, dirsFirst, false)))
    ensures multiset(r.children) == multiset(e.children)
    ensures Sorted(r.children, SortKey(column, order, dirsFirst, false))
    ensures forall x :: Ties(r.children, x, SortKey(column, order, dirsFirst, false))
                     == Ties(e.children, x, SortKey(column, order, dirsFirst, false))
  {
    var key := SortKey(column, order, dirsFirst, false);
    var a := new Entry[|e.children|](i requires 0 <= i < |e.children| => e.children[i]);
    assert a[..] == e.children;
    SortInPlace(a, key);
    r := e.(children := a[..]);
    StableSortPermutes(e.children, key);
    StableSortSorted(e.children, key);
    forall x {
      StableSortStable(e.children, x, key);
    }
  }

  // ---------------------------------------------------------------------
  // Scan statistics

  datatype StatCounters = StatCounters(
    totalEntries: nat, directories: nat, files: nat, errors: nat, totalSize: nat, totalBlocks: nat)
  {
    /** Every counter of `this` is at most the one of `other`. */
    predicate AtMost(other: StatCounters) {
      totalEntries <= other.totalEntries && directories <= other.directories
      && files <= other.files && errors <= other.errors
      && totalSize <= other.totalSize && totalBlocks <= other.totalBlocks
    }
  }

  /** `ScanStats`: six counters that only grow. */
  class ScanStats {
    var totalEntries: nat
    var directories: nat
    var files: nat
    var errors: nat
    var totalSize: nat
    var totalBlocks: nat

    function Counters(): StatCounters
      reads this
    {
      StatCounters(totalEntries, directories, files, errors, totalSize, totalBlocks)
    }

    constructor ()
      ensures Counters() == StatCounters(0, 0, 0, 0, 0, 0)
    {
      totalEntries, directories, files, errors, totalSize, totalBlocks := 0, 0, 0, 0, 0, 0;
    }

    method IncrementEntries()
      modifies this
      ensures Counters() == old(Counters()).(totalEntries := old(totalEntries) + 1)
      ensures old(Counters()).AtMost(Counters())
    {
      totalEntries := totalEntries + 1;
    }

    method IncrementDirectories()
      modifies this
      ensures Counters() == old(Counters()).(directories := old(directories) + 1)
      ensures old(Counters()).AtMost(Counters())
    {
      directories := directories + 1;
    }

    method IncrementFiles()
      modifies this
      ensures Counters() == old(Counters()).(files := old(files) + 1)
      ensures old(Counters()).AtMost(Counters())
    {
      files := files + 1;
    }

    method IncrementErrors()
      modifies this
      ensures Counters() == old(Counters()).(errors := old(errors) + 1)
      ensures old(Counters()).AtMost(Counters())
    {
      errors := errors + 1;
    }

    method AddSize(size: nat)
      modifies this
      ensures Counters() == old(Counters()).(totalSize := old(totalSize) + size)
      ensures old(Counters()).AtMost(Counters())
    {
      totalSize := totalSize + size;
    }

    method AddBlocks(blocks: nat)
      modifies this
      ensures Counters() == old(Counters()).(totalBlocks := old(totalBlocks) + blocks)
      ensures old(Counters()).AtMost(Counters())
    {
      totalBlocks := totalBlocks + blocks;
    }
  }

  /** A fresh counter set after one entry, one file and 1024 bytes reads
      1, 1 and 1024 on those counters and 0 elsewhere. */
  method ScanStatsScenario() returns (c: StatCounters)
    ensures c == StatCounters(1, 0, 1, 0, 1024, 0)
  {
    var stats := new ScanStats();
    stats.IncrementEntries();
    stats.IncrementFiles();
    stats.AddSize(1024);
    c := stats.Counters();
  }
}
