/** The full-screen interface of src/tui.rs: the application is scanning,
    browsing or quitting, and in browsing mode the keys move a list cursor
    over the children of the directory shown. Drawing, the terminal and
    the progress channel are not part of this model. */
module Tui {
  import opened Wrappers
  import opened Model
  import Strings
  import Natural
  import Browser

  type KeyCode = Browser.KeyCode

  /** `percentage as u8`. */
  type Byte = x: nat | x < 256

  /** The modes of the application. Scanning keeps only the path the
      progress screen shows. */
  datatype AppMode =
    | Scanning(currentPath: string)
    | Browsing(root: Entry, currentDir: Entry, pathStack: seq<Entry>, selected: Option<nat>, showHelp: bool)
    | Quit

  /** In browsing mode the stack and the shown directory lead down from
      the root, and the list always has a cursor, on a child (or at 0 when
      there is none). */
  predicate ValidMode(m: AppMode) {
    m.Browsing? ==>
      Browser.Descends(m.root, m.pathStack + [m.currentDir]) && m.selected.Some?
      && (if |m.currentDir.children| == 0 then m.selected.value == 0
          else m.selected.value < |m.currentDir.children|)
  }

  /** `start_browsing`. */
  function BrowsingStarted(root: Entry): AppMode {
    Browsing(root, root, [], Some(0), false)
  }

  /** `move_selection`: outside browsing mode and in an empty directory
      nothing happens; otherwise up stops at the first child and down at
      the last. */
  function MovedIn(m: AppMode, delta: int): AppMode {
    if !m.Browsing? || |m.currentDir.children| == 0 then m
    else
      var current := m.selected.GetOr(0);
      var maxIndex := |m.currentDir.children| - 1;
      var index := if delta < 0 then (if current >= -delta then current + delta else 0)
                   else Natural.Min(current + delta, maxIndex);
      m.(selected := Some(index))
  }

  /** `enter_selected`: the child under a cursor that is in range replaces
      the shown directory, which goes on the stack, when it can be
      entered. */
  function EnteredIn(m: AppMode): AppMode {
    if m.Browsing? && m.selected.Some? && m.selected.value < |m.currentDir.children|
       && Browser.CanEnter(m.currentDir.children[m.selected.value])
    then m.(pathStack := m.pathStack + [m.currentDir], currentDir := m.currentDir.children[m.selected.value],
            selected := Some(0))
    else m
  }

  /** The back keys in browsing mode. */
  function BackIn(m: AppMode): AppMode
    requires m.Browsing?
  {
    if |m.pathStack| == 0 then m
    else m.(currentDir := m.pathStack[|m.pathStack| - 1], pathStack := m.pathStack[..|m.pathStack| - 1],
            selected := Some(0))
  }

  /** `handle_key_event`: the new mode and whether the application quits.
      While the help is shown only the help and quit keys act, and the
      quit keys close the help instead of quitting. */
  function KeyEvent(m: AppMode, key: KeyCode): (AppMode, bool) {
    match m
    case Scanning(_) =>
      (m, key == Browser.Char('q') || key == Browser.Esc || key == Browser.Char('c'))
    case Quit => (m, false)
    case Browsing(_, dir, stack, _, help) =>
      match key
      case Char('q') | Esc => if help then (m.(showHelp := false), false) else (m, true)
      case Char('?') | F(1) => (m.(showHelp := !help), false)
      case Up | Char('k') => (if help then m else MovedIn(m, -1), false)
      case Down | Char('j') => (if help then m else MovedIn(m, 1), false)
      case Home | Char('g') => (if help then m else m.(selected := Some(0)), false)
      case End | Char('G') =>
        (if help || |dir.children| == 0 then m else m.(selected := Some(|dir.children| - 1)), false)
      case Enter | Right | Char('l') => (if help then m else EnteredIn(m), false)
      case Left | Char('h') | Backspace => (if help then m else BackIn(m), false)
      case _ => (m, false)
  }

  // ---------------------------------------------------------------------
  // Properties of the modes

  /** Browsing starts at the root, with nothing above it, the cursor on the
      first child and the help hidden. */
  lemma BrowsingStartsAtRoot(root: Entry)
    ensures ValidMode(BrowsingStarted(root))
    ensures var m := BrowsingStarted(root);
      m.currentDir == root && m.pathStack == [] && m.selected == Some(0) && !m.showHelp
  {
  }

  /** Moving keeps the mode valid and clamps the cursor to the children. */
  lemma MovedInClamps(m: AppMode, delta: int)
    requires ValidMode(m)
    ensures ValidMode(MovedIn(m, delta))
    ensures m.Browsing? && |m.currentDir.children| > 0 ==>
      var target := m.selected.value + delta;
      MovedIn(m, delta).selected
        == Some(if target < 0 then 0 else if target >= |m.currentDir.children| then |m.currentDir.children| - 1 else target)
    ensures !(m.Browsing? && |m.currentDir.children| > 0) ==> MovedIn(m, delta) == m
  {
  }

  /** Entering keeps the mode valid. */
  lemma EnteredInDescends(m: AppMode)
    requires ValidMode(m)
    ensures ValidMode(EnteredIn(m))
  {
    if EnteredIn(m) != m {
      var path := m.pathStack + [m.currentDir];
      assert EnteredIn(m).pathStack + [EnteredIn(m).currentDir] == path + [m.currentDir.children[m.selected.value]];
      assert path[|path| - 1] == m.currentDir;
    }
  }

  /** Going back keeps the mode valid. */
  lemma BackInAscends(m: AppMode)
    requires ValidMode(m) && m.Browsing?
    ensures ValidMode(BackIn(m))
  {
    if |m.pathStack| > 0 {
      var path := m.pathStack + [m.currentDir];
      Browser.DescendsPrefix(m.root, path, |m.pathStack|);
      assert path[..|m.pathStack|] == BackIn(m).pathStack + [BackIn(m).currentDir];
    }
  }

  /** Every key keeps the mode valid. */
  lemma KeyEventValid(m: AppMode, key: KeyCode)
    requires ValidMode(m)
    ensures ValidMode(KeyEvent(m, key).0)
  {
    if m.Browsing? && !m.showHelp {
      MovedInClamps(m, -1);
      MovedInClamps(m, 1);
      EnteredInDescends(m);
      BackInAscends(m);
    }
  }

  /** The application quits on q, Esc or c while scanning, and on q or Esc
      while browsing with the help hidden; on nothing else. */
  lemma QuitKeys(m: AppMode, key: KeyCode)
    ensures KeyEvent(m, key).1 <==>
      (m.Scanning? && key in {Browser.Char('q'), Browser.Esc, Browser.Char('c')})
      || (m.Browsing? && !m.showHelp && key in {Browser.Char('q'), Browser.Esc})
  {
  }

  /** While the help is shown, navigation changes nothing, and q or Esc
      closes the help instead of quitting. */
  lemma HelpBlocksNavigation(m: AppMode, key: KeyCode)
    requires m.Browsing? && m.showHelp
    ensures key !in {Browser.Char('q'), Browser.Esc, Browser.Char('?'), Browser.F(1)} ==> KeyEvent(m, key) == (m, false)
    ensures key == Browser.Char('q') || key == Browser.Esc ==> KeyEvent(m, key) == (m.(showHelp := false), false)
  {
  }

  /** With the help hidden, the list keys move through the tree as the
      `Browser` keys do: the same directory, the same stack and the same
      cursor (the list has no scroll offset of its own). */
  lemma NavigationAgrees(m: AppMode, key: KeyCode, height: nat)
    requires ValidMode(m) && m.Browsing? && !m.showHelp
    requires key in {Browser.Up, Browser.Down, Browser.Home, Browser.End, Browser.Enter, Browser.Left}
    ensures var b := Browser.KeyStep(Browser.BrowserState(m.currentDir, m.pathStack, m.selected.value, 0, height, false), key, false).0;
      var t := KeyEvent(m, key).0;
      t.currentDir == b.current && t.pathStack == b.pathStack && t.selected == Some(b.selectedIndex)
  {
  }

  // ---------------------------------------------------------------------
  // The application object

  class TuiApp {
    var mode: AppMode

    /** `TuiApp::new`: no mode until a scan starts. */
    constructor ()
      ensures mode == Quit
    {
      mode := Quit;
    }

    /** `start_scan`: the progress screen starts at the scanned path. */
    method StartScan(scanPath: string)
      modifies this
      ensures mode == Scanning(scanPath)
    {
      mode := Scanning(scanPath);
    }

    /** `start_browsing`. */
    method StartBrowsing(root: Entry)
      modifies this
      ensures mode == BrowsingStarted(root) && ValidMode(mode)
    {
      mode := Browsing(root, root, [], Some(0), false);
      BrowsingStartsAtRoot(root);
    }

    /** `handle_key_event`. */
    method HandleKeyEvent(key: KeyCode) returns (quit: bool)
      modifies this
      ensures (mode, quit) == KeyEvent(old(mode), key)
      ensures old(ValidMode(mode)) ==> ValidMode(mode)
    {
      if ValidMode(mode) {
        KeyEventValid(mode, key);
      }
      quit := false;
      match mode
      case Scanning(_) =>
        if key == Browser.Char('q') || key == Browser.Esc || key == Browser.Char('c') {
          return true;
        }
      case Quit =>
      case Browsing(_, dir, stack, _, help) =>
        match key
        case Char('q') | Esc =>
          if help {
            mode := mode.(showHelp := false);
          } else {
            return true;
          }
        case Char('?') | F(1) =>
          mode := mode.(showHelp := !help);
        case Up | Char('k') =>
          if !help {
            MoveSelection(-1);
          }
        case Down | Char('j') =>
          if !help {
            MoveSelection(1);
          }
        case Home | Char('g') =>
          if !help {
            mode := mode.(selected := Some(0));
          }
        case End | Char('G') =>
          if !help && |dir.children| > 0 {
            mode := mode.(selected := Some(|dir.children| - 1));
          }
        case Enter | Right | Char('l') =>
          if !help {
            EnterSelected();
          }
        case Left | Char('h') | Backspace =>
          if !help && |stack| > 0 {
            var parent := stack[|stack| - 1];
            mode := mode.(pathStack := stack[..|stack| - 1], currentDir := parent, selected := Some(0));
          }
        case _ =>
    }

    /** `move_selection`. */
    method MoveSelection(delta: int)
      modifies this
      ensures mode == MovedIn(old(mode), delta)
    {
      if mode.Browsing? {
        if |mode.currentDir.children| == 0 {
          return;
        }
        var current := mode.selected.GetOr(0);
        var maxIndex := |mode.currentDir.children| - 1;
        var newIndex;
        if delta < 0 {
          newIndex := if current >= -delta then current + delta else 0;
        } else {
          newIndex := Natural.Min(current + delta, maxIndex);
        }
        mode := mode.(selected := Some(newIndex));
      }
    }

    /** `enter_selected`. */
    method EnterSelected()
      modifies this
      ensures mode == EnteredIn(old(mode))
    {
      if mode.Browsing? && mode.selected.Some? {
        var selectedIndex := mode.selected.value;
        if selectedIndex < |mode.currentDir.children| {
          var selected := mode.currentDir.children[selectedIndex];
          if selected.entryType.IsDirectory() && selected.entryType != EntryType.Error {
            mode := mode.(pathStack := mode.pathStack + [mode.currentDir], currentDir := selected,
                          selected := Some(0));
          }
        }
      }
    }
  }

  // ---------------------------------------------------------------------
  // Helpers of the browsing screen

  /** The number of filled cells of a bar `width` cells wide. */
  function Filled(percentage: Byte, width: nat): (r: nat)
    ensures r <= width
    ensures percentage >= 100 ==> r == width
    ensures percentage == 0 ==> r == 0
    ensures percentage <= 100 ==> r * 100 <= percentage * width < (r + 1) * 100
  {
    Natural.Min(percentage * width / 100, width)
  }

  /** `create_percentage_bar`: `width` cells, the filled ones first. */
  method CreatePercentageBar(percentage: Byte, width: nat) returns (bar: string)
    ensures |bar| == width
    ensures forall i :: 0 <= i < width ==> bar[i] == if i < Filled(percentage, width) then '█' else ' '
  {
    if width == 0 {
      return [];
    }
    var filled := Natural.Min(percentage * width / 100, width);
    bar := [];
    for i := 0 to width
      invariant |bar| == i
      invariant forall k :: 0 <= k < i ==> bar[k] == if k < filled then '█' else ' '
    {
      if i < filled {
        bar := bar + ['█'];
      } else {
        bar := bar + [' '];
      }
    }
  }

  /** The colours of the type indicators. */
  datatype Color = Blue | White | Cyan | Yellow | Magenta | Red | DarkGray

  /** `get_file_type_info`. */
  function FileTypeInfo(t: EntryType): (char, Color) {
    match t
    case Directory => ('/', Blue)
    case File => (' ', White)
    case Symlink => ('@', Cyan)
    case Hardlink => ('>', Yellow)
    case Special => ('=', Magenta)
    case Error => ('!', Red)
    case Excluded => ('x', DarkGray)
    case OtherFs => ('~', DarkGray)
    case KernelFs => ('#', DarkGray)
  }

  /** The entry type an indicator stands for. */
  function TypeOfIndicator(c: char): (r: Option<EntryType>)
    ensures r.Some? ==> FileTypeInfo(r.value).0 == c
  {
    match c
    case '/' => Some(Directory)
    case ' ' => Some(File)
    case '@' => Some(Symlink)
    case '>' => Some(Hardlink)
    case '=' => Some(Special)
    case '!' => Some(Error)
    case 'x' => Some(Excluded)
    case '~' => Some(OtherFs)
    case '#' => Some(KernelFs)
    case _ => None
  }

  /** Every type has its own indicator: the type can be read back from it. */
  lemma IndicatorsDistinct(t: EntryType)
    ensures TypeOfIndicator(FileTypeInfo(t).0) == Some(t)
  {
  }

  /** `build_current_path`: the names from the root down, collected in a
      loop, joined by '/' and put after a leading '/'. */
  method BuildCurrentPath(pathStack: seq<Entry>, currentDir: Entry) returns (path: string)
    ensures path == "/" + Browser.JoinedNames(pathStack + [currentDir])
    ensures (forall i :: 0 <= i < |pathStack| ==> '/' !in pathStack[i].name) && '/' !in currentDir.name ==>
      Strings.Split(path, '/') == [""] + Names(pathStack + [currentDir])
  {
    var parts: seq<string> := [];
    for i := 0 to |pathStack|
      invariant parts == Names(pathStack[..i])
    {
      assert pathStack[..i + 1][..i] == pathStack[..i];
      parts := parts + [pathStack[i].name];
    }
    assert pathStack[..|pathStack|] == pathStack;
    assert (pathStack + [currentDir])[..|pathStack|] == pathStack;
    parts := parts + [currentDir.name];
    path := "/" + Strings.Join(parts, "/");
    if (forall i :: 0 <= i < |pathStack| ==> '/' !in pathStack[i].name) && '/' !in currentDir.name {
      RootedPathSplits(pathStack + [currentDir]);
    }
  }

  /** With no '/' in any name, the rooted path splits into an empty first
      piece and the names from the root down. */
  lemma RootedPathSplits(path: seq<Entry>)
    requires |path| >= 1
    requires forall i :: 0 <= i < |path| ==> '/' !in path[i].name
    ensures Strings.Split("/" + Browser.JoinedNames(path), '/') == [""] + Names(path)
  {
    assert forall i :: 0 <= i < |Names(path)| ==> '/' !in Names(path)[i];
    Strings.SplitRootedJoin(Names(path), '/');
  }

  /** The size column of a directory in the list: its own size and, for
      each child, the child's own such size if it is directory-like, or
      else the child's size. */
  function DirectorySize(e: Entry): nat {
    e.size + ChildrenSize(e.children)
  }

  function ChildrenSize(cs: seq<Entry>): nat {
    if |cs| == 0 then 0
    else
      var last := cs[|cs| - 1];
      ChildrenSize(cs[..|cs| - 1]) + (if last.entryType.IsDirectory() then DirectorySize(last) else last.size)
  }

  /** `calculate_total_size`: what the directory's children add up to,
      without the directory's own size. */
  function CalculateTotalSize(dir: Entry): (r: nat)
    ensures r + dir.size == DirectorySize(dir)
  {
    ChildrenSize(dir.children)
  }

  /** Only directory-like entries have children, all the way down. */
  predicate ChildrenOnlyInDirectories(e: Entry) {
    (|e.children| > 0 ==> e.entryType.IsDirectory())
    && forall i :: 0 <= i < |e.children| ==> ChildrenOnlyInDirectories(e.children[i])
  }

  /** The list's size column never exceeds the tree's total size, and is
      that total when only directories have children. */
  lemma {:induction false} DirectorySizeIsTotal(e: Entry)
    ensures DirectorySize(e) <= TotalSize(e)
    ensures ChildrenOnlyInDirectories(e) ==> DirectorySize(e) == TotalSize(e)
    decreases e, 1
  {
    ChildrenSizeIsTotal(e.children);
    if ChildrenOnlyInDirectories(e) {
      assert forall i :: 0 <= i < |e.children| ==> ChildrenOnlyInDirectories(e.children[i]);
    }
  }

  lemma {:induction false} ChildrenSizeIsTotal(cs: seq<Entry>)
    ensures ChildrenSize(cs) <= SumTotalSize(cs)
    ensures (forall i :: 0 <= i < |cs| ==> ChildrenOnlyInDirectories(cs[i]))
            && (forall i :: 0 <= i < |cs| ==> |cs[i].children| > 0 ==> cs[i].entryType.IsDirectory())
            ==> ChildrenSize(cs) == SumTotalSize(cs)
    decreases cs, 0
  {
    if |cs| > 0 {
      var last := cs[|cs| - 1];
      ChildrenSizeIsTotal(cs[..|cs| - 1]);
      DirectorySizeIsTotal(last);
      assert last.size <= TotalSize(last);
    }
  }
}
