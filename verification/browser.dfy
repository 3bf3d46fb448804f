/** The keyboard browser of src/browser.rs: a cursor over the children of
    the directory being shown, a stack of the directories above it, and a
    scroll window that follows the cursor. Drawing and the terminal are
    not part of this model; the terminal size is an input. */
module Browser {
  import opened Wrappers
  import opened Model
  import opened Errors
  import Strings
  import Natural

  /** The keys the browser tells apart (crossterm's `KeyCode`); every
      other key is `OtherKey`. */
  datatype KeyCode =
    | Char(c: char) | F(n: nat)
    | Up | Down | Left | Right | PageUp | PageDown | Home | End
    | Enter | Esc | Backspace | OtherKey

  datatype BrowserAction = Continue | Quit

  /** Lines of the terminal that hold the file list: the header, the path
      and the status line take four, and `saturating_sub` stops at 0. */
  function VisibleHeight(terminalHeight: nat): (r: nat)
    ensures r <= terminalHeight
    ensures terminalHeight >= 4 ==> r + 4 == terminalHeight
    ensures terminalHeight <= 4 ==> r == 0
  {
    if terminalHeight >= 4 then terminalHeight - 4 else 0
  }

  /** A child the browser descends into: directory-like and not an error. */
  predicate CanEnter(e: Entry) {
    e.entryType.IsDirectory() && e.entryType != EntryType.Error
  }

  /** `path` starts at `root` and each entry is a child of the one before. */
  predicate Descends(root: Entry, path: seq<Entry>) {
    |path| >= 1 && path[0] == root
    && forall i :: 1 <= i < |path| ==> path[i] in path[i - 1].children
  }

  /** The navigation state of a `Browser`. */
  datatype BrowserState = BrowserState(
    current: Entry,
    pathStack: seq<Entry>,
    selectedIndex: nat,
    scrollOffset: nat,
    terminalHeight: nat,
    showHelp: bool)

  /** What every operation keeps: the stack and the shown directory lead
      down from the root, and the cursor is on a child (or at 0 when there
      is none). */
  predicate ValidState(root: Entry, s: BrowserState) {
    Descends(root, s.pathStack + [s.current])
    && (if |s.current.children| == 0 then s.selectedIndex == 0 else s.selectedIndex < |s.current.children|)
  }

  /** `adjust_scroll`: the new scroll offset for a cursor at `selected`. */
  function Scrolled(selected: nat, scroll: nat, height: nat): (r: nat)
    ensures height > 0 ==> r <= selected < r + height
    ensures scroll <= selected < scroll + height ==> r == scroll
  {
    if selected < scroll then selected
    else if selected >= scroll + height then selected + 1 - height
    else scroll
  }

  /** `move_selection`: nothing happens in an empty directory; otherwise
      moving up stops at the first child, moving down at the last, and the
      window follows the cursor. */
  function Moved(s: BrowserState, delta: int): BrowserState {
    if |s.current.children| == 0 then s
    else
      var maxIndex := |s.current.children| - 1;
      var index := if delta < 0 then (if s.selectedIndex >= -delta then s.selectedIndex + delta else 0)
                   else Natural.Min(s.selectedIndex + delta, maxIndex);
      s.(selectedIndex := index, scrollOffset := Scrolled(index, s.scrollOffset, VisibleHeight(s.terminalHeight)))
  }

  /** `enter_selected`: the cursor's child replaces the shown directory,
      which goes on the stack, when it can be entered. */
  function Entered(s: BrowserState): BrowserState
    requires |s.current.children| == 0 || s.selectedIndex < |s.current.children|
  {
    if |s.current.children| == 0 then s
    else
      var selected := s.current.children[s.selectedIndex];
      if CanEnter(selected) then
        s.(pathStack := s.pathStack + [s.current], current := selected, selectedIndex := 0, scrollOffset := 0)
      else s
  }

  /** `go_back`: the top of the stack is shown again. */
  function Back(s: BrowserState): BrowserState {
    if |s.pathStack| == 0 then s
    else s.(current := s.pathStack[|s.pathStack| - 1], pathStack := s.pathStack[..|s.pathStack| - 1],
            selectedIndex := 0, scrollOffset := 0)
  }

  /** The Home key. */
  function ToFirst(s: BrowserState): BrowserState {
    s.(selectedIndex := 0, scrollOffset := 0)
  }

  /** The End key. */
  function ToLast(s: BrowserState): BrowserState {
    if |s.current.children| == 0 then s
    else
      var index := |s.current.children| - 1;
      s.(selectedIndex := index, scrollOffset := Scrolled(index, s.scrollOffset, VisibleHeight(s.terminalHeight)))
  }

  /** `handle_key`. The sort, reverse, apparent-size and hidden-file keys
      reach methods that do nothing yet. */
  function KeyStep(s: BrowserState, key: KeyCode, control: bool): (BrowserState, BrowserAction)
    requires |s.current.children| == 0 || s.selectedIndex < |s.current.children|
  {
    if control && key == Char('c') then (s, Quit)
    else
      match key
      case Char('q') | Esc => (s, Quit)
      case Char('?') | F(1) => (s.(showHelp := !s.showHelp), Continue)
      case Up | Char('k') => (Moved(s, -1), Continue)
      case Down | Char('j') => (Moved(s, 1), Continue)
      case PageUp => (Moved(s, -(VisibleHeight(s.terminalHeight) as int)), Continue)
      case PageDown => (Moved(s, VisibleHeight(s.terminalHeight)), Continue)
      case Home | Char('g') => (ToFirst(s), Continue)
      case End | Char('G') => (ToLast(s), Continue)
      case Enter | Right | Char('l') => (Entered(s), Continue)
      case Left | Char('h') | Backspace => (Back(s), Continue)
      case _ => (s, Continue)
  }

  /** The names along a path of entries, joined by '/'. */
  function JoinedNames(path: seq<Entry>): string {
    Strings.Join(Names(path), "/")
  }

  /** `get_current_path`: the names from the root down to the directory
      shown. */
  function CurrentPath(s: BrowserState): string {
    JoinedNames(s.pathStack + [s.current])
  }

  // ---------------------------------------------------------------------
  // Properties of the navigation

  lemma DescendsPrefix(root: Entry, path: seq<Entry>, n: nat)
    requires Descends(root, path) && 1 <= n <= |path|
    ensures Descends(root, path[..n])
  {
  }

  /** Moving keeps the state valid and puts the cursor at the old position
      plus `delta`, clamped to the children; the window shows the cursor. */
  lemma MovedClamps(root: Entry, s: BrowserState, delta: int)
    requires ValidState(root, s)
    ensures ValidState(root, Moved(s, delta))
    ensures Moved(s, delta).current == s.current && Moved(s, delta).pathStack == s.pathStack
    ensures |s.current.children| == 0 ==> Moved(s, delta) == s
    ensures |s.current.children| > 0 ==>
      var target := s.selectedIndex + delta;
      Moved(s, delta).selectedIndex
        == if target < 0 then 0 else if target >= |s.current.children| then |s.current.children| - 1 else target
    ensures |s.current.children| > 0 && VisibleHeight(s.terminalHeight) > 0 ==>
      var m := Moved(s, delta);
      m.scrollOffset <= m.selectedIndex < m.scrollOffset + VisibleHeight(s.terminalHeight)
  {
  }

  /** Entering keeps the state valid. It pushes the shown directory and
      shows the child at the cursor from its top when that child is a
      directory that can be entered, and otherwise changes nothing. */
  lemma EnteredDescends(root: Entry, s: BrowserState)
    requires ValidState(root, s)
    ensures ValidState(root, Entered(s))
    ensures |s.current.children| > 0 && CanEnter(s.current.children[s.selectedIndex]) ==>
      Entered(s).pathStack == s.pathStack + [s.current]
      && Entered(s).current == s.current.children[s.selectedIndex]
      && Entered(s).selectedIndex == 0 && Entered(s).scrollOffset == 0
    ensures !(|s.current.children| > 0 && CanEnter(s.current.children[s.selectedIndex])) ==> Entered(s) == s
  {
    if |s.current.children| > 0 && CanEnter(s.current.children[s.selectedIndex]) {
      var path := s.pathStack + [s.current];
      var child := s.current.children[s.selectedIndex];
      assert Entered(s).pathStack + [Entered(s).current] == path + [child];
      assert path[|path| - 1] == s.current;
    }
  }

  /** Going back keeps the state valid; with an empty stack it changes
      nothing. */
  lemma BackAscends(root: Entry, s: BrowserState)
    requires ValidState(root, s)
    ensures ValidState(root, Back(s))
    ensures |s.pathStack| == 0 ==> Back(s) == s
    ensures |s.pathStack| > 0 ==>
      |Back(s).pathStack| + 1 == |s.pathStack|
      && Back(s).current == s.pathStack[|s.pathStack| - 1] && Back(s).selectedIndex == 0
  {
    if |s.pathStack| > 0 {
      var path := s.pathStack + [s.current];
      DescendsPrefix(root, path, |s.pathStack|);
      assert path[..|s.pathStack|] == Back(s).pathStack + [Back(s).current];
    }
  }

  /** Entering a directory and going back shows the directory left, with
      the same stack (the cursor starts again at the top). */
  lemma EnterThenBack(root: Entry, s: BrowserState)
    requires ValidState(root, s)
    requires |s.current.children| > 0 && CanEnter(s.current.children[s.selectedIndex])
    ensures Back(Entered(s)).current == s.current && Back(Entered(s)).pathStack == s.pathStack
    ensures Back(Entered(s)) == s.(selectedIndex := 0, scrollOffset := 0)
  {
    EnteredDescends(root, s);
    assert (s.pathStack + [s.current])[..|s.pathStack|] == s.pathStack;
  }

  /** Entering a directory appends its name to the path shown. */
  lemma EnteredPathExtends(root: Entry, s: BrowserState)
    requires ValidState(root, s)
    requires |s.current.children| > 0 && CanEnter(s.current.children[s.selectedIndex])
    ensures CurrentPath(Entered(s)) == CurrentPath(s) + "/" + s.current.children[s.selectedIndex].name
  {
    EnteredDescends(root, s);
    var path := s.pathStack + [s.current];
    var names := Names(path + [s.current.children[s.selectedIndex]]);
    assert names[..|names| - 1] == Names(path);
  }

  /** When no name holds a '/', the path shown can be split back into the
      names from the root down. */
  lemma CurrentPathSplits(s: BrowserState)
    requires forall e :: e in s.pathStack + [s.current] ==> '/' !in e.name
    ensures Strings.Split(CurrentPath(s), '/') == Names(s.pathStack + [s.current])
  {
    var path := s.pathStack + [s.current];
    var names := Names(path);
    forall i | 0 <= i < |names| ensures '/' !in names[i] {
      assert path[i] in path;
    }
    Strings.SplitJoin(names, '/');
  }

  /** The browser quits on q, Esc and Ctrl+C and on nothing else, and
      quitting changes nothing. */
  lemma QuitKeys(s: BrowserState, key: KeyCode, control: bool)
    requires |s.current.children| == 0 || s.selectedIndex < |s.current.children|
    ensures KeyStep(s, key, control).1 == Quit <==> (control && key == Char('c')) || key == Char('q') || key == Esc
    ensures KeyStep(s, key, control).1 == Quit ==> KeyStep(s, key, control).0 == s
  {
  }

  /** Every key keeps the state valid. */
  lemma KeyStepValid(root: Entry, s: BrowserState, key: KeyCode, control: bool)
    requires ValidState(root, s)
    ensures ValidState(root, KeyStep(s, key, control).0)
  {
    if !(control && key == Char('c')) {
      match key
      case Up => MovedClamps(root, s, -1);
      case Down => MovedClamps(root, s, 1);
      case PageUp => MovedClamps(root, s, -(VisibleHeight(s.terminalHeight) as int));
      case PageDown => MovedClamps(root, s, VisibleHeight(s.terminalHeight));
      case Char(c) =>
        if c == 'k' { MovedClamps(root, s, -1); }
        else if c == 'j' { MovedClamps(root, s, 1); }
        else if c == 'l' { EnteredDescends(root, s); }
        else if c == 'h' { BackAscends(root, s); }
      case Enter => EnteredDescends(root, s);
      case Right => EnteredDescends(root, s);
      case Left => BackAscends(root, s);
      case Backspace => BackAscends(root, s);
      case _ =>
    }
  }

  /** Home goes to the first child with the window at the top; End goes to
      the last child and scrolls to show it. */
  lemma HomeAndEnd(s: BrowserState)
    requires |s.current.children| == 0 || s.selectedIndex < |s.current.children|
    ensures KeyStep(s, Home, false).0.selectedIndex == 0 && KeyStep(s, Home, false).0.scrollOffset == 0
    ensures |s.current.children| > 0 ==>
      var e := KeyStep(s, End, false).0;
      e.selectedIndex == |s.current.children| - 1
      && (VisibleHeight(s.terminalHeight) > 0 ==> e.scrollOffset <= e.selectedIndex < e.scrollOffset + VisibleHeight(s.terminalHeight))
    ensures |s.current.children| == 0 ==> KeyStep(s, End, false).0 == s
  {
  }

  /** The sort, reverse, apparent-size and hidden-file keys change nothing,
      and the help key shows or hides the help and nothing else. */
  lemma StubKeysAndHelp(s: BrowserState, c: char)
    requires |s.current.children| == 0 || s.selectedIndex < |s.current.children|
    requires c in "srad"
    ensures KeyStep(s, Char(c), false) == (s, Continue)
    ensures KeyStep(s, Char('?'), false).0 == s.(showHelp := !s.showHelp)
    ensures KeyStep(KeyStep(s, F(1), false).0, Char('?'), false).0 == s
  {
  }

  // ---------------------------------------------------------------------
  // The browser object

  class Browser {
    const root: Entry
    var current: Entry
    var pathStack: seq<Entry>
    var selectedIndex: nat
    var scrollOffset: nat
    var terminalHeight: nat
    var terminalWidth: nat
    var showHelp: bool

    function State(): BrowserState
      reads this
    {
      BrowserState(current, pathStack, selectedIndex, scrollOffset, terminalHeight, showHelp)
    }

    ghost predicate Valid()
      reads this
    {
      ValidState(root, State())
    }

    /** `Browser::new`, with the terminal size already read. */
    constructor (root: Entry, width: nat, height: nat)
      ensures Valid() && this.root == root && terminalWidth == width
      ensures State() == BrowserState(root, [], 0, 0, height, false)
    {
      this.root := root;
      current := root;
      pathStack := [];
      selectedIndex := 0;
      scrollOffset := 0;
      terminalHeight := height;
      terminalWidth := width;
      showHelp := false;
    }

    /** A resize event. */
    method Resize(width: nat, height: nat)
      modifies this
      ensures terminalWidth == width
      ensures State() == old(State()).(terminalHeight := height)
    {
      terminalWidth := width;
      terminalHeight := height;
    }

    /** `handle_key`. */
    method HandleKey(key: KeyCode, control: bool) returns (action: BrowserAction)
      requires Valid()
      modifies this
      ensures Valid() && terminalWidth == old(terminalWidth)
      ensures (State(), action) == KeyStep(old(State()), key, control)
    {
      KeyStepValid(root, State(), key, control);
      if control && key == Char('c') {
        return Quit;
      }
      action := Continue;
      match key
      case Char('q') | Esc => action := Quit;
      case Char('?') | F(1) => showHelp := !showHelp;
      case Up | Char('k') => MoveSelection(-1);
      case Down | Char('j') => MoveSelection(1);
      case PageUp => MoveSelection(-(VisibleHeight(terminalHeight) as int));
      case PageDown => MoveSelection(VisibleHeight(terminalHeight));
      case Home | Char('g') =>
        selectedIndex := 0;
        scrollOffset := 0;
      case End | Char('G') =>
        if |current.children| > 0 {
          selectedIndex := |current.children| - 1;
          AdjustScroll();
        }
      case Enter | Right | Char('l') => EnterSelected();
      case Left | Char('h') | Backspace => GoBack();
      case _ =>
    }

    /** `move_selection`. */
    method MoveSelection(delta: int)
      modifies this
      ensures terminalWidth == old(terminalWidth)
      ensures State() == Moved(old(State()), delta)
    {
      if |current.children| == 0 {
        return;
      }
      var maxIndex := |current.children| - 1;
      var newIndex;
      if delta < 0 {
        newIndex := if selectedIndex >= -delta then selectedIndex + delta else 0;
      } else {
        newIndex := Natural.Min(selectedIndex + delta, maxIndex);
      }
      selectedIndex := newIndex;
      AdjustScroll();
    }

    /** `enter_selected`. */
    method EnterSelected()
      requires |current.children| == 0 || selectedIndex < |current.children|
      modifies this
      ensures terminalWidth == old(terminalWidth)
      ensures State() == Entered(old(State()))
    {
      if |current.children| == 0 {
        return;
      }
      var selected := current.children[selectedIndex];
      if selected.entryType.IsDirectory() && selected.entryType != EntryType.Error {
        pathStack := pathStack + [current];
        current := selected;
        selectedIndex := 0;
        scrollOffset := 0;
      }
    }

    /** `go_back`. */
    method GoBack()
      modifies this
      ensures terminalWidth == old(terminalWidth)
      ensures State() == Back(old(State()))
    {
      if |pathStack| > 0 {
        var parent := pathStack[|pathStack| - 1];
        pathStack := pathStack[..|pathStack| - 1];
        current := parent;
        selectedIndex := 0;
        scrollOffset := 0;
      }
    }

    /** `adjust_scroll`. */
    method AdjustScroll()
      modifies this
      ensures terminalWidth == old(terminalWidth)
      ensures State() == old(State()).(scrollOffset := Scrolled(selectedIndex, old(scrollOffset), VisibleHeight(terminalHeight)))
    {
      var visibleHeight := VisibleHeight(terminalHeight);
      if selectedIndex < scrollOffset {
        scrollOffset := selectedIndex;
      } else if selectedIndex >= scrollOffset + visibleHeight {
        scrollOffset := selectedIndex + 1 - visibleHeight;
      }
    }

    /** `get_current_path`: the names are collected in a loop and joined. */
    method GetCurrentPath() returns (path: string)
      ensures path == CurrentPath(State())
    {
      var parts: seq<string> := [];
      var i := 0;
      while i < |pathStack|
        invariant i <= |pathStack|
        invariant parts == Names(pathStack[..i])
      {
        assert pathStack[..i + 1][..i] == pathStack[..i];
        parts := parts + [pathStack[i].name];
        i := i + 1;
      }
      assert pathStack[..i] == pathStack;
      assert (pathStack + [current])[..|pathStack|] == pathStack;
      parts := parts + [current.name];
      path := Strings.Join(parts, "/");
    }
  }

  /** `Browser::new`: reading the terminal size can fail. */
  method NewBrowser(root: Entry, terminalSize: Result<(nat, nat), IoError>) returns (r: Result<Browser, RsduError>)
    ensures terminalSize.Err? ==> r == Err(UiError("Cannot get terminal size: " + terminalSize.error.message))
    ensures terminalSize.Ok? ==>
      r.Ok? && fresh(r.value) && r.value.Valid() && r.value.root == root
      && r.value.State() == BrowserState(root, [], 0, 0, terminalSize.value.1, false)
      && r.value.terminalWidth == terminalSize.value.0
  {
    match terminalSize
    case Err(e) => return Err(UiError("Cannot get terminal size: " + e.message));
    case Ok((width, height)) =>
      var b := new Browser(root, width, height);
      return Ok(b);
  }
}
