/**
 * The mock file-browser dialog: a fixed in-memory directory tree keyed by backslash-joined
 * paths, a case-insensitive name filter over the current folder, and the navigation state
 * (current folder, selected item) that item clicks, "back" and "confirm" drive.
 */
module FileBrowser {
  import opened Types
  import opened Text

  datatype ItemKind = Folder | Gdb | File

  datatype FileItem = FileItem(name: string, kind: ItemKind, path: string)

  /** What the dialog was opened to pick. */
  datatype Mode = FileMode | FolderMode | GdbMode

  /** The path separator. */
  const SEP: char := '\\'

  /** The drive the dialog starts at and cannot go above. */
  const ROOT: string := "C:"

  const ROOT_ITEMS: seq<FileItem> := [
    FileItem("Data", Folder, "C:\\Data"),
    FileItem("Projects", Folder, "C:\\Projects"),
    FileItem("Output", Folder, "C:\\Output"),
    FileItem("Windows", Folder, "C:\\Windows")
  ]

  const DATA_ITEMS: seq<FileItem> := [
    FileItem("Inventory.gdb", Gdb, "C:\\Data\\Inventory.gdb"),
    FileItem("Basemap.gdb", Gdb, "C:\\Data\\Basemap.gdb"),
    FileItem("Field_Collections", Folder, "C:\\Data\\Field_Collections")
  ]

  const PROJECTS_ITEMS: seq<FileItem> := [
    FileItem("2024_CityPlanning.gdb", Gdb, "C:\\Projects\\2024_CityPlanning.gdb"),
    FileItem("Utility_Migration", Folder, "C:\\Projects\\Utility_Migration")
  ]

  const OUTPUT_ITEMS: seq<FileItem> := [
    FileItem("Shapefiles", Folder, "C:\\Output\\Shapefiles"),
    FileItem("Exports", Folder, "C:\\Output\\Exports")
  ]

  const FIELD_COLLECTIONS_ITEMS: seq<FileItem> := [
    FileItem("StormWater_Draft.gdb", Gdb, "C:\\Data\\Field_Collections\\StormWater_Draft.gdb")
  ]

  /** The mock directory tree: each folder path with the entries listed inside it. */
  const MOCK_FS: map<string, seq<FileItem>> := map[
    "C:" := ROOT_ITEMS,
    "C:\\Data" := DATA_ITEMS,
    "C:\\Projects" := PROJECTS_ITEMS,
    "C:\\Output" := OUTPUT_ITEMS,
    "C:\\Data\\Field_Collections" := FIELD_COLLECTIONS_ITEMS
  ]

  /** `MOCK_FS[path] || []` */
  function Entries(path: string): seq<FileItem>
  {
    if path in MOCK_FS then MOCK_FS[path] else []
  }

  /** The path of the entry called `name` inside the folder `parent`. */
  function ChildPath(parent: string, name: string): string
  {
    parent + [SEP] + name
  }

  /** Each of `items` is named without a separator and sits at `parent`'s path plus its name. */
  predicate ChildrenOf(parent: string, items: seq<FileItem>)
  {
    forall i :: 0 <= i < |items| ==> SEP !in items[i].name && items[i].path == ChildPath(parent, items[i].name)
  }

  lemma RootItem0()
    ensures SEP !in "Data" && "C:\\Data" == ChildPath("C:", "Data")
  {
  }

  lemma RootItem1()
    ensures SEP !in "Projects" && "C:\\Projects" == ChildPath("C:", "Projects")
  {
  }

  lemma RootItem2()
    ensures SEP !in "Output" && "C:\\Output" == ChildPath("C:", "Output")
  {
  }

  lemma RootItem3()
    ensures SEP !in "Windows" && "C:\\Windows" == ChildPath("C:", "Windows")
  {
  }

  lemma RootChildren()
    ensures ChildrenOf("C:", ROOT_ITEMS)
  {
    RootItem0();
    RootItem1();
    RootItem2();
    RootItem3();
  }

  lemma DataItem0()
    ensures SEP !in "Inventory.gdb" && "C:\\Data\\Inventory.gdb" == ChildPath("C:\\Data", "Inventory.gdb")
  {
  }

  lemma DataItem1()
    ensures SEP !in "Basemap.gdb" && "C:\\Data\\Basemap.gdb" == ChildPath("C:\\Data", "Basemap.gdb")
  {
  }

  lemma DataItem2()
    ensures SEP !in "Field_Collections" && "C:\\Data\\Field_Collections" == ChildPath("C:\\Data", "Field_Collections")
  {
  }

  lemma DataChildren()
    ensures ChildrenOf("C:\\Data", DATA_ITEMS)
  {
    DataItem0();
    DataItem1();
    DataItem2();
  }

  lemma ProjectsItem0()
    ensures SEP !in "2024_CityPlanning.gdb" && "C:\\Projects\\2024_CityPlanning.gdb" == ChildPath("C:\\Projects", "2024_CityPlanning.gdb")
  {
  }

  lemma ProjectsItem1()
    ensures SEP !in "Utility_Migration" && "C:\\Projects\\Utility_Migration" == ChildPath("C:\\Projects", "Utility_Migration")
  {
  }

  lemma ProjectsChildren()
    ensures ChildrenOf("C:\\Projects", PROJECTS_ITEMS)
  {
    ProjectsItem0();
    ProjectsItem1();
  }

  lemma OutputItem0()
    ensures SEP !in "Shapefiles" && "C:\\Output\\Shapefiles" == ChildPath("C:\\Output", "Shapefiles")
  {
  }

  lemma OutputItem1()
    ensures SEP !in "Exports" && "C:\\Output\\Exports" == ChildPath("C:\\Output", "Exports")
  {
  }

  lemma OutputChildren()
    ensures ChildrenOf("C:\\Output", OUTPUT_ITEMS)
  {
    OutputItem0();
    OutputItem1();
  }

  lemma FieldCollectionsItem0()
    ensures SEP !in "StormWater_Draft.gdb" && "C:\\Data\\Field_Collections\\StormWater_Draft.gdb" == ChildPath("C:\\Data\\Field_Collections", "StormWater_Draft.gdb")
  {
  }

  lemma FieldCollectionsChildren()
    ensures ChildrenOf("C:\\Data\\Field_Collections", FIELD_COLLECTIONS_ITEMS)
  {
    FieldCollectionsItem0();
  }

  /** Every entry of the tree is named without a separator and sits at its folder's path plus its name. */
  lemma TreePathsAreChildPaths()
    ensures forall k | k in MOCK_FS :: ChildrenOf(k, MOCK_FS[k])
  {
    RootChildren();
    DataChildren();
    ProjectsChildren();
    OutputChildren();
    FieldCollectionsChildren();
    assert MOCK_FS.Keys == {"C:", "C:\\Data", "C:\\Projects", "C:\\Output", "C:\\Data\\Field_Collections"};
  }

  /** The item's lower-cased name contains the lower-cased query. */
  predicate Matches(item: FileItem, query: string)
  {
    Contains(Lower(item.name), Lower(query))
  }

  /** `items.filter(item => Matches(item, query))` */
  function Filter(items: seq<FileItem>, query: string): (r: seq<FileItem>)
    ensures |r| <= |items|
    ensures forall x :: x in r <==> x in items && Matches(x, query)
  {
    if items == [] then []
    else (if Matches(items[0], query) then [items[0]] else []) + Filter(items[1..], query)
  }

  /** Filtering keeps the original order: it distributes over concatenation. */
  lemma {:induction false} FilterAppend(a: seq<FileItem>, b: seq<FileItem>, query: string)
    ensures Filter(a + b, query) == Filter(a, query) + Filter(b, query)
  {
    if a != [] {
      var head := if Matches(a[0], query) then [a[0]] else [];
      assert (a + b)[0] == a[0] && (a + b)[1..] == a[1..] + b;
      assert Filter(a + b, query) == head + Filter(a[1..] + b, query);
      FilterAppend(a[1..], b, query);
      assert Filter(a, query) == head + Filter(a[1..], query);
    } else {
      assert a + b == b;
    }
  }

  /** An empty search shows the whole folder. */
  lemma {:induction false} FilterEmptyQuery(items: seq<FileItem>)
    ensures Filter(items, "") == items
  {
    if items != [] {
      ContainsEmpty(Lower(items[0].name));
      FilterEmptyQuery(items[1..]);
    }
  }

  /**
   * The items shown for the current folder and search text: the folder's own entries whose
   * names match, all of them when the search is empty.
   */
  function Listing(currentPath: string, query: string): (items: seq<FileItem>)
    ensures forall x :: x in items <==> x in Entries(currentPath) && Matches(x, query)
    ensures query == "" ==> items == Entries(currentPath)
  {
    FilterEmptyQuery(Entries(currentPath));
    Filter(Entries(currentPath), query)
  }

  /** A folder that has no entry in the tree shows nothing, whatever the search. */
  lemma ListingUnknownFolder(currentPath: string, query: string)
    requires currentPath !in MOCK_FS
    ensures Listing(currentPath, query) == []
  {
  }

  /**
   * The folder the back button leads to, computed by splitting at `\`, dropping the last part
   * and joining the rest: what precedes the last separator, or the drive when there is none.
   */
  function BackPath(path: string): (parent: string)
    ensures SEP in path ==> parent == PrefixBeforeLast(path, SEP)
    ensures SEP !in path ==> parent == ROOT
  {
    SplitHasManyParts(path, SEP);
    if SEP in path then SplitPopJoin(path, SEP); BackOfParts(Split(path, SEP))
    else BackOfParts(Split(path, SEP))
  }

  /** The parts without the last one, joined again; the drive when there is only one part. */
  function BackOfParts(parts: seq<string>): string
  {
    if |parts| > 1 then Join(parts[..|parts| - 1], SEP) else ROOT
  }

  /** Going back from a child returns to its folder. */
  lemma BackFromChild(parent: string, name: string)
    requires SEP !in name
    ensures BackPath(ChildPath(parent, name)) == parent
  {
    var p := ChildPath(parent, name);
    assert p[|parent|] == SEP;
    PrefixBeforeLastJoined(parent, SEP, name);
  }

  /** For every folder of the tree, entering it and then going back returns to where it was listed. */
  lemma EnterThenBack(k: string, item: FileItem)
    requires k in MOCK_FS && item in MOCK_FS[k] && item.kind == Folder
    ensures BackPath(item.path) == k
  {
    TreePathsAreChildPaths();
    var i :| 0 <= i < |MOCK_FS[k]| && MOCK_FS[k][i] == item;
    assert ChildrenOf(k, MOCK_FS[k]);
    BackFromChild(k, item.name);
  }

  /** The back button is disabled at the drive, which is exactly where going back would change nothing. */
  predicate BackDisabled(currentPath: string): (disabled: bool)
    ensures disabled <==> BackPath(currentPath) == currentPath
  {
    assert SEP !in ROOT;
    currentPath == ROOT
  }

  /** Back at the drive changes nothing. */
  lemma BackAtRootStays()
    ensures SEP !in ROOT && BackPath(ROOT) == ROOT
  {
    assert ROOT == [ROOT[0], ROOT[1]];
  }

  /** Away from the drive, a folder the dialog can be in has a parent with entries of its own. */
  lemma KnownParentListed(path: string)
    requires Known(path) && !BackDisabled(path)
    ensures BackPath(path) in MOCK_FS
  {
    var k, i :| k in MOCK_FS && 0 <= i < |MOCK_FS[k]|
      && MOCK_FS[k][i].kind == Folder && MOCK_FS[k][i].path == path;
    EnterThenBack(k, MOCK_FS[k][i]);
  }

  /**
   * Confirm is disabled outside folder mode while nothing is selected: exactly when pressing
   * it would pass nothing to `onSelect`, whatever the current folder.
   */
  predicate ConfirmDisabled(mode: Mode, selectedItem: Option<string>): (disabled: bool)
    ensures disabled ==> forall currentPath :: ConfirmTarget(mode, currentPath, selectedItem).None?
    ensures !disabled ==> forall currentPath :: ConfirmTarget(mode, currentPath, selectedItem).Some?
  {
    mode != FolderMode && !Truthy(selectedItem)
  }

  /** What confirm passes to `onSelect`, if anything. */
  function ConfirmTarget(mode: Mode, currentPath: string, selectedItem: Option<string>): (r: Option<string>)
    ensures r.Some? <==> mode == FolderMode || Truthy(selectedItem)
    ensures mode == FolderMode ==> r == Some(currentPath)
    ensures mode != FolderMode && r.Some? ==> r == selectedItem
  {
    if mode == FolderMode then Some(currentPath)
    else if Truthy(selectedItem) then selectedItem
    else None
  }

  /**
   * The footer's "Selected Location". It reads "No selection" while confirm is disabled and
   * otherwise names what confirm would pick, except in folder mode once a file has been
   * clicked: the footer then shows the file while confirm picks the folder.
   */
  function FooterText(mode: Mode, currentPath: string, selectedItem: Option<string>): (text: string)
    ensures ConfirmDisabled(mode, selectedItem) ==> text == "No selection"
    ensures !ConfirmDisabled(mode, selectedItem) && !(mode == FolderMode && Truthy(selectedItem)) ==>
      ConfirmTarget(mode, currentPath, selectedItem) == Some(text)
    ensures mode == FolderMode && Truthy(selectedItem) ==>
      text == selectedItem.value && ConfirmTarget(mode, currentPath, selectedItem) == Some(currentPath)
  {
    OrElse(selectedItem, if mode == FolderMode then currentPath else "No selection")
  }

  /** The folders the dialog can be in: the drive and every folder entry of the tree. */
  predicate Known(path: string)
  {
    path == ROOT
    || exists k, i :: k in MOCK_FS && 0 <= i < |MOCK_FS[k]|
         && MOCK_FS[k][i].kind == Folder && MOCK_FS[k][i].path == path
  }

  /** Every folder that has entries of its own is one the dialog can be in. */
  lemma KeysAreKnown(k: string)
    requires k in MOCK_FS
    ensures Known(k)
  {
    assert MOCK_FS.Keys == {"C:", "C:\\Data", "C:\\Projects", "C:\\Output", "C:\\Data\\Field_Collections"};
    if k == "C:\\Data" {
      assert ROOT_ITEMS[0].path == k;
    } else if k == "C:\\Projects" {
      assert ROOT_ITEMS[1].path == k;
    } else if k == "C:\\Output" {
      assert ROOT_ITEMS[2].path == k;
    } else if k == "C:\\Data\\Field_Collections" {
      assert DATA_ITEMS[2].path == k;
    }
  }

  /** Clicking a listed folder stays within the known folders. */
  lemma EnterKeepsKnown(currentPath: string, query: string, item: FileItem)
    requires item in Listing(currentPath, query) && item.kind == Folder
    ensures Known(item.path)
  {
    var i :| 0 <= i < |MOCK_FS[currentPath]| && MOCK_FS[currentPath][i] == item;
  }

  /** Going back from a known folder stays within the known folders. */
  lemma BackKeepsKnown(path: string)
    requires Known(path)
    ensures Known(BackPath(path))
  {
    if path == ROOT {
      BackAtRootStays();
    } else {
      var k, i :| k in MOCK_FS && 0 <= i < |MOCK_FS[k]|
        && MOCK_FS[k][i].kind == Folder && MOCK_FS[k][i].path == path;
      EnterThenBack(k, MOCK_FS[k][i]);
      KeysAreKnown(k);
    }
  }

  /** The dialog's state. It stays mounted while closed, so the state survives between openings. */
  class Browser {
    var currentPath: string
    var searchQuery: string
    var selectedItem: Option<string>

    /** The dialog is somewhere in the tree. */
    predicate Valid()
      reads this
    {
      Known(currentPath)
    }

    constructor ()
      ensures currentPath == ROOT && searchQuery == "" && selectedItem == None
      ensures Valid()
    {
      currentPath := ROOT;
      searchQuery := "";
      selectedItem := None;
    }

    /** The items on screen. */
    function Items(): seq<FileItem>
      reads this
    {
      Listing(currentPath, searchQuery)
    }

    /** Typing in the search box. */
    method SetSearchQuery(query: string)
      modifies this`searchQuery
      ensures searchQuery == query
    {
      searchQuery := query;
    }

    /** `handleItemClick(item)`: a folder is entered with the selection cleared; anything else is selected. */
    method HandleItemClick(item: FileItem)
      modifies this`currentPath, this`selectedItem
      ensures item.kind == Folder ==> currentPath == item.path && selectedItem == None
      ensures item.kind != Folder ==> currentPath == old(currentPath) && selectedItem == Some(item.path)
      ensures old(Valid()) && item in old(Items()) ==> Valid()
    {
      if item.kind == Folder {
        if item in Items() {
          EnterKeepsKnown(currentPath, searchQuery, item);
        }
        currentPath := item.path;
        selectedItem := None;
      } else {
        selectedItem := Some(item.path);
      }
    }

    /**
     * `handleBack()`: split the path at `\`, pop the last part and join the rest, clearing the
     * selection; a path without a separator other than the drive goes to the drive.
     */
    method HandleBack()
      modifies this`currentPath, this`selectedItem
      ensures currentPath == BackPath(old(currentPath))
      ensures selectedItem == if SEP in old(currentPath) then None else old(selectedItem)
      ensures old(Valid()) ==> Valid()
    {
      SplitHasManyParts(currentPath, SEP);
      if Valid() {
        BackKeepsKnown(currentPath);
      }
      var parts := Split(currentPath, SEP);
      if |parts| > 1 {
        parts := parts[..|parts| - 1];
        currentPath := Join(parts, SEP);
        selectedItem := None;
      } else if currentPath != ROOT {
        currentPath := ROOT;
      }
    }

    /** `handleConfirm()`: returns what is passed to `onSelect`, if anything; the dialog then closes. */
    method HandleConfirm(mode: Mode) returns (selected: Option<string>)
      ensures selected == ConfirmTarget(mode, currentPath, selectedItem)
    {
      if mode == FolderMode {
        selected := Some(currentPath);
      } else if selectedItem.Some? && selectedItem.value != "" {
        selected := selectedItem;
      } else {
        selected := None;
      }
    }
  }
}
