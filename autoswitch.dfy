/**
 * The view auto-switch (CAutoSwitch): from the active window and its
 * settings it picks a decision method, runs it over the listed file
 * items, and answers list view, icons or large icons.
 *
 * The window manager and the GUI settings are inputs. The float
 * arithmetic of the percentage tests is modelled on exact reals.
 */
module AutoSwitch {

  const METHOD_BYFOLDERS: int := 0
  const METHOD_BYFILES: int := 1
  const METHOD_BYTHUMBPERCENT: int := 2
  const METHOD_BYFILECOUNT: int := 3

  /** The two facts about a CFileItem the decisions look at. */
  datatype FileItem = FileItem(isFolder: bool, hasThumbnail: bool)

  datatype ViewMethod = List | Icons | LargeIcons

  datatype Window = MusicFiles | VideoFiles | Pictures | Programs | OtherWindow

  /** The GUI settings GetView reads. */
  datatype Settings = Settings(
    hideParentDirItems: bool,
    musicMethod: int,
    musicLargeThumbs: bool,
    musicPercent: int,
    videoLargeThumbs: bool,
    picturesLargeThumbs: bool,
    programsLargeThumbs: bool)

  /** CFileItemList::GetFolderCount. */
  function FolderCount(items: seq<FileItem>): (n: nat)
    ensures n <= |items|
  {
    if items == [] then 0
    else FolderCount(items[..|items| - 1]) + (if items[|items| - 1].isFolder then 1 else 0)
  }

  /** CFileItemList::GetFileCount. */
  function FileCount(items: seq<FileItem>): (n: nat)
    ensures n <= |items|
  {
    if items == [] then 0
    else FileCount(items[..|items| - 1]) + (if items[|items| - 1].isFolder then 0 else 1)
  }

  /** Items with a thumbnail. */
  function ThumbCount(items: seq<FileItem>): (n: nat)
    ensures n <= |items|
  {
    if items == [] then 0
    else ThumbCount(items[..|items| - 1]) + (if items[|items| - 1].hasThumbnail then 1 else 0)
  }

  predicate SomeThumbnail(items: seq<FileItem>)
  {
    exists i :: 0 <= i < |items| && items[i].hasThumbnail
  }

  /** Every item is a folder or a file. */
  lemma {:induction false} FoldersAndFiles(items: seq<FileItem>)
    ensures FolderCount(items) + FileCount(items) == |items|
  {
    if items != [] {
      FoldersAndFiles(items[..|items| - 1]);
    }
  }

  /** The folder count is the size exactly when every item is a folder. */
  lemma {:induction false} AllFolders(items: seq<FileItem>)
    ensures FolderCount(items) == |items| <==> (forall i :: 0 <= i < |items| ==> items[i].isFolder)
  {
    if items != [] {
      var init := items[..|items| - 1];
      AllFolders(init);
      if FolderCount(items) == |items| {
        assert FolderCount(init) == |init| && items[|items| - 1].isFolder;
        forall i | 0 <= i < |items|
          ensures items[i].isFolder
        {
          if i < |init| {
            assert init[i] == items[i];
          }
        }
      }
    }
  }

  /** There is a thumbnail exactly when the thumbnail count is positive. */
  lemma {:induction false} ThumbCountPositive(items: seq<FileItem>)
    ensures ThumbCount(items) > 0 <==> SomeThumbnail(items)
  {
    if items != [] {
      var init := items[..|items| - 1];
      ThumbCountPositive(init);
      if SomeThumbnail(init) {
        var i :| 0 <= i < |init| && init[i].hasThumbnail;
        assert items[i] == init[i];
      }
      if SomeThumbnail(items) && !items[|items| - 1].hasThumbnail {
        var i :| 0 <= i < |items| && items[i].hasThumbnail;
        assert init[i] == items[i];
      }
    }
  }

  lemma ThumbCountSnoc(items: seq<FileItem>, i: nat)
    requires i < |items|
    ensures ThumbCount(items[..i + 1]) == ThumbCount(items[..i]) + (if items[i].hasThumbnail then 1 else 0)
  {
    assert items[..i + 1][..i] == items[..i];
  }

  /** Counting thumbnails over a longer prefix never gives fewer. */
  lemma {:induction false} ThumbCountMonotone(items: seq<FileItem>, i: nat, j: nat)
    requires i <= j <= |items|
    ensures ThumbCount(items[..i]) <= ThumbCount(items[..j])
    decreases j - i
  {
    if i < j {
      ThumbCountSnoc(items, i);
      ThumbCountMonotone(items, i + 1, j);
    }
  }

  /** The thumbnail loop shared by ByFolders and ByFiles: stops at the first thumbnail. */
  method AnyThumbnail(items: seq<FileItem>) returns (found: bool)
    ensures found == SomeThumbnail(items)
  {
    found := false;
    for i := 0 to |items|
      invariant forall k :: 0 <= k < i ==> !items[k].hasThumbnail
    {
      if items[i].hasThumbnail {
        found := true;
        break;
      }
    }
  }

  /** All items are folders and at least one has a thumbnail. */
  predicate FoldersDecide(items: seq<FileItem>)
  {
    (forall i :: 0 <= i < |items| ==> items[i].isFolder) && SomeThumbnail(items)
  }

  method ByFolders(items: seq<FileItem>) returns (thumbs: bool)
    ensures thumbs == FoldersDecide(items)
  {
    AllFolders(items);
    thumbs := false;
    if FolderCount(items) == |items| {
      thumbs := AnyThumbnail(items);
    }
  }

  /** An empty directory never switches to thumbnails by folders. */
  lemma ByFoldersEmpty()
    ensures !FoldersDecide([])
  {
  }

  /** More folders than the ".." entry accounts for, and a thumbnail. */
  predicate FilesDecide(hideParentDirItems: bool, items: seq<FileItem>)
  {
    FolderCount(items) > (if hideParentDirItems then 0 else 1) && SomeThumbnail(items)
  }

  method ByFiles(hideParentDirItems: bool, items: seq<FileItem>) returns (thumbs: bool)
    ensures thumbs == FilesDecide(hideParentDirItems, items)
  {
    thumbs := false;
    var compare := 0;
    if !hideParentDirItems {
      compare := 1;
    }
    if FolderCount(items) > compare {
      thumbs := AnyThumbnail(items);
    }
  }

  /** The float test (thumbs / items) * 100 >= percent, on exact reals. */
  predicate PercentReached(thumbs: nat, items: int, percent: int)
    requires items > 0
  {
    (thumbs as real / items as real) * 100.0 >= percent as real
  }

  /** Comparing a quotient with a positive divisor is comparing the dividend with the product. */
  lemma QuotientCompare(x: real, n: real, c: real)
    requires n > 0.0
    ensures x / n >= c <==> x >= c * n
    ensures x / n > c <==> x > c * n
  {
    var q := x / n;
    assert q * n == x;
    if q >= c {
      assert q * n >= c * n;
    } else {
      assert q * n < c * n;
    }
    if q > c {
      assert q * n > c * n;
    } else {
      assert q * n <= c * n;
    }
  }

  /** The percentage test is the integer comparison thumbs * 100 >= percent * items. */
  lemma PercentReachedInt(thumbs: nat, items: int, percent: int)
    requires items > 0
    ensures PercentReached(thumbs, items, percent) <==> thumbs * 100 >= percent * items
  {
    var n := items as real;
    assert (thumbs as real / n) * 100.0 == (thumbs * 100) as real / n;
    QuotientCompare((thumbs * 100) as real, n, percent as real);
    assert (percent as real) * n == (percent * items) as real;
  }

  /** Items counted for the percentage: one less when ".." is listed. */
  function CountedItems(hideParentDirItems: bool, items: seq<FileItem>): int
  {
    if hideParentDirItems then |items| else |items| - 1
  }

  /**
   * ByThumbPercent's outcome: some thumbnail, and the share of thumbnails
   * among the counted items reaches the percentage.
   */
  predicate ThumbPercentDecide(hideParentDirItems: bool, percent: int, items: seq<FileItem>)
  {
    var n := CountedItems(hideParentDirItems, items);
    n > 0 && ThumbCount(items) > 0 && ThumbCount(items) * 100 >= percent * n
  }

  /** The loop counts thumbnails and stops as soon as their share reaches the percentage. */
  method ByThumbPercent(hideParentDirItems: bool, percent: int, items: seq<FileItem>) returns (thumbs: bool)
    ensures thumbs == ThumbPercentDecide(hideParentDirItems, percent, items)
  {
    thumbs := false;
    var numThumbs: nat := 0;
    var numItems := |items|;
    if !hideParentDirItems {
      numItems := numItems - 1;
    }
    if numItems <= 0 {
      return false;
    }
    var i: nat := 0;
    while i < |items|
      invariant i <= |items|
      invariant numThumbs == ThumbCount(items[..i])
      invariant numThumbs == 0 || numThumbs * 100 < percent * numItems
    {
      ThumbCountSnoc(items, i);
      if items[i].hasThumbnail {
        numThumbs := numThumbs + 1;
        PercentReachedInt(numThumbs, numItems, percent);
        if PercentReached(numThumbs, numItems, percent) {
          thumbs := true;
          PercentStaysReached(items, i + 1, percent, numItems);
          return;
        }
      }
      i := i + 1;
    }
    assert items[..i] == items;
  }

  /** Once a prefix has reached the percentage, the whole listing has too. */
  lemma PercentStaysReached(items: seq<FileItem>, i: nat, percent: int, n: int)
    requires i <= |items|
    requires ThumbCount(items[..i]) > 0 && ThumbCount(items[..i]) * 100 >= percent * n
    ensures ThumbCount(items) > 0 && ThumbCount(items) * 100 >= percent * n
  {
    ThumbCountMonotone(items, i, |items|);
    assert items[..|items|] == items;
  }

  /** With no thumbnails the percentage method says no, whatever the percentage. */
  lemma ThumbPercentNeedsAThumb(hideParent: bool, percent: int, items: seq<FileItem>)
    requires !SomeThumbnail(items)
    ensures !ThumbPercentDecide(hideParent, percent, items)
  {
    ThumbCountPositive(items);
  }

  /** The file share of the listing, as a float comparison on exact reals. */
  predicate FileCountDecide(items: seq<FileItem>)
  {
    |items| > 0 && FileCount(items) as real / (|items| as real) > 0.25
  }

  function ByFileCount(items: seq<FileItem>): (thumbs: bool)
    ensures thumbs <==> |items| > 0 && 4 * FileCount(items) > |items|
  {
    if |items| == 0 then false
    else
      var fPercent := FileCount(items) as real / (|items| as real);
      QuotientCompare(FileCount(items) as real, |items| as real, 0.25);
      fPercent > 0.25
  }

  lemma ByFileCountMeans(items: seq<FileItem>)
    ensures ByFileCount(items) == FileCountDecide(items)
  {
  }

  /** The method, big-thumbs setting and percentage GetView uses for a window; method -1 for none. */
  datatype Choice = Choice(sortMethod: int, bigThumbs: bool, percent: int)

  function ChoiceFor(window: Window, s: Settings): Choice
  {
    match window
    case MusicFiles =>
      Choice(s.musicMethod, s.musicLargeThumbs,
             if s.musicMethod == METHOD_BYTHUMBPERCENT then s.musicPercent else 0)
    case VideoFiles => Choice(METHOD_BYTHUMBPERCENT, s.videoLargeThumbs, 50)
    case Pictures => Choice(METHOD_BYFILECOUNT, s.picturesLargeThumbs, 0)
    case Programs => Choice(METHOD_BYTHUMBPERCENT, s.programsLargeThumbs, 50)
    case OtherWindow => Choice(-1, false, 0)
  }

  /** The decision a method number stands for; numbers with no method decide against thumbnails. */
  predicate Decide(sortMethod: int, hideParent: bool, percent: int, items: seq<FileItem>)
  {
    if sortMethod == METHOD_BYFOLDERS then FoldersDecide(items)
    else if sortMethod == METHOD_BYFILES then FilesDecide(hideParent, items)
    else if sortMethod == METHOD_BYTHUMBPERCENT then ThumbPercentDecide(hideParent, percent, items)
    else if sortMethod == METHOD_BYFILECOUNT then FileCountDecide(items)
    else false
  }

  function ViewFor(thumbs: bool, bigThumbs: bool): (v: ViewMethod)
    ensures v == List <==> !thumbs
    ensures v == LargeIcons <==> thumbs && bigThumbs
  {
    if thumbs then (if bigThumbs then LargeIcons else Icons) else List
  }

  /** What GetView answers. */
  function View(window: Window, s: Settings, items: seq<FileItem>): ViewMethod
  {
    var c := ChoiceFor(window, s);
    if c.sortMethod < 0 then List
    else ViewFor(Decide(c.sortMethod, s.hideParentDirItems, c.percent, items), c.bigThumbs)
  }

  method GetView(window: Window, s: Settings, items: seq<FileItem>) returns (view: ViewMethod)
    ensures view == View(window, s, items)
  {
    var c := ChoiceFor(window, s);
    if c.sortMethod < 0 {
      return List;
    }
    var thumbs := false;
    if c.sortMethod == METHOD_BYFOLDERS {
      thumbs := ByFolders(items);
    } else if c.sortMethod == METHOD_BYFILES {
      thumbs := ByFiles(s.hideParentDirItems, items);
    } else if c.sortMethod == METHOD_BYTHUMBPERCENT {
      thumbs := ByThumbPercent(s.hideParentDirItems, c.percent, items);
    } else if c.sortMethod == METHOD_BYFILECOUNT {
      thumbs := ByFileCount(items);
      ByFileCountMeans(items);
    }
    view := ViewFor(thumbs, c.bigThumbs);
  }

  /** Windows without an auto-switch method, and music with a negative one, stay in list view. */
  lemma UnconfiguredIsList(window: Window, s: Settings, items: seq<FileItem>)
    requires window == OtherWindow || (window == MusicFiles && s.musicMethod < 0)
    ensures View(window, s, items) == List
  {
  }

  /**
   * Video and program windows switch to thumbnails once half the counted
   * items have one; pictures switch when more than a quarter are files.
   */
  lemma FixedWindowMethods(s: Settings, items: seq<FileItem>)
    ensures View(VideoFiles, s, items) != List <==> ThumbPercentDecide(s.hideParentDirItems, 50, items)
    ensures View(Programs, s, items) != List <==> ThumbPercentDecide(s.hideParentDirItems, 50, items)
    ensures View(Pictures, s, items) != List <==> |items| > 0 && 4 * FileCount(items) > |items|
  {
    ByFileCountMeans(items);
  }
}
