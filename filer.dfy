/**
 * The bookkeeping of ROX-Filer's filer windows (filer.c) without the widgets:
 * which directory a window shows and whether it is attached to it, its
 * thumbnail queue, and the searches over the list of open windows.
 */
module Filer {
  import opened Wrappers
  import opened FilerPaths
  import DirItems

  /** A directory in the directory cache; two lookups of one directory give the same handle. */
  datatype DirHandle = DirHandle(id: nat)

  /** The directory cache and path resolution: g_fscache_lookup(dir_cache, ...) and pathdup. */
  datatype DirCache = DirCache(lookup: string -> Option<DirHandle>, pathdup: string -> string)

  /** The options the window bookkeeping reads. */
  datatype FilerOptions = FilerOptions(uniqueWindows: bool, style: StyleOptions, titleEnv: TitleEnv)

  class FilerWindow {
    var symPath: string
    var realPath: string
    /** The directory the window shows (NULL between detach and the next attach). */
    var directory: Option<DirHandle>
    /** The directory whose list of users holds this window (dir_attach / dir_detach). */
    var attachedTo: Option<DirHandle>
    var scanning: bool
    /** The leaf to select once the scan ends. */
    var autoSelect: Option<string>
    var showHidden: bool
    var showThumbs: bool
    var displayStyle: DisplayStyle
    /** The paths still to be thumbnailed, in order. */
    var thumbQueue: seq<string>
    /** How many thumbnails the current batch holds, done or not. */
    var maxThumbs: int
    var thumbBarVisible: bool
    var title: string
    /** The window widget has been destroyed (filer_window_destroyed has run). */
    var destroyed: bool

    /**
     * A window is on the user list of exactly the directory it shows, its
     * queue never holds more thumbnails than the batch counts, and its
     * sym_path is stored tidied.
     */
    predicate Valid()
      reads this
    {
      attachedTo == directory && 0 <= |thumbQueue| <= maxThumbs && Tidied(symPath) == symPath
    }

    /** The title filer_set_title computes for the window as it stands. */
    function CurrentTitle(env: TitleEnv): string
      reads this
    {
      Title(symPath, scanning, showHidden, showThumbs, env)
    }

    /**
     * The set-up part of filer_opendir once the directory lookup has
     * succeeded: the path is tidied, nothing is scanning, no thumbnails are
     * queued, and the window is attached to its directory.
     */
    constructor (path: string, realPath: string, dir: DirHandle, showHidden: bool, showThumbs: bool,
                 style: DisplayStyle, env: TitleEnv)
      requires IsCString(path)
      ensures Valid()
      ensures symPath == Tidied(path) && this.realPath == realPath
      ensures directory == Some(dir) && attachedTo == Some(dir)
      ensures scanning && autoSelect.None? && !destroyed
      ensures thumbQueue == [] && maxThumbs == 0 && !thumbBarVisible
      ensures this.showHidden == showHidden && this.showThumbs == showThumbs && displayStyle == style
      ensures title == CurrentTitle(env)
    {
      var tidy := TidyCopy(path);
      TidiedIdempotent(path);
      symPath := tidy;
      this.realPath := realPath;
      directory := Some(dir);
      attachedTo := None;
      scanning := false;
      autoSelect := None;
      this.showHidden := showHidden;
      this.showThumbs := showThumbs;
      displayStyle := style;
      thumbQueue := [];
      maxThumbs := 0;
      thumbBarVisible := false;
      title := "";
      destroyed := false;
      new;
      Attach(env);
    }

    /** attach: joins the directory's user list, starts scanning and refreshes the title. */
    method Attach(env: TitleEnv)
      requires directory.Some? && attachedTo.None?
      modifies this
      ensures attachedTo == directory && scanning
      ensures title == CurrentTitle(env)
      ensures symPath == old(symPath) && realPath == old(realPath) && directory == old(directory)
      ensures autoSelect == old(autoSelect) && showHidden == old(showHidden) && showThumbs == old(showThumbs)
      ensures displayStyle == old(displayStyle) && destroyed == old(destroyed)
      ensures thumbQueue == old(thumbQueue) && maxThumbs == old(maxThumbs) && thumbBarVisible == old(thumbBarVisible)
    {
      scanning := true;
      attachedTo := directory;
      title := CurrentTitle(env);
    }

    /** detach: leaves the directory's user list and forgets the directory; does nothing if there is none. */
    method Detach()
      modifies this
      ensures old(directory).None? ==> directory == old(directory) && attachedTo == old(attachedTo)
      ensures old(directory).Some? ==> directory.None? && attachedTo.None?
      ensures symPath == old(symPath) && realPath == old(realPath) && scanning == old(scanning)
      ensures autoSelect == old(autoSelect) && showHidden == old(showHidden) && showThumbs == old(showThumbs)
      ensures displayStyle == old(displayStyle) && destroyed == old(destroyed) && title == old(title)
      ensures thumbQueue == old(thumbQueue) && maxThumbs == old(maxThumbs) && thumbBarVisible == old(thumbBarVisible)
    {
      if directory.None? {
        return;
      }
      attachedTo := None;
      directory := None;
    }

    /** filer_window_destroyed, for the window's own state: detached and its thumbnail queue freed. */
    method Destroy()
      modifies this
      ensures destroyed && directory.None?
      ensures old(Valid()) ==> attachedTo.None?
      ensures thumbQueue == [] && maxThumbs == old(maxThumbs)
      ensures symPath == old(symPath) && realPath == old(realPath)
    {
      destroyed := true;
      if directory.Some? {
        Detach();
      }
      thumbQueue := [];
    }

    /** set_style_by_number_of_items, with the view holding itemCount items. */
    method SetStyleByNumberOfItems(itemCount: int, opts: StyleOptions)
      modifies this`displayStyle
      ensures displayStyle == StyleFor(opts, old(displayStyle), itemCount)
    {
      if !opts.changeSize {
        return;
      }
      if displayStyle != LargeIcons && displayStyle != SmallIcons {
        return;
      }
      if itemCount >= opts.changeSizeNum {
        displayStyle := SmallIcons;
      } else {
        displayStyle := LargeIcons;
      }
    }

    /**
     * may_rescan: looks the real path up afresh. A directory that has gone
     * destroys the window and gives false; a different directory replaces
     * the old one (detached first, then attached).
     */
    method MayRescan(cache: DirCache, env: TitleEnv) returns (stillThere: bool)
      requires Valid()
      modifies this
      ensures stillThere <==> cache.lookup(old(realPath)).Some?
      ensures !stillThere ==> destroyed && directory.None? && attachedTo.None?
      ensures stillThere ==> Valid() && directory == cache.lookup(old(realPath))
      ensures stillThere && old(directory) == directory ==> unchanged(this)
      ensures stillThere && old(directory) != directory ==> scanning && title == CurrentTitle(env)
      ensures symPath == old(symPath) && realPath == old(realPath)
      // re-attaching touches nothing but the directory, the scan flag and the title
      ensures stillThere ==>
                autoSelect == old(autoSelect) && destroyed == old(destroyed) &&
                displayStyle == old(displayStyle) && showHidden == old(showHidden) && showThumbs == old(showThumbs) &&
                thumbQueue == old(thumbQueue) && maxThumbs == old(maxThumbs) && thumbBarVisible == old(thumbBarVisible)
    {
      var dir := cache.lookup(realPath);
      if dir.None? {
        Destroy();
        return false;
      }
      if dir != directory {
        Detach();
        directory := dir;
        Attach(env);
      }
      return true;
    }

    /** filer_cancel_thumbnails: hides the bar and empties the batch. */
    method CancelThumbnails()
      modifies this`thumbBarVisible, this`thumbQueue, this`maxThumbs
      ensures thumbQueue == [] && maxThumbs == 0 && !thumbBarVisible
    {
      thumbBarVisible := false;
      thumbQueue := [];
      maxThumbs := 0;
    }

    /**
     * filer_create_thumb: queues path at the end of the batch. Thumbnailing
     * starts now unless a scan is running (it starts when the scan ends) or
     * it is already under way (the bar is showing).
     */
    method CreateThumb(path: string) returns (started: bool)
      requires Valid()
      modifies this`maxThumbs, this`thumbQueue, this`thumbBarVisible
      ensures Valid()
      ensures thumbQueue == old(thumbQueue) + [path] && maxThumbs == old(maxThumbs) + 1
      ensures started <==> !scanning && !old(thumbBarVisible)
      ensures thumbBarVisible == (old(thumbBarVisible) || !scanning)
    {
      maxThumbs := maxThumbs + 1;
      thumbQueue := thumbQueue + [path];
      if scanning {
        return false;
      }
      started := StartThumbScanning();
    }

    /** start_thumb_scanning: shows the bar and schedules the first thumbnail, unless it is already showing. */
    method StartThumbScanning() returns (started: bool)
      modifies this`thumbBarVisible
      ensures started <==> !old(thumbBarVisible)
      ensures thumbBarVisible
    {
      if thumbBarVisible {
        return false;
      }
      thumbBarVisible := true;
      return true;
    }

    /**
     * filer_next_thumb_real: takes the head of the queue to thumbnail, with
     * the progress done out of total; an empty queue ends the batch. Nothing
     * happens for a window that has been destroyed.
     */
    method NextThumbReal() returns (next: Option<string>, done: int, total: int)
      requires Valid()
      modifies this`thumbQueue, this`maxThumbs, this`thumbBarVisible
      ensures Valid()
      ensures old(destroyed) ==> next.None? && unchanged(this)
      ensures !destroyed && old(thumbQueue) == [] ==>
                next.None? && thumbQueue == [] && maxThumbs == 0 && !thumbBarVisible
      ensures !destroyed && old(thumbQueue) != [] ==>
                next == Some(old(thumbQueue)[0]) && thumbQueue == old(thumbQueue)[1..] &&
                maxThumbs == old(maxThumbs) && thumbBarVisible == old(thumbBarVisible) &&
                total == maxThumbs && done == total - |old(thumbQueue)| && 0 <= done < total
    {
      if destroyed {
        return None, 0, 0;
      }
      if thumbQueue == [] {
        CancelThumbnails();
        return None, 0, 0;
      }
      total := maxThumbs;
      done := total - |thumbQueue|;
      next := Some(thumbQueue[0]);
      thumbQueue := thumbQueue[1..];
    }

    /**
     * filer_change_to: shows path instead, selecting the leaf from. A path
     * whose directory cannot be looked up leaves the window where it was
     * (its thumbnails are still cancelled). Otherwise, with unique windows
     * on, another window already showing the directory is destroyed; the
     * window is detached from the old directory before it is attached to
     * the new one, and its sym_path is the tidied path.
     */
    method ChangeTo(path: string, from: Option<string>, cache: DirCache, all: seq<FilerWindow>,
                    itemCount: int, opts: FilerOptions) returns (closed: FilerWindow?)
      requires Valid() && IsCString(path)
      modifies this, all
      ensures Valid()
      ensures thumbQueue == [] && maxThumbs == 0 && !thumbBarVisible
      ensures cache.lookup(cache.pathdup(path)).None? ==>
                closed == null && symPath == old(symPath) && realPath == old(realPath) &&
                directory == old(directory) && scanning == old(scanning) && autoSelect == old(autoSelect) &&
                title == old(title) && displayStyle == old(displayStyle)
      ensures cache.lookup(cache.pathdup(path)).Some? ==>
                symPath == Tidied(path) && realPath == cache.pathdup(path) &&
                directory == cache.lookup(cache.pathdup(path)) && scanning &&
                autoSelect == (if from.Some? && from.value != "" then from else None) &&
                title == CurrentTitle(opts.titleEnv) &&
                displayStyle == StyleFor(opts.style, old(displayStyle), itemCount)
      ensures cache.lookup(cache.pathdup(path)).Some? ==>
                closed == (if opts.uniqueWindows then old(DuplicateToClose(all, path, this)) else null)
      ensures closed != null ==> closed != this && closed.destroyed && closed.directory.None?
      ensures showHidden == old(showHidden) && showThumbs == old(showThumbs) && destroyed == old(destroyed)
      // no other window changes, apart from the one closed
      ensures forall w | w in all && w != closed && w != this :: unchanged(w)
    {
      CancelThumbnails();
      var resolved := cache.pathdup(path);
      var newDir := cache.lookup(resolved);
      if newDir.None? {
        return null;
      }
      var tidy := TidyCopy(path);
      TidiedIdempotent(path);
      closed := null;
      if opts.uniqueWindows {
        closed := CloseDuplicate(all, tidy);
      }
      var fromDup := if from.Some? && from.value != "" then from else None;
      ShowDirectory(resolved, tidy, newDir.value, fromDup, itemCount, opts);
    }

    /** The unique-windows step of filer_change_to: destroys the first other window showing symPath. */
    method CloseDuplicate(all: seq<FilerWindow>, symPath: string) returns (closed: FilerWindow?)
      modifies all
      ensures closed == old(FirstMatch(all, symPath, this))
      ensures closed != null ==> closed != this && closed.destroyed && closed.directory.None?
      ensures unchanged(this)
      ensures forall w | w in all && w != closed :: unchanged(w)
    {
      closed := FindFilerWindow(all, symPath, this);
      if closed != null {
        closed.Destroy();
      }
    }

    /**
     * The rest of filer_change_to once the new directory is known: detach,
     * take the new paths, directory and leaf to select, attach, and pick the
     * icon size for the number of items.
     */
    method ShowDirectory(resolved: string, tidy: string, dir: DirHandle, select: Option<string>,
                         itemCount: int, opts: FilerOptions)
      requires Valid() && Tidied(tidy) == tidy
      modifies this
      ensures Valid()
      ensures symPath == tidy && realPath == resolved && directory == Some(dir) && scanning
      ensures autoSelect == select && title == CurrentTitle(opts.titleEnv)
      ensures displayStyle == StyleFor(opts.style, old(displayStyle), itemCount)
      ensures thumbQueue == old(thumbQueue) && maxThumbs == old(maxThumbs) && thumbBarVisible == old(thumbBarVisible)
      ensures showHidden == old(showHidden) && showThumbs == old(showThumbs) && destroyed == old(destroyed)
    {
      Detach();
      realPath := resolved;
      symPath := tidy;
      directory := Some(dir);
      autoSelect := select;
      Attach(opts.titleEnv);
      SetStyleByNumberOfItems(itemCount, opts.style);
    }

    /** change_to_parent: goes up one level, selecting the directory just left; nothing happens at "/". */
    method ChangeToParent(cache: DirCache, all: seq<FilerWindow>, itemCount: int, opts: FilerOptions)
      returns (closed: FilerWindow?)
      requires Valid() && IsCString(symPath)
      modifies this, all
      ensures Valid()
      ensures old(symPath) == "/" ==> closed == null && unchanged(this)
      ensures forall w | w in all && w != closed && w != this :: unchanged(w)
      ensures old(symPath) != "/" && cache.lookup(cache.pathdup(Dirname(old(symPath)))).Some? ==>
                symPath == Tidied(Dirname(old(symPath))) &&
                autoSelect == (if Basename(old(symPath)) != "" then Some(Basename(old(symPath))) else None)
    {
      match ParentOf(symPath)
      case None =>
        return null;
      case Some((dir, leaf)) =>
        DirnameIsCString(symPath);
        closed := ChangeTo(dir, Some(leaf), cache, all, itemCount, opts);
    }
  }

  // ---------------------------------------------------------------------
  // Searches over all_filer_windows
  // ---------------------------------------------------------------------

  /** The first window of the list, other than diff, whose sym_path is symPath. */
  function FirstMatch(all: seq<FilerWindow>, symPath: string, diff: FilerWindow?): (r: FilerWindow?)
    reads all`symPath
    ensures r != null ==> r in all && r != diff && r.symPath == symPath
    ensures r == null <==> forall w | w in all :: w == diff || w.symPath != symPath
  {
    if all == [] then null
    else if all[0] != diff && all[0].symPath == symPath then all[0]
    else FirstMatch(all[1..], symPath, diff)
  }

  /** find_filer_window: walks the list for the first window other than diff showing symPath. */
  method FindFilerWindow(all: seq<FilerWindow>, symPath: string, diff: FilerWindow?) returns (r: FilerWindow?)
    ensures r == FirstMatch(all, symPath, diff)
    ensures r != null ==> r in all && r != diff && r.symPath == symPath
    ensures r == null <==> forall w | w in all :: w == diff || w.symPath != symPath
  {
    var i := 0;
    while i < |all|
      invariant 0 <= i <= |all|
      invariant FirstMatch(all, symPath, diff) == FirstMatch(all[i..], symPath, diff)
    {
      var w := all[i];
      if w != diff && w.symPath == symPath {
        return w;
      }
      assert all[i..][1..] == all[i + 1..];
      i := i + 1;
    }
    return null;
  }

  /** filer_exists: whether the window is still on the list. */
  method FilerExists(all: seq<FilerWindow>, w: FilerWindow) returns (b: bool)
    ensures b <==> w in all
  {
    var i := 0;
    while i < |all|
      invariant 0 <= i <= |all|
      invariant w !in all[..i]
    {
      if all[i] == w {
        return true;
      }
      assert all[..i + 1] == all[..i] + [all[i]];
      i := i + 1;
    }
    assert all[..i] == all;
    return false;
  }

  /** if_deleted: whether the item's leafname is that of one of the removed items. */
  method IfDeleted(item: DirItems.DirItem, removed: seq<DirItems.DirItem>) returns (deleted: bool)
    ensures deleted <==> exists j | 0 <= j < |removed| :: removed[j].leafname == item.leafname
  {
    var i := |removed|;
    while i > 0
      invariant 0 <= i <= |removed|
      invariant forall j | i <= j < |removed| :: removed[j].leafname != item.leafname
    {
      i := i - 1;
      if removed[i].leafname == item.leafname {
        return true;
      }
    }
    return false;
  }

  /** The windows filer_check_mounted updates: those whose real path is realPath or lies below it. */
  method WindowsToUpdate(all: seq<FilerWindow>, realPath: string) returns (r: seq<FilerWindow>)
    ensures forall w :: w in r <==> w in all && MountCovers(realPath, w.realPath)
    ensures |r| <= |all|
  {
    r := [];
    var i := 0;
    while i < |all|
      invariant 0 <= i <= |all| && |r| <= i
      invariant forall w :: w in r <==> w in all[..i] && MountCovers(realPath, w.realPath)
    {
      var w := all[i];
      if MountCovers(realPath, w.realPath) {
        r := r + [w];
      }
      assert all[..i + 1] == all[..i] + [w];
      i := i + 1;
    }
    assert all[..i] == all;
  }

  /**
   * The windows filer_close_recursive closes: path is first resolved, then
   * the test is that of WindowsToUpdate, except that "/" closes all.
   */
  method WindowsToClose(all: seq<FilerWindow>, path: string, cache: DirCache) returns (r: seq<FilerWindow>)
    ensures forall w :: w in r <==> w in all && CloseCovers(cache.pathdup(path), w.realPath)
    ensures |r| <= |all|
  {
    var resolved := cache.pathdup(path);
    r := [];
    var i := 0;
    while i < |all|
      invariant 0 <= i <= |all| && |r| <= i
      invariant forall w :: w in r <==> w in all[..i] && CloseCovers(resolved, w.realPath)
    {
      var w := all[i];
      if CloseCovers(resolved, w.realPath) {
        r := r + [w];
      }
      assert all[..i + 1] == all[..i] + [w];
      i := i + 1;
    }
    assert all[..i] == all;
  }

  // ---------------------------------------------------------------------
  // The duplicate-window search of filer_change_to
  // ---------------------------------------------------------------------

  /**
   * The window filer_change_to closes in unique-window mode, as written:
   * it searches with the path as given, before its trailing '/'s are
   * removed, while every window's sym_path is stored tidied.
   */
  function DuplicateAsWritten(all: seq<FilerWindow>, path: string, self: FilerWindow): (d: FilerWindow?)
    reads all`symPath
    ensures d != null ==> d in all && d != self && d.symPath == path
  {
    FirstMatch(all, path, self)
  }

  /** The search with the tidied path, the sym_path the window is about to show. */
  function DuplicateToClose(all: seq<FilerWindow>, path: string, self: FilerWindow): (d: FilerWindow?)
    reads all`symPath
    ensures d != null ==> d in all && d != self && d.symPath == Tidied(path)
  {
    FirstMatch(all, Tidied(path), self)
  }

  /**
   * A window showing "/tmp" is missed by the search as written when another
   * window changes to "/tmp/", although both then show "/tmp".
   */
  lemma DuplicateAsWrittenMissesTrailingSlash(all: seq<FilerWindow>, self: FilerWindow, other: FilerWindow)
    requires all == [self, other] && other != self && other.symPath == "/tmp"
    ensures DuplicateAsWritten(all, "/tmp/", self) == null
    ensures Tidied("/tmp/") == other.symPath
    ensures DuplicateToClose(all, "/tmp/", self) == other
  {
    assert "/tmp/"[..4] == "/tmp";
    assert other.symPath != "/tmp/" by {
      assert |other.symPath| == 4;
    }
  }

  /**
   * More generally, the search as written never finds a window for a path
   * with trailing '/'s (other than "/" itself): no window's sym_path is
   * stored that way.
   */
  lemma {:induction false} DuplicateAsWrittenMissesTrailingSlashes(all: seq<FilerWindow>, path: string, self: FilerWindow)
    requires forall w | w in all :: w.Valid()
    requires |path| > 1 && path[|path| - 1] == '/'
    ensures DuplicateAsWritten(all, path, self) == null
    ensures DuplicateToClose(all, path, self) == null <==>
              forall w | w in all && w != self :: w.symPath != Tidied(path)
  {
    forall w | w in all
      ensures w.symPath != path
    {
      assert Tidied(w.symPath) == w.symPath;
    }
  }

  /**
   * The corrected search finds another window exactly when one already
   * shows the directory this window is about to show.
   */
  lemma DuplicateToCloseFindsSameSymPath(all: seq<FilerWindow>, path: string, self: FilerWindow)
    ensures var d := DuplicateToClose(all, path, self);
              (d != null ==> d in all && d != self && d.symPath == Tidied(path)) &&
              (d == null <==> forall w | w in all && w != self :: w.symPath != Tidied(path))
  {
  }
}
