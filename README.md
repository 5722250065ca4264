# ROX-Filer directory items, button bindings and filer-window bookkeeping in Dafny

This project models three sequential cores of the ROX-Filer file manager and proves properties about them.

- **Directory items** (`diritem.c`), in `diritem.dfy`, module `DirItems`.
  - A `DirItem` is a class whose fields are updated in place.
  - `Restat` classifies an entry from its `lstat`/`stat` results: base type, the RECENT, HAS_XATTR, SYMLINK, MOUNT_POINT, MOUNTED, EXEC_FILE and DIR_NEED_EXAMINE flags, MIME type and icon.
  - `ExamineDir` counts a directory's children and looks for an application directory. It probes `.DirIcon`, `AppRun` and `AppIcon.xpm`, applying the owner rule and the 400 KiB icon limit.
  - The constructor makes a fresh record, and `GetImage` fills the icon cache lazily.
  - Each method is proved equal to a specification function on the `ItemState` value: `Restated`, `Examined`, `NewItemState` or `DisplayImage`. The properties are proved about those functions.
  - The filesystem (`FileSystem`) and the MIME, mount, xattr, label and icon registries (`Registry`) are inputs given as functions.
- **Button bindings** (`bind.c`), in `bind.dfy`, module `Bind`.
  - `LookupBev` is the decision table of `bind_lookup_bev`, with the three binding options as a parameter.
  - Its contract states, for every action, exactly the events that produce it.
- **Filer windows** (`filer.c`), in two files.
  - `filer_paths.dfy`, module `FilerPaths`, holds the string logic:
    - C strings and `strncmp`;
    - in-place trailing-slash tidying of a `char` array;
    - the prefix tests of `filer_check_mounted` and `filer_close_recursive`;
    - the parent-directory guard with `g_dirname`/`g_basename`;
    - the window title with `~` for the home directory;
    - the large/small icon threshold.
  - `filer.dfy`, module `Filer`, holds the state:
    - the class `FilerWindow`;
    - its attachment to a directory (`Attach`, `Detach`, `MayRescan`, `ChangeTo`);
    - the thumbnail queue and its `max_thumbs` counter;
    - the searches over the list of open windows.
  - `FilerWindow.Valid()` states the invariant that every operation keeps:
    - a window is on the user list of exactly the directory it shows, so it is never attached twice;
    - the queue never holds more entries than `max_thumbs`;
    - `sym_path` is stored tidied (set only through `tidy_sympath`).

`wrappers.dfy` holds the `Option` type that stands for a C pointer that may be NULL.

## Model

| member | source | states |
|---|---|---|
| DirItems.RestatBaseType | ROX-Filer/src/diritem.c:95-141 | A failed lstat gives TYPE_ERROR. A symlink takes its target's type, or TYPE_ERROR when the target cannot be stat'ed. Anything else takes the type of its own mode. |
| DirItems.FileMime | ROX-Filer/src/diritem.c:186-220 | For a regular file, an execute bit turns a missing or octet-stream type into application/x-executable. It turns text/plain into a shell script when the leafname has no '.'. A missing type defaults to text/plain. Every other type is kept. |
| DirItems.RestatFlags | ROX-Filer/src/diritem.c:92-177 | A failed lstat gives no flags. Each flag is stated as an if-and-only-if: RECENT means mtime or ctime within 300 s. HAS_XATTR comes from xattr_have. SYMLINK means the entry is a link. MOUNTED means MOUNT_POINT as well. fstab alone gives MOUNT_POINT only. DIR_NEED_EXAMINE means a directory that is not a mount point and not world-writable. EXEC_FILE means any execute bit on the target, or a desktop file. |
| DirItems.Restated | ROX-Filer/src/diritem.c:68-245 | The published record keeps only the leafname, plus the label when lstat fails. A failed lstat gives TYPE_ERROR, size, mode and times 0, uid and gid equal to (uid_t)-1, the errno, and no flags. A successful lstat gives the entry's own stat fields, and size 0 for a directory. The MIME type is never null. A mount point gets inode/mount-point. The base type is never TYPE_UNKNOWN. |
| DirItems.ProbeAppDir | ROX-Filer/src/diritem.c:326-390 | AppDir holds iff AppRun has the directory's owner and an execute bit. A trusted, small, regular .DirIcon that loads always gives the icon. Otherwise AppIcon.xpm is used only under a valid AppRun. A directory that cannot be lstat'ed finds nothing. |
| DirItems.Examined | ROX-Filer/src/diritem.c:302-418 | Only size, flags and image change. Size becomes the entry count minus 2. DIR_NEED_EXAMINE is cleared, and APPDIR is the only flag that can be added. An AppDir always ends with an icon, falling back to im_appdir. The result is true when an image was set, and otherwise exactly when the size changed. |
| DirItems.DisplayImage | ROX-Filer/src/diritem.c:276-296 | A cached image is kept. An unscanned item gets none. An unreadable item gets im_error. Any other item gets the icon of its MIME type. |
| DirItems.RestatDependsOnlyOnLeafname | ROX-Filer/src/diritem.c:77-237 | Two records with the same leafname restat to the same record. When lstat fails, they must also share a label. |
| DirItems.RestatIdempotent | ROX-Filer/src/diritem.c:68-245 | Restating twice against an unchanged filesystem gives the same record as restating once. |
| DirItems.NewItemRestated | ROX-Filer/src/diritem.c:247-258 | diritem_new gives TYPE_UNKNOWN with exactly NEED_RESCAN_QUEUE and NOT_DELETE. After restat, NEED_RESCAN_QUEUE is clear, the MIME type is set and the type is no longer unknown. |
| DirItems.ExamineIdempotent | ROX-Filer/src/diritem.c:302-418 | Examining an unchanged directory again leaves the record as it is. |
| DirItems.AppRunAloneGivesAppDirIcon | ROX-Filer/src/diritem.c:357-404 | A trusted AppRun with no .DirIcon and no AppIcon.xpm gives an AppDir with the generic application icon, and reports a change. |
| DirItems.ForeignDirIconIgnored | ROX-Filer/src/diritem.c:343-346 | A .DirIcon owned by someone other than the directory's owner is never loaded. Without a valid AppRun, such a directory yields nothing. |
| DirItems.DisplayImageCached | ROX-Filer/src/diritem.c:276-296 | Asking for the image a second time gives the image the first call cached. |
| DirItems.StatStep | ROX-Filer/src/diritem.c:92-157 | The first half of restat computes exactly the stat fields and the lstat-decided flags of the specification. |
| DirItems.LstatFound | ROX-Filer/src/diritem.c:105-157 | Once lstat has succeeded: the recent, xattr, symlink and mount flags and the followed stat fields are those of the specification. |
| DirItems.ClassifyStep | ROX-Filer/src/diritem.c:159-237 | The second half of restat computes exactly the remaining flags, the MIME type and the icon of the specification. |
| DirItems.ProbeStep | ROX-Filer/src/diritem.c:316-390 | The goto chain of probes computes exactly ProbeAppDir. |
| DirItems.DirItem.constructor | ROX-Filer/src/diritem.c:247-258 | A new item is the zero-filled TYPE_UNKNOWN record flagged NEED_RESCAN_QUEUE and NOT_DELETE. |
| DirItems.DirItem.Publish | ROX-Filer/src/diritem.c:239-241 | The local copy is written back to the item wholesale. |
| DirItems.DirItem.Restat | ROX-Filer/src/diritem.c:68-245 | The item becomes Restated of its old state. When examine_now is set and the result needs examining, it then becomes Examined of that. |
| DirItems.DirItem.ExamineDir | ROX-Filer/src/diritem.c:302-418 | The item and the returned answer are Examined of the old state. |
| DirItems.DirItem.GetImage | ROX-Filer/src/diritem.c:276-296 | Only the image field changes. It becomes DisplayImage of the old state and is returned. |
| Bind.LookupBev | ROX-Filer/src/bind.c:52-114 | Each action is characterised as an if-and-only-if over context, button, event type, modifiers and options. Buttons above 3 are ignored. The menu button gives the popup menu on press and is ignored otherwise. Double-click opens or edits in double-click mode, and resizes a directory view. A release opens or edits only for the stated items. The background press gives lasso, slide or clear-selection. The item press gives toggle, move, select or drag. |
| Bind.DefaultsAreSingleClick | ROX-Filer/src/bind.c:41-47 | With the default options, no context is in double-click mode. |
| Bind.SelectIndependentOfMenuButton | ROX-Filer/src/bind.c:54-78 | Button 1 behaves the same whichever button is the menu button. |
| FilerPaths.StrNEqIsPrefix | ROX-Filer/src/filer.c:1374 | For C strings, strncmp(a, b, strlen(a)) == 0 holds iff a is a prefix of b. |
| FilerPaths.Tidied | ROX-Filer/src/filer.c:902-914 | The tidied path is a prefix of the path. Every removed character is '/'. A non-empty path stays non-empty. No '/' is left at the end unless the length is 1. |
| FilerPaths.TidiedIdempotent | ROX-Filer/src/filer.c:902-914 | Tidying twice is tidying once. |
| FilerPaths.TidiedRoot | ROX-Filer/src/filer.c:910 | "/" stays "/". |
| FilerPaths.TidiedUnique | ROX-Filer/src/filer.c:902-914 | The tidied path is the only prefix that leaves just '/'s behind, is non-empty, and has no trailing '/' beyond its first character. |
| FilerPaths.TidySymPath | ROX-Filer/src/filer.c:902-914 | Working in place on the char buffer, the new C string is the tidied old one. The only characters written are NULs over '/'s. |
| FilerPaths.TidyCopy | ROX-Filer/src/filer.c:935-975 | g_strdup followed by tidy_sympath gives the tidied path. |
| FilerPaths.MountCoversMeans | ROX-Filer/src/filer.c:1374-1379 | filer_check_mounted updates a window iff the window's real path is the path itself or lies below path + "/". |
| FilerPaths.CloseCoversMeans | ROX-Filer/src/filer.c:1406-1411 | filer_close_recursive closes what filer_check_mounted would update, and also every path under a one-character path such as "/". |
| FilerPaths.RootCovers | ROX-Filer/src/filer.c:1374-1411 | Closing "/" reaches every absolute path, while a mount on "/" reaches no path below it. |
| FilerPaths.ParentOf | ROX-Filer/src/filer.c:875-899 | Going up is refused exactly when sym_path is "/". |
| FilerPaths.ParentOfTidiedPath | ROX-Filer/src/filer.c:875-899 | For a tidied absolute path other than "/", the parent is a strictly shorter, tidied, absolute prefix. The leaf is non-empty and has no '/'. The path is parent, separators and leaf. |
| FilerPaths.TitleFlags | ROX-Filer/src/filer.c:1448-1475 | The flags part is empty iff the window is not scanning and shows neither hidden files nor thumbnails. |
| FilerPaths.ShortFlagsLetters | ROX-Filer/src/filer.c:1453-1460 | The short form is " +" followed by S, A and T, each present iff its flag is on. |
| FilerPaths.LongFlagsAreJoinedWords | ROX-Filer/src/filer.c:1461-1469 | Writing ')' over the last ',' gives " (" + the words joined by ", " + ") ". |
| FilerPaths.TitleNamesPath | ROX-Filer/src/filer.c:1477-1494 | On a local display the title is a shown path followed by the flags. Expanding a leading '~' to the home directory gives back sym_path. |
| FilerPaths.HomeTitles | ROX-Filer/src/filer.c:1481-1489 | The home directory is titled "~". A sibling that merely extends the home's name is not abbreviated. |
| FilerPaths.StyleFor | ROX-Filer/src/filer.c:1713-1734 | The style changes only when auto-sizing is on and the style is large or small icons. Then the result is small icons iff the count reaches the threshold, and large icons otherwise. |
| FilerPaths.StyleMonotone | ROX-Filer/src/filer.c:1728-1733 | More items never give larger icons. |
| FilerPaths.StyleStable | ROX-Filer/src/filer.c:1713-1734 | Applying the rule again for the same count changes nothing. |
| Filer.FilerWindow.constructor | ROX-Filer/src/filer.c:1059-1150 | A new window holds the tidied path and its directory, is attached to it and scanning, and has an empty thumbnail batch. |
| Filer.FilerWindow.Attach | ROX-Filer/src/filer.c:318-326 | It requires an unattached window with a directory. The window joins that directory's users, starts scanning and gets the current title. Nothing else changes. |
| Filer.FilerWindow.Detach | ROX-Filer/src/filer.c:328-336 | Without a directory nothing happens. Otherwise the window leaves the user list and its directory becomes NULL. Nothing else changes. |
| Filer.FilerWindow.Destroy | ROX-Filer/src/filer.c:338-377 | The window is marked destroyed and detached, and its thumbnail queue is freed. |
| Filer.FilerWindow.SetStyleByNumberOfItems | ROX-Filer/src/filer.c:1713-1734 | The display style becomes StyleFor of the old style and the item count. |
| Filer.FilerWindow.MayRescan | ROX-Filer/src/filer.c:380-407 | The result is true iff the real path still looks up. If it does not, the window is destroyed. If it gives the same directory, nothing changes. If it gives another directory, the window is detached, then attached to the new one; only the directory, the scan flag and the title change, and the selection, style, thumbnail batch and destroyed flag stay. The invariant is kept. |
| Filer.FilerWindow.CancelThumbnails | ROX-Filer/src/filer.c:1560-1568 | The queue is empty, max_thumbs is 0 and the bar is hidden. |
| Filer.FilerWindow.CreateThumb | ROX-Filer/src/filer.c:1636-1647 | The path is appended at the end of the queue and max_thumbs grows by 1. Scanning starts iff no directory scan is running and the bar was hidden. |
| Filer.FilerWindow.StartThumbScanning | ROX-Filer/src/filer.c:1624-1633 | Thumbnailing starts iff the bar was hidden, and the bar is then shown. |
| Filer.FilerWindow.NextThumbReal | ROX-Filer/src/filer.c:1574-1611 | A destroyed window is left alone. An empty queue cancels the batch. Otherwise exactly the head is removed and returned, with total = max_thumbs and done = total - old queue length, so 0 <= done < total. |
| Filer.FilerWindow.ChangeTo | ROX-Filer/src/filer.c:921-989 | Thumbnails are always cancelled. A failed lookup leaves sym_path, real_path, directory, scanning, the title and the style unchanged. On success, the new sym_path is the tidied path. The window is detached before the new directory is attached, so the invariant holds and it is never attached twice. auto_select is the non-empty leaf. The title and style follow. In unique mode the first other window showing the tidied path is destroyed. No other window in the list changes. |
| Filer.FilerWindow.CloseDuplicate | ROX-Filer/src/filer.c:944-951 | The window destroyed is the first other window showing the path. The window changing directory and every other window are untouched. |
| Filer.FilerWindow.ShowDirectory | ROX-Filer/src/filer.c:955-983 | The window takes the new paths, directory and leaf to select, goes through detach then attach, and restyles. |
| Filer.FilerWindow.ChangeToParent | ROX-Filer/src/filer.c:888-899 | At "/" nothing changes, in this window or any other. Otherwise the window moves to the tidied dirname, selecting the leaf it came from. |
| Filer.FirstMatch | ROX-Filer/src/filer.c:1343-1357 | The result is a listed window other than diff whose sym_path is the argument. It is NULL iff no such window exists. |
| Filer.FindFilerWindow | ROX-Filer/src/filer.c:1343-1357 | The loop returns the first matching window, or NULL iff there is none. |
| Filer.FilerExists | ROX-Filer/src/filer.c:1430-1443 | The result is true iff the window is in the list. |
| Filer.IfDeleted | ROX-Filer/src/filer.c:157-170 | The result is true iff some removed item has the same leafname. |
| Filer.WindowsToUpdate | ROX-Filer/src/filer.c:1360-1388 | The selection is exactly the listed windows that pass the filer_check_mounted test. |
| Filer.WindowsToClose | ROX-Filer/src/filer.c:1391-1414 | The path is resolved with pathdup first; the selection is exactly the listed windows whose real_path passes the filer_close_recursive test against the resolved path. |
| Filer.DuplicateAsWritten | ROX-Filer/src/filer.c:944-951 | The search as written finds only a window whose sym_path equals the untidied path. |
| Filer.DuplicateAsWrittenMissesTrailingSlash | ROX-Filer/src/filer.c:944-971 | Changing to "/tmp/" misses another window showing "/tmp", although this window is about to show "/tmp" too. |
| Filer.DuplicateToClose | ROX-Filer/src/filer.c:944-951 | The corrected search finds a window whose sym_path is the tidied path. |
| Filer.DuplicateAsWrittenMissesTrailingSlashes | ROX-Filer/src/filer.c:944-971 | Among valid windows, whose sym_path is stored tidied, the search as written never finds anything for a path longer than "/" ending in '/'. |
| Filer.DuplicateToCloseFindsSameSymPath | ROX-Filer/src/filer.c:944-975 | The corrected search returns NULL iff no other window shows the path this window is about to show. |

## Left out

- Locking: the `GMutex` locking in `diritem.c` is not modelled.
  - The model is sequential.
  - The copy-modify-publish of `diritem_restat` is modelled as one wholesale write (`Publish`).
- Syscalls: `mc_lstat`, `mc_stat`, `mc_opendir`/`mc_readdir` and `pathdup` are the fields of `FileSystem`.
  - The directory cache (`g_fscache_lookup`) and `pathdup` of `filer.c` are the fields of `DirCache`.
- Registries: `type_from_path`, `mime_type_from_base_type`, `mount_is_mounted`, `fstab_mounts`, `xattr_have`, `xlabel_get`, `check_globicon`, the desktop-icon and pixmap caches and `type_to_icon` are the fields of `Registry`.
  - An icon lookup that fails to load is a `None` result.
- `support.c`, `type.c`, `usericons.c`, `mount.c` and glib are not part of this model.
  - `mode_to_base_type` uses the POSIX file-type mapping; any other type gives TYPE_ERROR.
  - `g_dirname` follows glib's documented behaviour.
- `mount_is_mounted`'s hint: the parent `stat` hint at diritem.c:146-147 only speeds up the lookup, so the model's answer depends on the path alone.
- Reference counting: `g_object_ref`/`unref` and the freeing of strings are memory management, with no observable effect in the model.
- Widgets: cursors, `view_clear`, window roles, tooltips, `had_cursor`, the minibuffer, auto-resize, `gtk_window_set_title`, GTK signals and the progress bar are widget plumbing.
  - The title is kept as a string field.
  - Only the integer `done` and `total` of `filer_next_thumb_real` are kept, not the float fraction.
- Warnings: the warning dialogs of `may_rescan` and `filer_change_to` (`info_message`, `delayed_error`) are I/O, so the `warning` argument is dropped.
- Scheduling: `pixmap_background_thumb` and the idle callbacks that drive `filer_next_thumb_real` are asynchronous scheduling. One call of `NextThumbReal` is one step.
- `Filer.FilerWindow.Destroy` models only the window's own state in `filer_window_destroyed`.
  - Its removal from `all_filer_windows` is left to the caller: window lists are passed as sequences.
  - The primary-selection and focus globals are not modelled.
- `Filer.WindowsToUpdate`, `Filer.WindowsToClose`: these return the windows the loops of `filer_check_mounted` and `filer_close_recursive` select.
  - The rescans they trigger (`filer_update_dir`, `refresh_dirs`, `icons_may_update`) are not part of this model.
  - Neither is the destruction of each selected window.
- `filer_opendir` is not modelled as a whole.
  - The `FilerWindow` constructor models its set-up after a successful lookup: tidied path, directory, no scan, empty thumbnail batch, then attach.
  - Its own duplicate-window search, display inheritance, widget construction and the open timeout are not modelled.
  - `filer_open_parent` is modelled only by its root guard and target (`FilerPaths.ParentOf`).
- `Filer.FilerWindow.ChangeTo` uses the corrected duplicate search (see Findings); the search as written is `Filer.DuplicateAsWritten`.
- The window list and string inputs are assumed well formed.
  - Paths are C strings without NUL, which is what `IsCString` requires.
  - gettext `_()` is taken to be the identity, so the flag words are the English ones.
- Out of scope: GTK widget construction and signals, X selection handling, group persistence, the host check of `filer_init`, key dispatch, menus and tooltips. `panel.h` holds declarations only.

## Findings

| source | as written | input that shows it | evidently intended | confidence | as-written member | corrected member |
|---|---|---|---|---|---|---|
| ROX-Filer/src/filer.c:944-971 | With unique windows on, `filer_change_to` looks for another window showing `sym_path` before `tidy_sympath` has removed its trailing '/'s. Every window's `sym_path` is stored tidied. | One window shows "/tmp"; another changes to "/tmp/". The search for "/tmp/" finds nothing, and both windows end up showing "/tmp". `filer_opendir` at filer.c:1045 searches with the untidied path in the same way. | Search with the tidied path, the one the window is about to show, so that no two windows show the same directory. | medium; not executed | Filer.DuplicateAsWrittenMissesTrailingSlash | Filer.DuplicateToCloseFindsSameSymPath |
