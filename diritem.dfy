/**
 * Directory-entry metadata of ROX-Filer (diritem.c): how one entry of a
 * listing is stat'ed and classified (restat), how a directory is examined
 * for the AppDir convention (examine), how an entry is created and how its
 * icon is resolved lazily.
 *
 * The filesystem and the registries the C code calls (MIME guessing, the
 * mount tables, extended attributes, labels, the icon caches) are inputs:
 * values of the datatypes FileSystem and Registry below.
 */
module DirItems {
  import opened Wrappers

  type Path = string

  // ---------------------------------------------------------------------
  // st_mode bits (POSIX; the values are Linux's, written in hex)
  // ---------------------------------------------------------------------

  const FileTypeMask: bv32 := 0xF000   // S_IFMT
  const TypeSocket: bv32 := 0xC000     // S_IFSOCK
  const TypeLink: bv32 := 0xA000       // S_IFLNK
  const TypeRegular: bv32 := 0x8000    // S_IFREG
  const TypeBlock: bv32 := 0x6000      // S_IFBLK
  const TypeDirectory: bv32 := 0x4000  // S_IFDIR
  const TypeChar: bv32 := 0x2000       // S_IFCHR
  const TypeFifo: bv32 := 0x1000       // S_IFIFO
  const ExecBits: bv32 := 0x49         // S_IXUSR | S_IXGRP | S_IXOTH
  const OtherWrite: bv32 := 0x2        // S_IWOTH

  predicate IsLink(mode: bv32) { mode & FileTypeMask == TypeLink }
  predicate IsRegular(mode: bv32) { mode & FileTypeMask == TypeRegular }
  predicate AnyExec(mode: bv32) { mode & ExecBits != 0 }
  predicate WorldWritable(mode: bv32) { mode & OtherWrite != 0 }

  /** Seconds during which a changed file counts as recent (RECENT_DELAY). */
  const RecentDelay: int := 5 * 60
  /** Icons larger than this many bytes are never loaded (MAX_ICON_SIZE). */
  const MaxIconSize: int := 400 * 1024
  /** (uid_t) -1 and (gid_t) -1: uid_t and gid_t are unsigned 32-bit. */
  const NoId: int := 0xFFFF_FFFF

  /** ABOUT_NOW: the time lies less than RecentDelay seconds before recentTime. */
  predicate AboutNow(recentTime: int, time: int) { recentTime - time < RecentDelay }

  // ---------------------------------------------------------------------
  // The entry record
  // ---------------------------------------------------------------------

  datatype BaseType = Unknown | File | Directory | Pipe | Socket | CharDevice | BlockDevice | Error

  datatype ItemFlag =
    | Recent | HasXattr | Symlink | MountPoint | Mounted | ExecFile
    | AppDir | DirNeedExamine | NeedRescanQueue | NotDelete

  /** MIME types are interned in the C code, so comparing pointers is comparing names. */
  datatype MimeType = MimeType(media: string, subtype: string)

  const TextPlain := MimeType("text", "plain")
  const OctetStream := MimeType("application", "octet-stream")
  const ApplicationExecutable := MimeType("application", "x-executable")
  const ShellScript := MimeType("application", "x-shellscript")
  const DesktopEntry := MimeType("application", "x-desktop")
  const InodeMountPoint := MimeType("inode", "mount-point")

  /** A handle on a decoded icon, shared with the icon caches. */
  datatype Icon = Icon(name: string)

  const ImError := Icon("error")
  const ImAppDir := Icon("application")

  /** The fields of a DirItem, as the value that restat copies, edits and publishes wholesale. */
  datatype ItemState = ItemState(
    leafname: string,
    baseType: BaseType,
    flags: set<ItemFlag>,
    mimeType: Option<MimeType>,
    size: int,
    mode: bv32,
    uid: int,
    gid: int,
    atime: int,
    ctime: int,
    mtime: int,
    lstatErrno: int,
    image: Option<Icon>,
    itemLabel: Option<string>)

  // ---------------------------------------------------------------------
  // The environment
  // ---------------------------------------------------------------------

  datatype StatInfo = StatInfo(mode: bv32, uid: int, gid: int, size: int, atime: int, ctime: int, mtime: int)

  /** The outcome of a stat call: the record, or the errno of the failure. */
  datatype StatResult = Found(info: StatInfo) | Failed(errno: int)

  /** The filesystem as seen through the calls diritem.c makes. */
  datatype FileSystem = FileSystem(
    lstat: Path -> StatResult,                 // mc_lstat
    stat: Path -> StatResult,                  // mc_stat, following symlinks
    realPath: Path -> Path,                    // pathdup
    listing: Path -> Option<seq<string>>)      // mc_opendir + mc_readdir ("." and ".." included); None if opendir fails

  /** The process-wide registries diritem.c consults. */
  datatype Registry = Registry(
    typeFromPath: Path -> Option<MimeType>,       // type_from_path (None: no guess)
    mimeForBaseType: BaseType -> MimeType,        // mime_type_from_base_type
    isMounted: Path -> bool,                      // mount_is_mounted
    fstabMounts: set<Path>,                       // fstab_mounts
    hasXattr: Path -> bool,                       // xattr_have
    xlabel: Path -> Option<string>,               // xlabel_get
    globIcon: Path -> Option<Icon>,               // check_globicon: a user-assigned icon, if any
    desktopIcon: Path -> Option<Icon>,            // lookup in desktop_icon_cache
    pixmap: Path -> Option<Icon>,                 // lookup in pixmap_cache (may fail to load)
    typeToIcon: Option<MimeType> -> Option<Icon>) // type_to_icon

  /** mode_to_base_type: the coarse type of a file-type field. */
  function ModeToBaseType(mode: bv32): (t: BaseType)
    ensures t == File <==> IsRegular(mode)
    ensures t == Directory <==> mode & FileTypeMask == TypeDirectory
    ensures IsLink(mode) ==> t == Error
    ensures t != Unknown
  {
    var kind := mode & FileTypeMask;
    if kind == TypeRegular then File
    else if kind == TypeDirectory then Directory
    else if kind == TypeBlock then BlockDevice
    else if kind == TypeChar then CharDevice
    else if kind == TypeFifo then Pipe
    else if kind == TypeSocket then Socket
    else Error
  }

  // ---------------------------------------------------------------------
  // restat, as a specification
  // ---------------------------------------------------------------------

  /** The stat record restat classifies by: a symlink's target, otherwise the entry's own lstat. */
  function Followed(fs: FileSystem, path: Path): StatResult
  {
    match fs.lstat(path)
    case Failed(e) => Failed(e)
    case Found(own) => if IsLink(own.mode) then fs.stat(path) else Found(own)
  }

  predicate IsSymlink(fs: FileSystem, path: Path)
  {
    fs.lstat(path).Found? && IsLink(fs.lstat(path).info.mode)
  }

  /** The path restat asks the mount tables and the MIME guesser about: resolved for a symlink. */
  function TargetPath(fs: FileSystem, path: Path): Path
  {
    if IsSymlink(fs, path) then fs.realPath(path) else path
  }

  predicate TargetExecutable(fs: FileSystem, path: Path)
  {
    Followed(fs, path).Found? && AnyExec(Followed(fs, path).info.mode)
  }

  predicate TargetWorldWritable(fs: FileSystem, path: Path)
  {
    Followed(fs, path).Found? && WorldWritable(Followed(fs, path).info.mode)
  }

  /** The base type restat assigns: Error when lstat or the symlink's stat fails. */
  function RestatBaseType(fs: FileSystem, path: Path): (t: BaseType)
    ensures Followed(fs, path).Failed? ==> t == Error
    ensures Followed(fs, path).Found? ==> t == ModeToBaseType(Followed(fs, path).info.mode)
    ensures t != Unknown
  {
    match Followed(fs, path)
    case Failed(_) => Error
    case Found(info) => ModeToBaseType(info.mode)
  }

  /** A directory is a mount point when it is mounted now or listed in fstab. */
  predicate IsMountPoint(reg: Registry, target: Path)
  {
    reg.isMounted(target) || target in reg.fstabMounts
  }

  /** The MIME type of a regular file, from the guess and the execute bits. */
  function FileMime(detected: Option<MimeType>, exec: bool, leafname: string): (m: MimeType)
    // a missing guess means plain text unless the file is executable
    ensures detected.None? ==> m == (if exec then ApplicationExecutable else TextPlain)
    ensures !exec && detected.Some? ==> m == detected.value
    // an executable guessed as octet-stream is an executable; as text without a '.' in its name, a script
    ensures exec && detected == Some(OctetStream) ==> m == ApplicationExecutable
    ensures exec && detected == Some(TextPlain) ==> m == (if '.' in leafname then TextPlain else ShellScript)
    ensures detected.Some? && detected.value !in {OctetStream, TextPlain} ==> m == detected.value
  {
    if exec && (detected.None? || detected == Some(OctetStream)) then ApplicationExecutable
    else if exec && detected == Some(TextPlain) && '.' !in leafname then ShellScript
    else if detected.None? then TextPlain
    else detected.value
  }

  /** The flags diritem_restat sets; every flag it does not set is cleared. */
  function RestatFlags(fs: FileSystem, reg: Registry, path: Path, recentTime: int): (f: set<ItemFlag>)
    // never NeedRescanQueue, NotDelete or AppDir
    ensures f <= {Recent, HasXattr, Symlink, MountPoint, Mounted, ExecFile, DirNeedExamine}
    // a failed lstat leaves no flag at all
    ensures fs.lstat(path).Failed? ==> f == {}
    ensures Recent in f <==>
              fs.lstat(path).Found? &&
              (AboutNow(recentTime, fs.lstat(path).info.mtime) || AboutNow(recentTime, fs.lstat(path).info.ctime))
    ensures HasXattr in f <==> fs.lstat(path).Found? && reg.hasXattr(path)
    ensures Symlink in f <==> IsSymlink(fs, path)
    // directories: mounted means both mount flags, fstab alone only MountPoint
    ensures Mounted in f <==> RestatBaseType(fs, path) == Directory && reg.isMounted(TargetPath(fs, path))
    ensures MountPoint in f <==> RestatBaseType(fs, path) == Directory && IsMountPoint(reg, TargetPath(fs, path))
    // directories are examined unless they are mount points or world-writable
    ensures DirNeedExamine in f <==>
              RestatBaseType(fs, path) == Directory && MountPoint !in f && !TargetWorldWritable(fs, path)
    // regular files: any execute bit of the target, or a desktop entry
    ensures ExecFile in f <==>
              RestatBaseType(fs, path) == File &&
              (TargetExecutable(fs, path) || reg.typeFromPath(TargetPath(fs, path)) == Some(DesktopEntry))
  {
    match fs.lstat(path)
    case Failed(_) => {}
    case Found(own) =>
      var base := RestatBaseType(fs, path);
      var target := TargetPath(fs, path);
      var common :=
        (if AboutNow(recentTime, own.mtime) || AboutNow(recentTime, own.ctime) then {Recent} else {}) +
        (if reg.hasXattr(path) then {HasXattr} else {}) +
        (if IsLink(own.mode) then {Symlink} else {});
      if base == Directory then
        if reg.isMounted(target) then common + {MountPoint, Mounted}
        else if target in reg.fstabMounts then common + {MountPoint}
        else if TargetWorldWritable(fs, path) then common
        else common + {DirNeedExamine}
      else if base == File && (TargetExecutable(fs, path) || reg.typeFromPath(target) == Some(DesktopEntry)) then
        common + {ExecFile}
      else common
  }

  /** The MIME type diritem_restat settles on. */
  function RestatMime(fs: FileSystem, reg: Registry, path: Path, leafname: string): MimeType
  {
    var base := RestatBaseType(fs, path);
    if base == Directory && IsMountPoint(reg, TargetPath(fs, path)) then InodeMountPoint
    else if base == File then FileMime(reg.typeFromPath(TargetPath(fs, path)), TargetExecutable(fs, path), leafname)
    else reg.mimeForBaseType(base)
  }

  /** The icon diritem_restat leaves: a user override, or for a desktop file without one its own icon. */
  function RestatImage(fs: FileSystem, reg: Registry, path: Path, leafname: string): Option<Icon>
  {
    if RestatMime(fs, reg, path, leafname) == DesktopEntry && RestatBaseType(fs, path) == File
       && reg.globIcon(path).None?
    then reg.desktopIcon(path)
    else reg.globIcon(path)
  }

  /**
   * The record as the stat half of diritem_restat leaves it: the stat
   * fields, the base type, and no flags, MIME type or icon yet.
   */
  function StatFields(item: ItemState, path: Path, fs: FileSystem, reg: Registry): ItemState
  {
    var base := RestatBaseType(fs, path);
    match fs.lstat(path)
    case Failed(errno) =>
      item.(baseType := base, flags := {}, mimeType := None, image := None,
            size := 0, mode := 0, uid := NoId, gid := NoId, atime := 0, ctime := 0, mtime := 0,
            lstatErrno := errno)
    case Found(own) =>
      item.(baseType := base, flags := {}, mimeType := None, image := None,
            size := if base == Directory then 0 else own.size, mode := own.mode,
            uid := own.uid, gid := own.gid, atime := own.atime, ctime := own.ctime, mtime := own.mtime,
            lstatErrno := 0, itemLabel := reg.xlabel(path))
  }

  /**
   * The record diritem_restat publishes for path, given the record it
   * started from. Only leafname (and, when lstat fails, label) survive
   * from the old record.
   */
  function Restated(item: ItemState, path: Path, fs: FileSystem, reg: Registry, recentTime: int): (r: ItemState)
    ensures r.leafname == item.leafname
    ensures r.flags == RestatFlags(fs, reg, path, recentTime)
    // the result always has a MIME type
    ensures r.mimeType == Some(RestatMime(fs, reg, path, item.leafname))
    ensures r.image == RestatImage(fs, reg, path, item.leafname)
    // a symlink is classified by its target (Error if the target cannot be stat'ed)
    ensures IsSymlink(fs, path) ==>
              r.baseType == (if fs.stat(path).Found? then ModeToBaseType(fs.stat(path).info.mode) else Error)
    ensures r.baseType == RestatBaseType(fs, path) && r.baseType != Unknown
    // lstat failure: an Error record with zeroed metrics and the errno kept
    ensures fs.lstat(path).Failed? ==>
              && r.baseType == Error && r.lstatErrno == fs.lstat(path).errno
              && r.size == 0 && r.mode == 0 && r.atime == 0 && r.ctime == 0 && r.mtime == 0
              && r.uid == NoId && r.gid == NoId && r.flags == {} && r.itemLabel == item.itemLabel
    // lstat success: the entry's own (not the target's) stat fields; directories get size 0
    ensures fs.lstat(path).Found? ==>
              var own := fs.lstat(path).info;
              && r.lstatErrno == 0 && r.mode == own.mode && r.uid == own.uid && r.gid == own.gid
              && r.atime == own.atime && r.ctime == own.ctime && r.mtime == own.mtime
              && r.itemLabel == reg.xlabel(path)
              && r.size == (if r.baseType == Directory then 0 else own.size)
    // a mount point is given the sentinel MIME type
    ensures MountPoint in r.flags ==> r.mimeType == Some(InodeMountPoint)
  {
    StatFields(item, path, fs, reg).(flags := RestatFlags(fs, reg, path, recentTime),
                                     mimeType := Some(RestatMime(fs, reg, path, item.leafname)),
                                     image := RestatImage(fs, reg, path, item.leafname))
  }

  // ---------------------------------------------------------------------
  // examine, as a specification
  // ---------------------------------------------------------------------

  /** .DirIcon is trusted when its owner is the directory's, it resolves, and it is a small regular file. */
  predicate DirIconUsable(fs: FileSystem, file: Path, uid: int)
  {
    match fs.lstat(file)
    case Failed(_) => false
    case Found(own) =>
      own.uid == uid &&
      var resolved := if IsLink(own.mode) then fs.stat(file) else Found(own);
      resolved.Found? && resolved.info.size <= MaxIconSize && IsRegular(resolved.info.mode)
  }

  /** AppRun makes an AppDir when its owner is the directory's and some execute bit is set. */
  predicate AppRunValid(fs: FileSystem, file: Path, uid: int)
  {
    fs.lstat(file).Found? && fs.lstat(file).info.uid == uid && AnyExec(fs.lstat(file).info.mode)
  }

  /** AppIcon.xpm, looked at only under a valid AppRun, needs no owner check. */
  predicate AppIconUsable(fs: FileSystem, file: Path)
  {
    fs.stat(file).Found? && fs.stat(file).info.size <= MaxIconSize && IsRegular(fs.stat(file).info.mode)
  }

  /** What the three probes of a directory find: whether it is an AppDir, and the icon loaded, if any. */
  datatype Probe = Probe(appDir: bool, icon: Option<Icon>)

  /** The image .DirIcon yields for the directory dir owned by uid, if it is trusted and loads. */
  function DirIconImage(fs: FileSystem, reg: Registry, dir: Path, uid: int): Option<Icon>
  {
    if DirIconUsable(fs, dir + "/.DirIcon", uid) then reg.pixmap(dir + "/.DirIcon") else None
  }

  /** The probe sequence .DirIcon, AppRun, AppIcon.xpm on the resolved directory dir. */
  function ProbeAppDir(fs: FileSystem, reg: Registry, dir: Path): (p: Probe)
    // the directory itself cannot be lstat'ed: nothing is found
    ensures fs.lstat(dir).Failed? ==> p == Probe(false, None)
    ensures fs.lstat(dir).Found? ==>
              var uid := fs.lstat(dir).info.uid;
              // only a trusted AppRun makes an AppDir, whatever the icons say
              && (p.appDir <==> AppRunValid(fs, dir + "/AppRun", uid))
              // a trusted .DirIcon that loads always wins
              && (DirIconImage(fs, reg, dir, uid).Some? ==> p.icon == DirIconImage(fs, reg, dir, uid))
              // otherwise only AppIcon.xpm under a valid AppRun can give an icon
              && (DirIconImage(fs, reg, dir, uid).None? ==>
                    p.icon == (if p.appDir && AppIconUsable(fs, dir + "/AppIcon.xpm")
                               then reg.pixmap(dir + "/AppIcon.xpm") else None))
  {
    match fs.lstat(dir)
    case Failed(_) => Probe(false, None)
    case Found(info) =>
      var fromDirIcon := DirIconImage(fs, reg, dir, info.uid);
      if !AppRunValid(fs, dir + "/AppRun", info.uid) then Probe(false, fromDirIcon)
      else if fromDirIcon.Some? then Probe(true, fromDirIcon)
      else if AppIconUsable(fs, dir + "/AppIcon.xpm") then Probe(true, reg.pixmap(dir + "/AppIcon.xpm"))
      else Probe(true, None)
  }

  /** The updated record and the "needs redrawing" answer of diritem_examine_dir. */
  datatype Examination = Examination(item: ItemState, changed: bool)

  /** diritem_examine_dir on the record item for path. */
  function Examined(item: ItemState, path: Path, fs: FileSystem, reg: Registry): (e: Examination)
    // only size, flags and image can change
    ensures e.item == item.(size := e.item.size, flags := e.item.flags, image := e.item.image)
    // size is the number of children, without "." and ".."
    ensures fs.listing(fs.realPath(path)).Some? ==> e.item.size == |fs.listing(fs.realPath(path)).value| - 2
    ensures fs.listing(fs.realPath(path)).None? ==> e.item.size == item.size
    // the examine request is consumed; AppDir is the only flag that can appear
    ensures e.item.flags - {AppDir} == item.flags - {AppDir, DirNeedExamine}
    ensures AppDir in e.item.flags <==> AppDir in item.flags || ProbeAppDir(fs, reg, fs.realPath(path)).appDir
    // an AppDir always ends up with an icon (the generic one if nothing loaded) and reports a change
    ensures AppDir in e.item.flags ==> e.item.image.Some? && e.changed
    ensures AppDir in e.item.flags && ProbeAppDir(fs, reg, fs.realPath(path)).icon.None? ==>
              e.item.image == Some(ImAppDir)
    // the image only ever comes from the probes or the AppDir fallback
    ensures e.item.image != item.image ==>
              e.item.image == ProbeAppDir(fs, reg, fs.realPath(path)).icon || e.item.image == Some(ImAppDir)
    // an unchanged answer means nothing but the examine request moved
    ensures !e.changed ==> e.item == item.(flags := item.flags - {DirNeedExamine})
    ensures e.item.size != item.size ==> e.changed
    // a found icon is installed; failing that an AppDir gets the generic one; otherwise the old image stays
    ensures var p := ProbeAppDir(fs, reg, fs.realPath(path));
            e.item.image == (if p.icon.Some? then p.icon else if AppDir in e.item.flags then Some(ImAppDir) else item.image)
    // the answer is TRUE when an image was set, otherwise whether the size changed
    ensures var p := ProbeAppDir(fs, reg, fs.realPath(path));
            e.changed <==> p.icon.Some? || AppDir in e.item.flags || e.item.size != item.size
  {
    var dir := fs.realPath(path);
    var size := match fs.listing(dir) case Some(names) => |names| - 2 case None => item.size;
    var probe := ProbeAppDir(fs, reg, dir);
    var flags := (if probe.appDir then item.flags + {AppDir} else item.flags) - {DirNeedExamine};
    var newImage := if AppDir in flags && probe.icon.None? then Some(ImAppDir) else probe.icon;
    Examination(item.(size := size, flags := flags, image := if newImage.Some? then newImage else item.image),
                newImage.Some? || size != item.size)
  }

  // ---------------------------------------------------------------------
  // creation and the lazy icon
  // ---------------------------------------------------------------------

  /** The record diritem_new makes: zero-filled, type Unknown, queued for a rescan and not deletable. */
  function NewItemState(leafname: string): ItemState
  {
    ItemState(leafname, Unknown, {NeedRescanQueue, NotDelete}, None, 0, 0, 0, 0, 0, 0, 0, 0, None, None)
  }

  /** The icon _diritem_get_image leaves in the record (and returns). */
  function DisplayImage(item: ItemState, reg: Registry): (img: Option<Icon>)
    // a cached icon is kept
    ensures item.image.Some? ==> img == item.image
    // an entry that was never stat'ed gets none yet
    ensures item.baseType == Unknown ==> img == item.image
    // an unreadable entry always gets the error icon
    ensures item.image.None? && item.baseType == Error ==> img == Some(ImError)
    ensures item.image.None? && item.baseType !in {Unknown, Error} ==> img == reg.typeToIcon(item.mimeType)
  {
    if item.image.None? && item.baseType != Unknown then
      if item.baseType == Error then Some(ImError) else reg.typeToIcon(item.mimeType)
    else item.image
  }

  // ---------------------------------------------------------------------
  // properties relating the operations
  // ---------------------------------------------------------------------

  /**
   * restat forgets the record it started from: only the leafname, and the
   * label when lstat fails, carry over. So restating again against the same
   * filesystem changes nothing.
   */
  lemma RestatDependsOnlyOnLeafname(a: ItemState, b: ItemState, path: Path, fs: FileSystem, reg: Registry, recentTime: int)
    requires a.leafname == b.leafname
    requires fs.lstat(path).Failed? ==> a.itemLabel == b.itemLabel
    ensures Restated(a, path, fs, reg, recentTime) == Restated(b, path, fs, reg, recentTime)
  {
  }

  lemma RestatIdempotent(item: ItemState, path: Path, fs: FileSystem, reg: Registry, recentTime: int)
    ensures var r := Restated(item, path, fs, reg, recentTime);
              Restated(r, path, fs, reg, recentTime) == r
  {
    RestatDependsOnlyOnLeafname(Restated(item, path, fs, reg, recentTime), item, path, fs, reg, recentTime);
  }

  /** A new record, once restated, has left the rescan queue, may be deleted, and has a MIME type. */
  lemma NewItemRestated(leafname: string, path: Path, fs: FileSystem, reg: Registry, recentTime: int)
    ensures var r := Restated(NewItemState(leafname), path, fs, reg, recentTime);
              NewItemState(leafname).flags == {NeedRescanQueue, NotDelete} &&
              NewItemState(leafname).baseType == Unknown &&
              NeedRescanQueue !in r.flags && NotDelete !in r.flags && r.mimeType.Some? && r.baseType != Unknown
  {
  }

  /** Examining a directory a second time, with nothing changed on disk, leaves the record as it is. */
  lemma ExamineIdempotent(item: ItemState, path: Path, fs: FileSystem, reg: Registry)
    ensures var e := Examined(item, path, fs, reg).item;
              Examined(e, path, fs, reg).item == e
  {
  }

  /** An AppRun owned by the directory's owner, with no .DirIcon and no AppIcon.xpm, gives an AppDir with the generic icon. */
  lemma AppRunAloneGivesAppDirIcon(item: ItemState, path: Path, fs: FileSystem, reg: Registry)
    requires var dir := fs.realPath(path);
             && fs.lstat(dir).Found?
             && fs.lstat(dir + "/.DirIcon").Failed?
             && AppRunValid(fs, dir + "/AppRun", fs.lstat(dir).info.uid)
             && fs.stat(dir + "/AppIcon.xpm").Failed?
    ensures var e := Examined(item, path, fs, reg);
              AppDir in e.item.flags && e.item.image == Some(ImAppDir) && e.changed
  {
  }

  /** A .DirIcon owned by someone other than the directory's owner is never loaded. */
  lemma ForeignDirIconIgnored(fs: FileSystem, reg: Registry, dir: Path)
    requires fs.lstat(dir).Found? && fs.lstat(dir + "/.DirIcon").Found?
    requires fs.lstat(dir + "/.DirIcon").info.uid != fs.lstat(dir).info.uid
    ensures DirIconImage(fs, reg, dir, fs.lstat(dir).info.uid).None?
    ensures !AppRunValid(fs, dir + "/AppRun", fs.lstat(dir).info.uid) ==> ProbeAppDir(fs, reg, dir) == Probe(false, None)
  {
  }

  /** _diritem_get_image caches: asking again gives the same icon. */
  lemma DisplayImageCached(item: ItemState, reg: Registry)
    ensures var img := DisplayImage(item, reg);
              DisplayImage(item.(image := img), reg) == img
  {
  }

  /**
   * The first half of diritem_restat (diritem.c:92-157) on the local copy of
   * the record: the stat fields, the flags lstat decides, the base type and
   * the mount flags. info is the stat record the second half classifies by.
   */
  method StatStep(item: ItemState, path: Path, fs: FileSystem, reg: Registry, recentTime: int)
    returns (stated: ItemState, info: StatInfo)
    ensures stated == StatFields(item, path, fs, reg).(flags := stated.flags)
    ensures stated.flags == RestatFlags(fs, reg, path, recentTime) * {Recent, HasXattr, Symlink, MountPoint, Mounted}
    ensures Followed(fs, path).Found? ==> info == Followed(fs, path).info
  {
    var lstatResult := fs.lstat(path);
    if lstatResult.Failed? {
      info := StatInfo(0, 0, 0, 0, 0, 0, 0);
      stated := item.(baseType := Error, flags := {}, mimeType := None, image := None,
                      size := 0, mode := 0, uid := NoId, gid := NoId, atime := 0, ctime := 0, mtime := 0,
                      lstatErrno := lstatResult.errno);
    } else {
      stated, info := LstatFound(item, path, lstatResult.info, fs, reg, recentTime);
    }
  }

  /** StatStep once lstat has succeeded with own (diritem.c:105-157). */
  method LstatFound(item: ItemState, path: Path, own: StatInfo, fs: FileSystem, reg: Registry, recentTime: int)
    returns (stated: ItemState, info: StatInfo)
    requires fs.lstat(path) == Found(own)
    ensures stated == StatFields(item, path, fs, reg).(flags := stated.flags)
    ensures stated.flags == RestatFlags(fs, reg, path, recentTime) * {Recent, HasXattr, Symlink, MountPoint, Mounted}
    ensures Followed(fs, path).Found? ==> info == Followed(fs, path).info
  {
    info := own;
    var newFlags: set<ItemFlag> := {};
    var newBase: BaseType;
    var newSize := own.size;
    if AboutNow(recentTime, own.mtime) || AboutNow(recentTime, own.ctime) {
      newFlags := newFlags + {Recent};
    }
    if reg.hasXattr(path) {
      newFlags := newFlags + {HasXattr};
    }
    var targetPath: Path;
    if IsLink(own.mode) {
      var targetResult := fs.stat(path);
      if targetResult.Failed? {
        newBase := Error;
      } else {
        info := targetResult.info;
        newBase := ModeToBaseType(info.mode);
      }
      newFlags := newFlags + {Symlink};
      targetPath := fs.realPath(path);
    } else {
      newBase := ModeToBaseType(own.mode);
      targetPath := path;
    }
    if newBase == Directory {
      newSize := 0;
      if reg.isMounted(targetPath) {
        newFlags := newFlags + {MountPoint, Mounted};
      } else if targetPath in reg.fstabMounts {
        newFlags := newFlags + {MountPoint};
      }
    }
    stated := item.(baseType := newBase, flags := newFlags, mimeType := None, image := None,
                    size := newSize, mode := own.mode, uid := own.uid, gid := own.gid,
                    atime := own.atime, ctime := own.ctime, mtime := own.mtime,
                    lstatErrno := 0, itemLabel := reg.xlabel(path));
    ghost var expected := RestatFlags(fs, reg, path, recentTime);
    assert Recent in newFlags <==> Recent in expected;
    assert Mounted in newFlags <==> Mounted in expected;
    assert MountPoint in newFlags <==> MountPoint in expected;
  }

  /**
   * The second half of diritem_restat (diritem.c:159-237): the examine flag
   * of a directory, the execute flag and MIME type of a regular file, the
   * icon override, and the MIME fallback.
   */
  method ClassifyStep(stated: ItemState, info: StatInfo, path: Path, fs: FileSystem, reg: Registry, recentTime: int)
    returns (r: ItemState)
    requires stated.baseType == RestatBaseType(fs, path)
    requires stated.flags == RestatFlags(fs, reg, path, recentTime) * {Recent, HasXattr, Symlink, MountPoint, Mounted}
    requires stated.mimeType.None? && stated.image.None?
    requires Followed(fs, path).Found? ==> info == Followed(fs, path).info
    ensures r == stated.(flags := RestatFlags(fs, reg, path, recentTime),
                         mimeType := Some(RestatMime(fs, reg, path, stated.leafname)),
                         image := RestatImage(fs, reg, path, stated.leafname))
  {
    var newFlags, newMime, newImage := stated.flags, stated.mimeType, stated.image;
    if stated.baseType == Directory {
      newImage := reg.globIcon(path);
      if MountPoint in newFlags {
        newMime := Some(InodeMountPoint);
      } else if WorldWritable(info.mode) {
        // world-writable directories are not trusted
      } else {
        newFlags := newFlags + {DirNeedExamine};
      }
    } else if stated.baseType == File {
      if Symlink in newFlags {
        newMime := reg.typeFromPath(fs.realPath(path));
      } else {
        newMime := reg.typeFromPath(path);
      }
      // for a symlink, info holds the target's mode
      if AnyExec(info.mode) {
        newFlags := newFlags + {ExecFile};
        if newMime.None? || newMime == Some(OctetStream) {
          newMime := Some(ApplicationExecutable);
        } else if newMime == Some(TextPlain) && '.' !in stated.leafname {
          newMime := Some(ShellScript);
        }
      } else if newMime == Some(DesktopEntry) {
        newFlags := newFlags + {ExecFile};
      }
      if newMime.None? {
        newMime := Some(TextPlain);
      }
      newImage := reg.globIcon(path);
      if newMime == Some(DesktopEntry) && newImage.None? {
        newImage := reg.desktopIcon(path);
      }
    } else {
      newImage := reg.globIcon(path);
    }

    if newMime.None? {
      newMime := Some(reg.mimeForBaseType(stated.baseType));
    }
    newFlags := newFlags - {NeedRescanQueue};
    ghost var expected := RestatFlags(fs, reg, path, recentTime);
    assert DirNeedExamine in newFlags <==> DirNeedExamine in expected;
    assert ExecFile in newFlags <==> ExecFile in expected;
    r := stated.(flags := newFlags, mimeType := newMime, image := newImage);
  }

  /**
   * The three probes of diritem_examine_dir (diritem.c:316-390) on the
   * resolved directory dir: whether AppRun makes it an AppDir, and the icon
   * loaded from .DirIcon or AppIcon.xpm, if any.
   */
  method ProbeStep(dir: Path, fs: FileSystem, reg: Registry) returns (appRun: bool, newImage: Option<Icon>)
    ensures Probe(appRun, newImage) == ProbeAppDir(fs, reg, dir)
  {
    appRun, newImage := false, None;
    var dirStat := fs.lstat(dir);
    if dirStat.Failed? {
      return;
    }
    var uid := dirStat.info.uid;

    // .DirIcon: same owner, resolvable, regular, not too big
    var file := dir + "/.DirIcon";
    var st := fs.lstat(file);
    if st.Found? && st.info.uid == uid {
      if IsLink(st.info.mode) {
        st := fs.stat(file);
      }
      if st.Found? && st.info.size <= MaxIconSize && IsRegular(st.info.mode) {
        newImage := reg.pixmap(file);
      }
    }

    // AppRun: same owner and executable
    file := dir + "/AppRun";
    st := fs.lstat(file);
    if st.Failed? || st.info.uid != uid || !AnyExec(st.info.mode) {
      return;
    }
    appRun := true;
    if newImage.Some? {
      return;
    }

    // AppIcon.xpm: only under a valid AppRun, so no owner check
    file := dir + "/AppIcon.xpm";
    st := fs.stat(file);
    if st.Found? && st.info.size <= MaxIconSize && IsRegular(st.info.mode) {
      newImage := reg.pixmap(file);
    }
  }

  // ---------------------------------------------------------------------
  // The DirItem object, updated in place
  // ---------------------------------------------------------------------

  class DirItem {
    const leafname: string
    var baseType: BaseType
    var flags: set<ItemFlag>
    var mimeType: Option<MimeType>
    var size: int
    var mode: bv32
    var uid: int
    var gid: int
    var atime: int
    var ctime: int
    var mtime: int
    var lstatErrno: int
    var image: Option<Icon>
    var itemLabel: Option<string>

    /** The current fields as a value. */
    function Snapshot(): (s: ItemState)
      reads this
      ensures s.leafname == leafname
    {
      ItemState(leafname, baseType, flags, mimeType, size, mode, uid, gid, atime, ctime, mtime,
                lstatErrno, image, itemLabel)
    }

    /** diritem_new */
    constructor (leafname: string)
      ensures Snapshot() == NewItemState(leafname)
    {
      this.leafname := leafname;
      baseType := Unknown;
      flags := {NeedRescanQueue, NotDelete};
      mimeType := None;
      size, mode := 0, 0;
      uid, gid := 0, 0;
      atime, ctime, mtime := 0, 0, 0;
      lstatErrno := 0;
      image := None;
      itemLabel := None;
    }

    /** Replaces every field at once (the assignment *retitem = newitem). */
    method Publish(s: ItemState)
      requires s.leafname == leafname
      modifies this
      ensures Snapshot() == s
    {
      baseType, flags, mimeType, size, mode := s.baseType, s.flags, s.mimeType, s.size, s.mode;
      uid, gid, atime, ctime, mtime := s.uid, s.gid, s.atime, s.ctime, s.mtime;
      lstatErrno, image, itemLabel := s.lstatErrno, s.image, s.itemLabel;
    }

    /**
     * diritem_restat: builds the new record in a local copy, field by field,
     * publishes it, and examines a directory at once when asked to.
     */
    method Restat(path: Path, fs: FileSystem, reg: Registry, recentTime: int, examineNow: bool)
      modifies this
      ensures var r := Restated(old(Snapshot()), path, fs, reg, recentTime);
              Snapshot() == if examineNow && DirNeedExamine in r.flags then Examined(r, path, fs, reg).item else r
    {
      var item := Snapshot();
      if image.Some? {
        image := None;
      }
      var stated, info := StatStep(item, path, fs, reg, recentTime);
      var newItem := ClassifyStep(stated, info, path, fs, reg, recentTime);
      Publish(newItem);

      if examineNow && DirNeedExamine in newItem.flags {
        var changed := ExamineDir(path, fs, reg);
      }
    }

    /**
     * diritem_examine_dir: counts the children, probes .DirIcon, AppRun and
     * AppIcon.xpm, and updates size, flags and image in place. The answer
     * says whether the entry needs redrawing.
     */
    method ExamineDir(path: Path, fs: FileSystem, reg: Registry) returns (changed: bool)
      modifies this
      ensures var e := Examined(old(Snapshot()), path, fs, reg);
              Snapshot() == e.item && changed == e.changed
    {
      var rpath := fs.realPath(path);
      var oldSize := size;
      var entries := fs.listing(rpath);
      if entries.Some? {
        var names := entries.value;
        var count := 0;
        while count < |names|
          invariant 0 <= count <= |names|
        {
          count := count + 1;
        }
        size := count - 2;
      }

      var appRun, newImage := ProbeStep(rpath, fs, reg);
      if appRun {
        flags := flags + {AppDir};
      }

      flags := flags - {DirNeedExamine};
      if AppDir in flags && newImage.None? {
        newImage := Some(ImAppDir);
      }
      if newImage.Some? {
        image := newImage;
        return true;
      }
      return size != oldSize;
    }

    /** _diritem_get_image: resolves and caches the icon on first use. */
    method GetImage(reg: Registry) returns (img: Option<Icon>)
      modifies this`image
      ensures image == DisplayImage(old(Snapshot()), reg)
      ensures img == image
    {
      if image.None? && baseType != Unknown {
        if baseType == Error {
          image := Some(ImError);
        } else {
          image := reg.typeToIcon(mimeType);
        }
      }
      img := image;
    }
  }
}
