/**
 * The string handling of a ROX-Filer window (filer.c), free of any widget:
 * C strings and strncmp, trailing-slash tidying, the "is this window under
 * that path" tests, parent directories, the window title and the
 * large/small icon threshold.
 */
module FilerPaths {
  import opened Wrappers

  // ---------------------------------------------------------------------
  // C strings
  // ---------------------------------------------------------------------

  /** A string a C program can hold: no NUL inside it. */
  predicate IsCString(s: string)
  {
    '\0' !in s
  }

  /** s[i] as C reads it: the terminating NUL at and past the end. */
  function CharAt(s: string, i: nat): char
  {
    if i < |s| then s[i] else '\0'
  }

  /** strlen of a NUL-terminated buffer: the index of its first NUL. */
  function StrLen(buf: seq<char>): (n: nat)
    requires '\0' in buf
    ensures n < |buf| && buf[n] == '\0'
    ensures '\0' !in buf[..n]
  {
    if buf[0] == '\0' then 0
    else
      assert '\0' in buf[1..] by {
        var k :| 0 <= k < |buf| && buf[k] == '\0';
        assert buf[1..][k - 1] == '\0';
      }
      var n := 1 + StrLen(buf[1..]);
      assert buf[..n] == [buf[0]] + buf[1..][..n - 1];
      n
  }

  /** The C string a NUL-terminated buffer holds. */
  function CStr(buf: seq<char>): (s: string)
    requires '\0' in buf
    ensures IsCString(s)
  {
    buf[..StrLen(buf)]
  }

  /** Any NUL that follows a NUL-free prefix is the terminator. */
  lemma {:induction false} StrLenAt(buf: seq<char>, n: nat)
    requires n < |buf| && buf[n] == '\0' && '\0' !in buf[..n]
    ensures StrLen(buf) == n
  {
    if buf[0] != '\0' {
      assert buf[0] == buf[..n][0];
      assert buf[1..][..n - 1] == buf[..n][1..];
      StrLenAt(buf[1..], n - 1);
    }
  }

  /** strncmp(a, b, n) == 0, comparing from position i on. */
  predicate StrNEqFrom(a: string, b: string, n: nat, i: nat)
    decreases n - i
  {
    i >= n || (CharAt(a, i) == CharAt(b, i) && (CharAt(a, i) == '\0' || StrNEqFrom(a, b, n, i + 1)))
  }

  predicate StrNEq(a: string, b: string, n: nat)
  {
    StrNEqFrom(a, b, n, 0)
  }

  lemma {:induction false} StrNEqFromPrefix(a: string, b: string, i: nat)
    requires IsCString(a) && i <= |a|
    ensures StrNEqFrom(a, b, |a|, i) <==> (forall j | i <= j < |a| :: j < |b| && a[j] == b[j])
    decreases |a| - i
  {
    if i < |a| {
      assert a[i] in a;
      StrNEqFromPrefix(a, b, i + 1);
    }
  }

  /** For C strings, strncmp(a, b, strlen(a)) == 0 says exactly that a is a prefix of b. */
  lemma StrNEqIsPrefix(a: string, b: string)
    requires IsCString(a)
    ensures StrNEq(a, b, |a|) <==> a <= b
  {
    StrNEqFromPrefix(a, b, 0);
    if a <= b {
      assert forall j | 0 <= j < |a| :: j < |b| && a[j] == b[j];
    }
    if forall j | 0 <= j < |a| :: j < |b| && a[j] == b[j] {
      PrefixFromPointwise(a, b);
    }
  }

  lemma PrefixFromPointwise(a: string, b: string)
    requires forall j | 0 <= j < |a| :: j < |b| && a[j] == b[j]
    ensures a <= b
  {
    if |a| > 0 {
      var last := |a| - 1;
      assert last < |b| && a[last] == b[last];
      assert a == b[..|a|];
    }
  }

  lemma {:induction false} StrNEqFromSymmetric(a: string, b: string, n: nat, i: nat)
    ensures StrNEqFrom(a, b, n, i) == StrNEqFrom(b, a, n, i)
    decreases n - i
  {
    if i < n {
      StrNEqFromSymmetric(a, b, n, i + 1);
    }
  }

  /** Drop(s, n) is the C pointer s + n, for n at most strlen(s). */
  function Drop(s: string, n: nat): string
  {
    if n <= |s| then s[n..] else ""
  }

  // ---------------------------------------------------------------------
  // tidy_sympath
  // ---------------------------------------------------------------------

  /** The path without its trailing '/'s, but never shorter than one character. */
  function Tidied(s: string): (t: string)
    ensures |t| <= |s| && t == s[..|t|]
    ensures forall i | |t| <= i < |s| :: s[i] == '/'
    ensures |s| >= 1 ==> |t| >= 1
    ensures |t| > 1 ==> t[|t| - 1] != '/'
  {
    if |s| > 1 && s[|s| - 1] == '/' then Tidied(s[..|s| - 1]) else s
  }

  /** Tidying twice is tidying once. */
  lemma TidiedIdempotent(s: string)
    ensures Tidied(Tidied(s)) == Tidied(s)
  {
  }

  /** "/" stays "/", and "" stays "". */
  lemma TidiedRoot()
    ensures Tidied("/") == "/" && Tidied("") == ""
  {
  }

  /**
   * Tidied(s) is the only way of writing s as a prefix followed by '/'s in
   * which the prefix is non-empty (when s is) and has no trailing '/'
   * beyond its first character.
   */
  lemma {:induction false} TidiedUnique(s: string, t: string)
    requires t <= s
    requires forall i | |t| <= i < |s| :: s[i] == '/'
    requires |s| >= 1 ==> |t| >= 1
    requires |t| > 1 ==> t[|t| - 1] != '/'
    ensures t == Tidied(s)
    decreases |s|
  {
    if |s| > 1 && s[|s| - 1] == '/' && |t| < |s| {
      TidiedUnique(s[..|s| - 1], t);
    }
  }

  /**
   * tidy_sympath: removes the trailing '/'s of the C string held in buf, in
   * place, by writing NULs over them; it never shortens the string below one
   * character.
   */
  method TidySymPath(buf: array<char>)
    requires '\0' in buf[..]
    modifies buf
    ensures '\0' in buf[..]
    ensures CStr(buf[..]) == Tidied(old(CStr(buf[..])))
    // the only characters written are NULs over '/'s
    ensures forall i | 0 <= i < buf.Length && buf[i] != old(buf[i]) :: buf[i] == '\0' && old(buf[i]) == '/'
  {
    var l := StrLen(buf[..]);
    ghost var s0 := CStr(buf[..]);
    while l > 1 && buf[l - 1] == '/'
      invariant 0 <= l <= |s0| < buf.Length
      invariant forall i | 0 <= i < l :: buf[i] == s0[i]
      invariant buf[l] == '\0'
      invariant Tidied(s0) == Tidied(s0[..l])
      invariant forall i | 0 <= i < buf.Length && buf[i] != old(buf[i]) :: buf[i] == '\0' && old(buf[i]) == '/'
    {
      assert s0[..l][..l - 1] == s0[..l - 1];
      l := l - 1;
      buf[l] := '\0';
    }
    TidyResult(buf[..], s0, l);
  }

  /** What the loop of TidySymPath leaves: the first l characters of s0, then NUL. */
  lemma TidyResult(buf: seq<char>, s0: string, l: nat)
    requires IsCString(s0) && l <= |s0| && l < |buf| && buf[l] == '\0'
    requires forall i | 0 <= i < l :: buf[i] == s0[i]
    requires l <= 1 || s0[l - 1] != '/'
    ensures '\0' in buf && CStr(buf) == s0[..l] == Tidied(s0[..l])
  {
    assert buf[..l] == s0[..l];
    assert '\0' !in s0[..l] by {
      assert forall i | 0 <= i < l :: s0[..l][i] == s0[i];
    }
    StrLenAt(buf, l);
  }

  /** g_strdup followed by tidy_sympath: the tidied copy of a C string. */
  method TidyCopy(path: string) returns (t: string)
    requires IsCString(path)
    ensures t == Tidied(path)
  {
    var buf := new char[|path| + 1](i requires 0 <= i <= |path| => if i < |path| then path[i] else '\0');
    assert buf[..] == path + ['\0'];
    assert buf[..][..|path|] == path;
    StrLenAt(buf[..], |path|);
    TidySymPath(buf);
    t := CStr(buf[..]);
  }

  // ---------------------------------------------------------------------
  // The prefix tests of filer_check_mounted and filer_close_recursive
  // ---------------------------------------------------------------------

  /** filer_check_mounted's test: the window shows path itself or something below it. */
  predicate MountCovers(path: string, windowPath: string)
  {
    StrNEq(path, windowPath, |path|) &&
    (CharAt(windowPath, |path|) == '/' || CharAt(windowPath, |path|) == '\0')
  }

  /** filer_close_recursive's test: as MountCovers, except that "/" covers every path. */
  predicate CloseCovers(path: string, windowPath: string)
  {
    StrNEq(path, windowPath, |path|) &&
    (|path| == 1 || CharAt(windowPath, |path|) == '/' || CharAt(windowPath, |path|) == '\0')
  }

  lemma MountCoversMeans(path: string, windowPath: string)
    requires IsCString(path) && IsCString(windowPath)
    ensures MountCovers(path, windowPath) <==> windowPath == path || path + "/" <= windowPath
  {
    StrNEqIsPrefix(path, windowPath);
    if path <= windowPath && |windowPath| == |path| {
      assert windowPath == path;
    }
    if path <= windowPath && |windowPath| > |path| && windowPath[|path|] == '/' {
      assert windowPath[..|path| + 1] == path + "/";
    }
    if path + "/" <= windowPath {
      assert windowPath[|path|] == (path + "/")[|path|];
      assert path == (path + "/")[..|path|];
    }
  }

  lemma CloseCoversMeans(path: string, windowPath: string)
    requires IsCString(path) && IsCString(windowPath)
    ensures CloseCovers(path, windowPath) <==>
              MountCovers(path, windowPath) || (|path| == 1 && path <= windowPath)
  {
    StrNEqIsPrefix(path, windowPath);
  }

  /** Closing "/" closes every window showing an absolute path; a mount on "/" does not reach below it. */
  lemma RootCovers(windowPath: string)
    requires IsCString(windowPath) && |windowPath| > 1 && windowPath[0] == '/' && windowPath[1] != '/'
    ensures CloseCovers("/", windowPath)
    ensures !MountCovers("/", windowPath)
  {
    StrNEqIsPrefix("/", windowPath);
  }

  // ---------------------------------------------------------------------
  // Parent directories: g_dirname and g_basename
  // ---------------------------------------------------------------------

  /** The index of the last '/' in s, or -1 when there is none (strrchr). */
  function LastSlash(s: string): (k: int)
    ensures -1 <= k < |s|
    ensures k >= 0 ==> s[k] == '/'
    ensures forall j | k < j < |s| :: s[j] != '/'
  {
    if s == [] then -1
    else if s[|s| - 1] == '/' then |s| - 1
    else LastSlash(s[..|s| - 1])
  }

  /** Steps back from k over '/'s, stopping at the first character. */
  function SkipSlashesBack(s: string, k: nat): (j: nat)
    requires k < |s|
    ensures j <= k
    ensures j == 0 || s[j] != '/'
    ensures forall i | j < i <= k :: s[i] == '/'
  {
    if k > 0 && s[k] == '/' then SkipSlashesBack(s, k - 1) else k
  }

  /** g_dirname: everything before the last '/', without its own trailing '/'s; "." for a bare name. */
  function Dirname(s: string): string
  {
    var k := LastSlash(s);
    if k < 0 then "." else s[..SkipSlashesBack(s, k) + 1]
  }

  /** g_basename: everything after the last '/'. */
  function Basename(s: string): string
  {
    s[LastSlash(s) + 1..]
  }

  /** The parent of a C string is a C string: it is "." or a prefix of it. */
  lemma DirnameIsCString(s: string)
    requires IsCString(s)
    ensures IsCString(Dirname(s))
  {
    var k := LastSlash(s);
    if k >= 0 {
      var d := s[..SkipSlashesBack(s, k) + 1];
      assert forall i | 0 <= i < |d| :: d[i] == s[i];
    }
  }

  /**
   * The root guard of filer_open_parent and change_to_parent: the parent
   * directory to go to and the leaf to select there, or nothing at "/".
   */
  function ParentOf(symPath: string): (r: Option<(string, string)>)
    ensures r.None? <==> symPath == "/"
  {
    if symPath == "/" then None else Some((Dirname(symPath), Basename(symPath)))
  }

  /**
   * Going up from a tidied absolute path other than "/" gives a strictly
   * shorter tidied absolute path that the old one extends, and a leafname
   * without '/': repeating it reaches "/".
   */
  lemma ParentOfTidiedPath(s: string)
    requires |s| > 1 && s[0] == '/' && Tidied(s) == s
    ensures var d := Dirname(s);
              |d| < |s| && d <= s && d[0] == '/' && Tidied(d) == d
    ensures Basename(s) != "" && '/' !in Basename(s)
    ensures s == Dirname(s) + s[|Dirname(s)|..LastSlash(s) + 1] + Basename(s)
  {
    var k := LastSlash(s);
    assert k >= 0 by { assert s[0] == '/'; }
    assert s[|s| - 1] != '/';
    var j := SkipSlashesBack(s, k);
    var d := s[..j + 1];
    assert d[0] == '/';
    TidiedUnique(d, d);
    var b := Basename(s);
    assert forall i | 0 <= i < |b| :: b[i] == s[k + 1 + i];
  }

  // ---------------------------------------------------------------------
  // filer_set_title
  // ---------------------------------------------------------------------

  /** The options and host facts the title depends on. */
  datatype TitleEnv = TitleEnv(shortFlagNames: bool, notLocal: bool, hostName: string, homeDir: string)

  function FlagIf(b: bool, s: string): string
  {
    if b then s else ""
  }

  /**
   * The flags part of the title: " +SAT" in the short form; in the long
   * form " (" and the words each followed by ", ", with the last ',' then
   * overwritten by ')'.
   */
  function TitleFlags(scanning: bool, hidden: bool, thumbs: bool, short: bool): (f: string)
    ensures f == "" <==> !(scanning || hidden || thumbs)
  {
    if !(scanning || hidden || thumbs) then ""
    else if short then " +" + FlagIf(scanning, "S") + FlagIf(hidden, "A") + FlagIf(thumbs, "T")
    else LongFlags(scanning, hidden, thumbs)
  }

  /** The long flags: each word followed by ", ", then the last ',' overwritten by ')'. */
  function LongFlags(scanning: bool, hidden: bool, thumbs: bool): string
  {
    var s := " (" + FlagIf(scanning, "Scanning, ") + FlagIf(hidden, "All, ") + FlagIf(thumbs, "Thumbs, ");
    s[|s| - 2 := ')']
  }

  /** The short form: " +" and one letter for each flag that is on. */
  lemma ShortFlagsLetters(scanning: bool, hidden: bool, thumbs: bool)
    requires scanning || hidden || thumbs
    ensures var f := TitleFlags(scanning, hidden, thumbs, true);
              3 <= |f| <= 5 && f[..2] == " +" &&
              ('S' in f <==> scanning) && ('A' in f <==> hidden) && ('T' in f <==> thumbs)
  {
  }

  /** Words joined by a separator. */
  function Join(words: seq<string>, sep: string): string
  {
    if words == [] then ""
    else if |words| == 1 then words[0]
    else words[0] + sep + Join(words[1..], sep)
  }

  /** The long flag words that are on, in title order. */
  function FlagWords(scanning: bool, hidden: bool, thumbs: bool): seq<string>
  {
    (if scanning then ["Scanning"] else []) + (if hidden then ["All"] else []) + (if thumbs then ["Thumbs"] else [])
  }

  /** Each word followed by the separator, as g_strconcat builds the long flags. */
  function Terminated(words: seq<string>, sep: string): string
  {
    if words == [] then "" else words[0] + sep + Terminated(words[1..], sep)
  }

  lemma {:induction false} TerminatedAppend(a: seq<string>, b: seq<string>, sep: string)
    ensures Terminated(a + b, sep) == Terminated(a, sep) + Terminated(b, sep)
    decreases |a|
  {
    if a != [] {
      assert (a + b)[0] == a[0] && (a + b)[1..] == a[1..] + b;
      TerminatedAppend(a[1..], b, sep);
      assert Terminated(a + b, sep) == a[0] + sep + (Terminated(a[1..], sep) + Terminated(b, sep));
    } else {
      assert a + b == b;
    }
  }

  lemma {:induction false} TerminatedIsJoined(words: seq<string>, sep: string)
    requires words != []
    ensures Terminated(words, sep) == Join(words, sep) + sep
    decreases |words|
  {
    if |words| > 1 {
      TerminatedIsJoined(words[1..], sep);
    }
  }

  lemma TerminatedOne(b: bool, word: string, sep: string)
    ensures Terminated(if b then [word] else [], sep) == FlagIf(b, word + sep)
  {
    if b {
      assert [word][1..] == [];
    }
  }

  /** The long words, each with its ", ", are the flag words terminated by ", ". */
  lemma FlagWordsTerminated(scanning: bool, hidden: bool, thumbs: bool)
    ensures FlagIf(scanning, "Scanning, ") + FlagIf(hidden, "All, ") + FlagIf(thumbs, "Thumbs, ") ==
            Terminated(FlagWords(scanning, hidden, thumbs), ", ")
  {
    var ws: seq<string> := if scanning then ["Scanning"] else [];
    var wh: seq<string> := if hidden then ["All"] else [];
    var wt: seq<string> := if thumbs then ["Thumbs"] else [];
    TerminatedAppend(ws + wh, wt, ", ");
    TerminatedAppend(ws, wh, ", ");
    TerminatedOne(scanning, "Scanning", ", ");
    TerminatedOne(hidden, "All", ", ");
    TerminatedOne(thumbs, "Thumbs", ", ");
  }

  /** The long form is the words in parentheses, comma-separated, followed by a space. */
  lemma LongFlagsAreJoinedWords(scanning: bool, hidden: bool, thumbs: bool)
    requires scanning || hidden || thumbs
    ensures TitleFlags(scanning, hidden, thumbs, false) ==
              " (" + Join(FlagWords(scanning, hidden, thumbs), ", ") + ") "
  {
    var w := FlagWords(scanning, hidden, thumbs);
    var t := FlagIf(scanning, "Scanning, ") + FlagIf(hidden, "All, ") + FlagIf(thumbs, "Thumbs, ");
    FlagWordsTerminated(scanning, hidden, thumbs);
    TerminatedIsJoined(w, ", ");
    var j := Join(w, ", ");
    assert t == j + ", ";
    CloseParen(j);
    assert " (" + t == " (" + j + ", ";
  }

  /** Overwriting the ',' of the final ", " gives ") ". */
  lemma CloseParen(j: string)
    ensures var s := " (" + j + ", "; s[|s| - 2 := ')'] == " (" + j + ") "
  {
  }

  /** sym_path lies in the home directory (itself or below it); a home of "/" is never used. */
  predicate InHome(symPath: string, home: string)
  {
    |home| > 1 && StrNEq(symPath, home, |home|) &&
    (CharAt(symPath, |home|) == '\0' || CharAt(symPath, |home|) == '/')
  }

  /** The window title: "//host" before the path on a remote display, else the home directory shown as '~'. */
  function Title(symPath: string, scanning: bool, hidden: bool, thumbs: bool, env: TitleEnv): string
  {
    var flags := TitleFlags(scanning, hidden, thumbs, env.shortFlagNames);
    if env.notLocal then "//" + env.hostName + symPath + flags
    else if InHome(symPath, env.homeDir) then "~" + Drop(symPath, |env.homeDir|) + flags
    else symPath + flags
  }

  /** Reading a title back: a leading '~' stands for the home directory. */
  function ExpandHome(shown: string, home: string): string
  {
    if |shown| > 0 && shown[0] == '~' then home + shown[1..] else shown
  }

  /**
   * On a local display the title names the directory: it is the shown path
   * followed by the flags, and expanding '~' in the shown path gives back
   * sym_path (an absolute path, so it never starts with '~' itself).
   */
  lemma TitleNamesPath(symPath: string, scanning: bool, hidden: bool, thumbs: bool, env: TitleEnv)
    requires IsCString(symPath) && IsCString(env.homeDir)
    requires |symPath| > 0 && symPath[0] == '/'
    requires !env.notLocal
    ensures var t := Title(symPath, scanning, hidden, thumbs, env);
            var flags := TitleFlags(scanning, hidden, thumbs, env.shortFlagNames);
              |flags| <= |t| && t[|t| - |flags|..] == flags &&
              ExpandHome(t[..|t| - |flags|], env.homeDir) == symPath
  {
    var home := env.homeDir;
    var t := Title(symPath, scanning, hidden, thumbs, env);
    var flags := TitleFlags(scanning, hidden, thumbs, env.shortFlagNames);
    StrNEqFromSymmetric(symPath, home, |home|, 0);
    StrNEqIsPrefix(home, symPath);
    if InHome(symPath, home) {
      assert home <= symPath;
      assert t[..|t| - |flags|] == "~" + symPath[|home|..];
      assert home + symPath[|home|..] == symPath;
    } else {
      assert t[..|t| - |flags|] == symPath;
    }
  }

  /** The home directory itself is titled "~", and a directory merely sharing its prefix is not abbreviated. */
  lemma HomeTitles(home: string, env: TitleEnv)
    requires IsCString(home) && |home| > 1 && env.homeDir == home && !env.notLocal
    ensures Title(home, false, false, false, env) == "~"
    ensures Title(home + "x", false, false, false, env) == home + "x"
  {
    StrNEqFromSymmetric(home, home, |home|, 0);
    StrNEqIsPrefix(home, home);
    StrNEqFromSymmetric(home + "x", home, |home|, 0);
    StrNEqIsPrefix(home, home + "x");
    assert CharAt(home + "x", |home|) == 'x';
  }

  // ---------------------------------------------------------------------
  // set_style_by_number_of_items
  // ---------------------------------------------------------------------

  datatype DisplayStyle = LargeIcons | SmallIcons | HugeIcons | UnknownStyle

  /** The auto-size options: whether to switch, and the number of items at which small icons take over. */
  datatype StyleOptions = StyleOptions(changeSize: bool, changeSizeNum: int)

  /** The style after set_style_by_number_of_items, for a view holding n items. */
  function StyleFor(opts: StyleOptions, style: DisplayStyle, n: int): (s: DisplayStyle)
    ensures s != style ==> opts.changeSize && (style == LargeIcons || style == SmallIcons)
    ensures opts.changeSize && (style == LargeIcons || style == SmallIcons) ==>
              (s == SmallIcons <==> n >= opts.changeSizeNum) &&
              (s == LargeIcons <==> n < opts.changeSizeNum)
  {
    if !opts.changeSize then style
    else if style != LargeIcons && style != SmallIcons then style
    else if n >= opts.changeSizeNum then SmallIcons
    else LargeIcons
  }

  /** More items never mean larger icons. */
  lemma StyleMonotone(opts: StyleOptions, style: DisplayStyle, n1: int, n2: int)
    requires n1 <= n2 && StyleFor(opts, style, n2) == LargeIcons
    ensures StyleFor(opts, style, n1) == LargeIcons
  {
  }

  /** Applying the rule again for the same count changes nothing. */
  lemma StyleStable(opts: StyleOptions, style: DisplayStyle, n: int)
    ensures StyleFor(opts, StyleFor(opts, style, n), n) == StyleFor(opts, style, n)
  {
  }
}
