/** Model of standardpaths/unix.py: the resolver for systems that follow
    the XDG Base Directory Specification (`XDG_*_HOME`, `XDG_*_DIRS`) and
    the xdg-user-dirs convention (`user-dirs.dirs` in the config home). */
module Unix {
  import opened Base
  import opened PosixPath
  import Seqs

  /** What the resolver reads from its process and from the system. */
  datatype Host = Host(
    environ: map<string, string>,            // os.environ
    home: string,                            // what `~` expands to
    tempDir: string,                         // tempfile.gettempdir()
    userName: string,                        // pwd.getpwuid(os.geteuid()).pw_name
    expandVars: string -> string,            // os.path.expandvars
    readLines: Path -> Option<seq<string>>,  // a text file's lines without newlines; None: no such file
    mkdirMode: nat)                          // the mode Path.mkdir() gives (0o777 less the umask)

  /** The `default` of `_get_path_str`: a string, or the `RAISE` sentinel. */
  datatype Default = Value(text: string) | Raise

  /** `_get_path_str(environ_name, default)`: the variable's value whenever
      it is set, even to ""; the default only when it is absent; and
      `KeyError` when it is absent and the default is `RAISE`. */
  function GetPathStr(environ: map<string, string>, name: string, default: Default): (r: Result<string>)
    ensures name in environ ==> r == Ok(environ[name])
    ensures name !in environ && default.Value? ==> r == Ok(default.text)
    ensures r.Err? <==> name !in environ && default.Raise?
    ensures r.Err? ==> r.error == KeyError(name)
  {
    if name in environ then Ok(environ[name])
    else match default
      case Value(text) => Ok(text)
      case Raise => Err(KeyError(name))
  }

  /** `_get_path(environ_name, default)`: the string, `~` expanded, parsed. */
  function GetPath(h: Host, name: string, default: Default): (r: Result<Path>)
    ensures default.Value? ==> r.Ok?
  {
    var text :- GetPathStr(h.environ, name, default);
    Ok(ParsePath(ExpandUser(h.home, text)))
  }

  /** `_get_path` with a string default, which cannot fail. */
  function PathOr(h: Host, name: string, default: string): Path {
    GetPath(h, name, Value(default)).value
  }

  /** `expanduser("~")`: the home directory, or the root when it is empty. */
  function HomePath(h: Host): (p: Path)
    ensures h.home != "" ==> p == ParsePath(h.home)
    ensures h.home == "" ==> p == ["/"]
  {
    ExpandHome(h.home);
    ParsePath(ExpandUser(h.home, "~"))
  }

  /** The temporary directory, absolute exactly when the host gives an
      absolute one. */
  function TempPath(h: Host): (p: Path)
    ensures IsAbs(h.tempDir) <==> |p| > 0 && p[0] == "/"
  {
    ParsePathShape(h.tempDir);
    ParsePath(h.tempDir)
  }

  function GenericCachePath(h: Host): (p: Path)
    ensures "XDG_CACHE_HOME" in h.environ ==> p == ParsePath(ExpandUser(h.home, h.environ["XDG_CACHE_HOME"]))
  {
    PathOr(h, "XDG_CACHE_HOME", "~/.cache")
  }

  function GenericDataPath(h: Host): (p: Path)
    ensures "XDG_DATA_HOME" in h.environ ==> p == ParsePath(ExpandUser(h.home, h.environ["XDG_DATA_HOME"]))
  {
    PathOr(h, "XDG_DATA_HOME", "~/.local/share")
  }

  function ConfigPath(h: Host): (p: Path)
    ensures "XDG_CONFIG_HOME" in h.environ ==> p == ParsePath(ExpandUser(h.home, h.environ["XDG_CONFIG_HOME"]))
  {
    PathOr(h, "XDG_CONFIG_HOME", "~/.config")
  }

  /** A set variable wins over the default, even when it is empty. */
  lemma {:induction false} SetVariableWins(h: Host, name: string, default: string)
    requires name in h.environ
    ensures PathOr(h, name, default) == ParsePath(ExpandUser(h.home, h.environ[name]))
  {
  }

  /** An unset variable with a "~/rel" default names `rel` under the
      parsed home directory. */
  lemma DefaultUnderHome(h: Host, name: string, default: string, rel: string)
    requires h.home != ""
    requires name !in h.environ && !IsAbs(rel) && default == "~/" + rel
    ensures PathOr(h, name, default) == ParsePath(h.home) + ParsePath(rel)
  {
    ExpandUserUnderHome(h.home, rel);
  }

  lemma CacheDefault(h: Host)
    requires h.home != ""
    requires "XDG_CACHE_HOME" !in h.environ
    ensures GenericCachePath(h) == ParsePath(h.home) + [".cache"]
  {
    DefaultUnderHome(h, "XDG_CACHE_HOME", "~/.cache", ".cache");
    OneName(".cache");
  }

  lemma DataDefault(h: Host)
    requires h.home != ""
    requires "XDG_DATA_HOME" !in h.environ
    ensures GenericDataPath(h) == ParsePath(h.home) + [".local", "share"]
  {
    DefaultUnderHome(h, "XDG_DATA_HOME", "~/.local/share", ".local/share");
    LocalShareParts();
  }

  lemma LocalShareParts()
    ensures ParsePath(".local/share") == [".local", "share"]
  {
    TwoNames(".local", "share");
    assert ".local" + "/" + "share" == ".local/share";
  }

  lemma ConfigDefault(h: Host)
    requires h.home != ""
    requires "XDG_CONFIG_HOME" !in h.environ
    ensures ConfigPath(h) == ParsePath(h.home) + [".config"]
  {
    DefaultUnderHome(h, "XDG_CONFIG_HOME", "~/.config", ".config");
    OneName(".config");
  }

  // ---------------------------------------------------------------------
  // XDG_DATA_DIRS

  /** The defaults as written: the second one is the relative `usr/share`. */
  const DefaultDataDirs: seq<Path> := [["/", "usr", "local", "share"], ["usr", "share"]]

  /** An absolute path with a root and normalised names after it. */
  predicate IsNormalAbs(p: Path) {
    |p| >= 1 && p[0] == "/" && forall j :: 1 <= j < |p| ==> IsName(p[j]) && p[j] != ".."
  }

  /** The comprehension over the pieces: non-empty absolute pieces,
      normalised and parsed, in order. */
  function AbsoluteEntries(pieces: seq<string>): (r: seq<Path>)
    ensures |r| <= |pieces|
  {
    if pieces == [] then []
    else
      var rest := AbsoluteEntries(pieces[1..]);
      if pieces[0] != "" && IsAbs(pieces[0]) then [NormAbs(pieces[0])] + rest else rest
  }

  /** Every entry is normalised and absolute. */
  lemma {:induction false} AbsoluteEntriesNormal(pieces: seq<string>)
    ensures forall i :: 0 <= i < |AbsoluteEntries(pieces)| ==> IsNormalAbs(AbsoluteEntries(pieces)[i])
  {
    if pieces != [] {
      var rest := AbsoluteEntries(pieces[1..]);
      AbsoluteEntriesNormal(pieces[1..]);
      if IsAbs(pieces[0]) {
        NormAbsShape(pieces[0]);
        var r := [NormAbs(pieces[0])] + rest;
        assert forall i :: 1 <= i < |r| ==> r[i] == rest[i - 1];
        assert IsNormalAbs(r[0]);
      }
    }
  }

  /** Every absolute piece, normalised, is an entry. */
  lemma {:induction false} AbsoluteEntriesComplete(pieces: seq<string>)
    ensures forall k :: 0 <= k < |pieces| && IsAbs(pieces[k]) ==> NormAbs(pieces[k]) in AbsoluteEntries(pieces)
  {
    if pieces != [] {
      AbsoluteEntriesComplete(pieces[1..]);
      assert forall k :: 1 <= k < |pieces| ==> pieces[k] == pieces[1..][k - 1];
    }
  }

  /** Every entry is an absolute piece, normalised. */
  lemma {:induction false} AbsoluteEntriesSound(pieces: seq<string>)
    ensures forall i :: 0 <= i < |AbsoluteEntries(pieces)| ==>
      exists k :: 0 <= k < |pieces| && IsAbs(pieces[k]) && AbsoluteEntries(pieces)[i] == NormAbs(pieces[k])
  {
    if pieces != [] {
      var tail := pieces[1..];
      var rest := AbsoluteEntries(tail);
      AbsoluteEntriesSound(tail);
      var r := AbsoluteEntries(pieces);
      var skip := if IsAbs(pieces[0]) then 1 else 0;
      assert r == (if skip == 1 then [NormAbs(pieces[0])] else []) + rest;
      forall i | 0 <= i < |r|
        ensures exists k :: 0 <= k < |pieces| && IsAbs(pieces[k]) && r[i] == NormAbs(pieces[k])
      {
        if i < skip {
          assert IsAbs(pieces[0]) && r[i] == NormAbs(pieces[0]);
        } else {
          assert r[i] == rest[i - skip];
          var j :| 0 <= j < |tail| && IsAbs(tail[j]) && rest[i - skip] == NormAbs(tail[j]);
          assert pieces[j + 1] == tail[j];
        }
      }
    } else {
      assert AbsoluteEntries(pieces) == [];
    }
  }

  /** The comprehension distributes over concatenation: entries keep the
      order of their pieces. */
  lemma {:induction false} AbsoluteEntriesAppend(a: seq<string>, b: seq<string>)
    ensures AbsoluteEntries(a + b) == AbsoluteEntries(a) + AbsoluteEntries(b)
  {
    if a != [] {
      assert a == [a[0]] + a[1..];
      assert a + b == [a[0]] + (a[1..] + b);
      AbsoluteEntriesCons(a[0], a[1..]);
      AbsoluteEntriesCons(a[0], a[1..] + b);
      AbsoluteEntriesAppend(a[1..], b);
    } else {
      assert a + b == b;
    }
  }

  /** One piece in front adds its entry, if any, in front. */
  lemma AbsoluteEntriesCons(piece: string, tail: seq<string>)
    ensures AbsoluteEntries([piece] + tail) == (if IsAbs(piece) then [NormAbs(piece)] else []) + AbsoluteEntries(tail)
  {
    assert ([piece] + tail)[0] == piece && ([piece] + tail)[1..] == tail;
  }

  /** Entry `e` comes from some absolute piece `k`, and the pieces up to `k`
      give exactly the entries up to `e`. */
  lemma {:induction false} AbsoluteEntriesPrefix(pieces: seq<string>, e: nat)
    requires e < |AbsoluteEntries(pieces)|
    ensures exists k :: (0 <= k < |pieces| && IsAbs(pieces[k]) && AbsoluteEntries(pieces)[e] == NormAbs(pieces[k])
                         && AbsoluteEntries(pieces[..k + 1]) == AbsoluteEntries(pieces)[..e + 1])
    decreases |pieces|, 1
  {
    var tail := pieces[1..];
    assert pieces == [pieces[0]] + tail;
    AbsoluteEntriesCons(pieces[0], tail);
    if IsAbs(pieces[0]) && e == 0 {
      assert pieces[..1] == [pieces[0]] + [];
      AbsoluteEntriesCons(pieces[0], []);
      assert AbsoluteEntries(pieces[..0 + 1]) == AbsoluteEntries(pieces)[..e + 1];
    } else if IsAbs(pieces[0]) {
      AbsoluteEntriesPrefixStep(pieces, [NormAbs(pieces[0])], e);
    } else {
      AbsoluteEntriesPrefixStep(pieces, [], e);
    }
  }

  /** The inductive step of `AbsoluteEntriesPrefix`: entry `e` lies past
      the entries `head` of the first piece. */
  lemma {:induction false} AbsoluteEntriesPrefixStep(pieces: seq<string>, head: seq<Path>, e: nat)
    requires |pieces| >= 1 && head == (if IsAbs(pieces[0]) then [NormAbs(pieces[0])] else [])
    requires |head| <= e < |AbsoluteEntries(pieces)|
    ensures exists k :: (0 <= k < |pieces| && IsAbs(pieces[k]) && AbsoluteEntries(pieces)[e] == NormAbs(pieces[k])
                         && AbsoluteEntries(pieces[..k + 1]) == AbsoluteEntries(pieces)[..e + 1])
    decreases |pieces|, 0
  {
    var tail := pieces[1..];
    assert pieces == [pieces[0]] + tail;
    AbsoluteEntriesCons(pieces[0], tail);
    var all := AbsoluteEntries(pieces);
    var rest := AbsoluteEntries(tail);
    assert all == head + rest;
    var e' := e - |head|;
    AbsoluteEntriesPrefix(tail, e');
    var k' :| 0 <= k' < |tail| && IsAbs(tail[k']) && rest[e'] == NormAbs(tail[k'])
      && AbsoluteEntries(tail[..k' + 1]) == rest[..e' + 1];
    var k := k' + 1;
    var upTo := tail[..k' + 1];
    Seqs.PrefixOfConcat([pieces[0]], tail, k + 1);
    Seqs.PrefixOfConcat(head, rest, e + 1);
    calc {
      AbsoluteEntries(pieces[..k + 1]);
    ==
      AbsoluteEntries([pieces[0]] + upTo);
    == { AbsoluteEntriesCons(pieces[0], upTo); }
      head + AbsoluteEntries(upTo);
    ==
      head + rest[..e' + 1];
    ==
      all[..e + 1];
    }
    assert pieces[k] == tail[k'] && all[e] == rest[e'];
    assert IsAbs(pieces[k]) && all[e] == NormAbs(pieces[k]);
  }

  predicate DataDirsSet(environ: map<string, string>) {
    "XDG_DATA_DIRS" in environ && environ["XDG_DATA_DIRS"] != ""
  }

  /** `_get_xdg_data_dirs()`. */
  function XdgDataDirs(environ: map<string, string>): (r: seq<Path>)
    ensures !DataDirsSet(environ) ==> r == DefaultDataDirs
  {
    if !DataDirsSet(environ) then DefaultDataDirs
    else Seqs.Dedup(AbsoluteEntries(Split(environ["XDG_DATA_DIRS"], ':')))
  }

  /** With the variable set: no duplicates, exactly the normalised absolute
      entries, in the order of their first occurrence. */
  lemma XdgDataDirsFromVariable(environ: map<string, string>, i: nat, j: nat)
    requires DataDirsSet(environ)
    ensures var r := XdgDataDirs(environ);
      var entries := AbsoluteEntries(Split(environ["XDG_DATA_DIRS"], ':'));
      && (forall k :: 0 <= k < |r| ==> IsNormalAbs(r[k]))
      && Seqs.NoDuplicates(r)
      && (forall p :: p in r <==> p in entries)
      && (i < j < |r| ==> Seqs.FirstIndex(entries, r[i]) < Seqs.FirstIndex(entries, r[j]))
  {
    var entries := AbsoluteEntries(Split(environ["XDG_DATA_DIRS"], ':'));
    var r := Seqs.Dedup(entries);
    var pieces := Split(environ["XDG_DATA_DIRS"], ':');
    AbsoluteEntriesNormal(pieces);
    forall p ensures p in r <==> p in entries {
      if p in r {
        var k :| 0 <= k < |r| && r[k] == p;
      }
      if p in entries {
        var k :| 0 <= k < |entries| && entries[k] == p;
      }
    }
    if i < j < |r| {
      Seqs.DedupKeepsFirstOccurrenceOrder(entries, i, j);
    }
  }

  /** The order of the list is that of `XDG_DATA_DIRS`: of two directories,
      the earlier one comes from a piece before any piece that gives the
      later one. */
  lemma DataDirsFollowPieces(environ: map<string, string>, i: nat, j: nat)
    requires DataDirsSet(environ) && i < j < |XdgDataDirs(environ)|
    ensures var r := XdgDataDirs(environ);
      var pieces := Split(environ["XDG_DATA_DIRS"], ':');
      exists k :: (0 <= k < |pieces| && IsAbs(pieces[k]) && NormAbs(pieces[k]) == r[i]
                   && r[j] !in AbsoluteEntries(pieces[..k + 1]))
  {
    var pieces := Split(environ["XDG_DATA_DIRS"], ':');
    var entries := AbsoluteEntries(pieces);
    var r := XdgDataDirs(environ);
    XdgDataDirsFromVariable(environ, i, j);
    var e := Seqs.FirstIndex(entries, r[i]);
    var f := Seqs.FirstIndex(entries, r[j]);
    AbsoluteEntriesPrefix(pieces, e);
    var k :| 0 <= k < |pieces| && IsAbs(pieces[k]) && entries[e] == NormAbs(pieces[k])
      && AbsoluteEntries(pieces[..k + 1]) == entries[..e + 1];
    Seqs.AbsentFromShorterPrefix(entries, r[j], e + 1, f);
  }

  // ---------------------------------------------------------------------
  // user-dirs.dirs

  /** "_DIR=" starts at position `j` of `line`. */
  predicate MarkerAt(line: string, j: int) {
    0 <= j && j + 5 <= |line| && line[j..j + 5] == "_DIR="
  }

  ghost predicate HasMarker(s: string) {
    exists j :: MarkerAt(s, j)
  }

  /** The last "_DIR=" starting in 4..j, or -1. */
  function LastMarker(line: string, j: int): (k: int)
    ensures k == -1 || (4 <= k <= j && MarkerAt(line, k))
    ensures forall m :: 4 <= m <= j && k < m ==> !MarkerAt(line, m)
    decreases j
  {
    if j < 4 then -1
    else if MarkerAt(line, j) then j
    else LastMarker(line, j - 1)
  }

  /** `re.match(r'^XDG_(.*)_DIR=(.*)\s*$', line)` on a line without its
      newline: the greedy first group runs to the LAST "_DIR=" after the
      prefix, and the second group is the rest of the line. */
  function MatchUserDir(line: string): (r: Option<(string, string)>)
    ensures r.Some? ==> |r.value.0| + |r.value.1| + 9 == |line|
  {
    if |line| < 4 || line[..4] != "XDG_" then None
    else
      var k := LastMarker(line, |line| - 5);
      if k == -1 then None else Some((line[4..k], line[k + 5..]))
  }

  /** A line matches exactly when it starts with "XDG_" and holds a
      "_DIR=" after that prefix; the key and the value then rebuild the
      line, and the value holds no further "_DIR=". */
  lemma MatchUserDirSound(line: string)
    ensures var r := MatchUserDir(line);
      && (r.Some? <==> |line| >= 4 && line[..4] == "XDG_" && exists j :: 4 <= j && MarkerAt(line, j))
      && (r.Some? ==> line == "XDG_" + r.value.0 + "_DIR=" + r.value.1 && !HasMarker(r.value.1))
  {
    if |line| >= 4 && line[..4] == "XDG_" {
      var k := LastMarker(line, |line| - 5);
      if k == -1 {
        assert !exists j :: 4 <= j && MarkerAt(line, j);
      } else {
        var key, value := line[4..k], line[k + 5..];
        assert line == "XDG_" + key + "_DIR=" + value by {
          assert line == line[..4] + line[4..k] + line[k..k + 5] + line[k + 5..];
        }
        forall m | MarkerAt(value, m) ensures false {
          assert line[k + 5 + m..k + 5 + m + 5] == value[m..m + 5];
          assert MarkerAt(line, k + 5 + m);
        }
      }
    }
  }

  /** In "XDG_" + key + "_DIR=" + value, no "_DIR=" starts after the one
      that follows the key when `value` holds none. */
  lemma NoLaterMarker(key: string, value: string, m: int)
    requires !HasMarker(value)
    requires |key| + 4 < m
    ensures !MarkerAt("XDG_" + key + "_DIR=" + value, m)
  {
    var line := "XDG_" + key + "_DIR=" + value;
    var p := |key| + 4;
    assert line[p..p + 5] == "_DIR=";
    assert forall i :: p < i < p + 5 ==> line[i] == line[p..p + 5][i - p] != '_';
    if m < p + 5 {
      if m + 5 <= |line| {
        assert line[m..m + 5][0] == line[m] != '_';
      }
    } else if m + 5 <= |line| {
      assert line[m..m + 5] == value[m - p - 5..m - p];
      assert !MarkerAt(value, m - p - 5);
    }
  }

  /** The match is the only way to read the line: when `line` is
      "XDG_" + key + "_DIR=" + value and `value` holds no "_DIR=", that is
      what `MatchUserDir` finds. */
  lemma MatchUserDirComplete(key: string, value: string)
    requires !HasMarker(value)
    ensures MatchUserDir("XDG_" + key + "_DIR=" + value) == Some((key, value))
  {
    var line := "XDG_" + key + "_DIR=" + value;
    var p := |key| + 4;
    assert line[..4] == "XDG_";
    assert MarkerAt(line, p) by { assert line[p..p + 5] == "_DIR="; }
    var k := LastMarker(line, |line| - 5);
    if k != p {
      assert k > p;
      NoLaterMarker(key, value, k);
    }
    assert line[4..p] == key;
    assert line[p + 5..] == value;
  }

  /** The line assigns `key`. */
  predicate DefinesKey(line: string, key: string) {
    MatchUserDir(line).Some? && MatchUserDir(line).value.0 == key
  }

  /** The `lines` dict after reading the file: every matching line stores
      its value with surrounding `"` stripped, later lines overwriting. */
  function UserDirs(fileLines: seq<string>): (r: map<string, string>)
    ensures forall key :: key in r ==> r[key] == [] || (r[key][0] != '"' && r[key][|r[key]| - 1] != '"')
  {
    if fileLines == [] then map[]
    else
      var before := UserDirs(fileLines[..|fileLines| - 1]);
      match MatchUserDir(fileLines[|fileLines| - 1])
      case None => before
      case Some((key, value)) => before[key := Strip(value, '"')]
  }

  /** A key is present exactly when some line assigns it. */
  lemma {:induction false} UserDirsKeys(fileLines: seq<string>, key: string)
    ensures key in UserDirs(fileLines) <==> exists i :: 0 <= i < |fileLines| && DefinesKey(fileLines[i], key)
  {
    if fileLines != [] {
      var n := |fileLines| - 1;
      var before := fileLines[..n];
      UserDirsKeys(before, key);
      assert forall i :: 0 <= i < n ==> before[i] == fileLines[i];
      if key in UserDirs(before) {
        var i :| 0 <= i < n && DefinesKey(before[i], key);
        assert DefinesKey(fileLines[i], key);
      }
    }
  }

  /** The last line that assigns a key decides its value. */
  lemma {:induction false} UserDirsLastWins(fileLines: seq<string>, key: string, i: nat)
    requires i < |fileLines| && DefinesKey(fileLines[i], key)
    requires forall j :: i < j < |fileLines| ==> !DefinesKey(fileLines[j], key)
    ensures key in UserDirs(fileLines)
    ensures UserDirs(fileLines)[key] == Strip(MatchUserDir(fileLines[i]).value.1, '"')
  {
    var n := |fileLines| - 1;
    if i < n {
      var before := fileLines[..n];
      assert forall j :: i < j < n ==> before[j] == fileLines[j];
      UserDirsLastWins(before, key, i);
    }
  }

  /** The loop over the file's lines that fills the `lines` dict. */
  method ParseUserDirs(fileLines: seq<string>) returns (lines: map<string, string>)
    ensures lines == UserDirs(fileLines)
  {
    lines := map[];
    for i := 0 to |fileLines|
      invariant lines == UserDirs(fileLines[..i])
    {
      assert fileLines[..i + 1][..i] == fileLines[..i];
      match MatchUserDir(fileLines[i]) {
        case None =>
        case Some((key, value)) =>
          lines := lines[key := Strip(value, '"')];
      }
    }
    assert fileLines[..|fileLines|] == fileLines;
  }

  /** The kinds that reach the user-dirs branch of `get_writable_path`. */
  const UserDirKinds: set<Location> :=
    {Desktop, Documents, Fonts, Applications, Music, Movies, Pictures, Download, Log}

  /** The `user-dirs.dirs` key per kind. */
  function UserDirKey(loc: Location): Option<string> {
    match loc
    case Desktop => Some("DESKTOP")
    case Documents => Some("DOCUMENTS")
    case Pictures => Some("PICTURES")
    case Music => Some("MUSIC")
    case Movies => Some("VIDEOS")
    case Download => Some("DOWNLOAD")
    case _ => None
  }

  /** The home-relative fallback names; `music` has none. */
  function FallbackName(loc: Location): Option<string> {
    match loc
    case Desktop => Some("Desktop")
    case Documents => Some("Documents")
    case Pictures => Some("Pictures")
    case Movies => Some("Videos")
    case Download => Some("Downloads")
    case Fonts => Some(".fonts")
    case _ => None
  }

  /** The entry for the kind's key, when present and non-empty. */
  predicate HasUserDir(lines: map<string, string>, loc: Location) {
    UserDirKey(loc).Some? && UserDirKey(loc).value in lines && lines[UserDirKey(loc).value] != ""
  }

  /** What the user-dirs branch returns once the file has been read. */
  function UserDirPath(h: Host, lines: map<string, string>, loc: Location): (p: Path)
    ensures !HasUserDir(lines, loc) && FallbackName(loc).Some? && h.home != "" ==>
      p == ParsePath(h.home) + [FallbackName(loc).value]
    ensures !HasUserDir(lines, loc) && loc in {Music, Log} ==> p == []
  {
    if HasUserDir(lines, loc) then ParsePath(h.expandVars(lines[UserDirKey(loc).value]))
    else match FallbackName(loc)
      case Some(name) => HomePath(h) + [name]
      case None => if loc == Applications then GenericDataPath(h) + ["applications"] else []
  }

  /** A non-empty entry wins, its variables expanded; without one, the
      kinds with a fallback name get that name under home, `applications`
      gets its folder under the generic data directory, and `music` and
      `log` get the empty path. */
  lemma UserDirPathCases(h: Host, lines: map<string, string>, loc: Location)
    ensures var p := UserDirPath(h, lines, loc);
      && (HasUserDir(lines, loc) ==> p == ParsePath(h.expandVars(lines[UserDirKey(loc).value])))
      && (!HasUserDir(lines, loc) && FallbackName(loc).Some? ==>
          |p| == |HomePath(h)| + 1 && p[..|HomePath(h)|] == HomePath(h) && p[|p| - 1] == FallbackName(loc).value)
      && (!HasUserDir(lines, loc) && loc == Applications ==> p == GenericDataPath(h) + ["applications"])
      && (!HasUserDir(lines, loc) && (loc == Music || loc == Log) ==> p == [])
  {
    if !HasUserDir(lines, loc) && FallbackName(loc).Some? {
      var home := HomePath(h);
      var p := home + [FallbackName(loc).value];
      assert p[..|home|] == home;
    }
  }

  /** `user-dirs.dirs` in the configuration directory; by default
      ~/.config/user-dirs.dirs. */
  function UserDirsFile(h: Host): (p: Path)
    ensures |p| >= 1 && p[|p| - 1] == "user-dirs.dirs"
    ensures "XDG_CONFIG_HOME" !in h.environ && h.home != "" ==>
      p == ParsePath(h.home) + [".config", "user-dirs.dirs"]
  {
    if "XDG_CONFIG_HOME" !in h.environ && h.home != "" then
      ConfigDefault(h);
      ConfigPath(h) + ["user-dirs.dirs"]
    else ConfigPath(h) + ["user-dirs.dirs"]
  }

  /** The user-dirs branch of `get_writable_path`: read the file (a
      missing file raises), then look the kind up. */
  function UserDirLocation(h: Host, loc: Location): (r: Result<Path>)
    ensures h.readLines(UserDirsFile(h)).None? <==> r.Err?
    ensures r.Err? ==> r.error == FileNotFound(UserDirsFile(h))
  {
    match h.readLines(UserDirsFile(h))
    case None => Err(FileNotFound(UserDirsFile(h)))
    case Some(fileLines) => Ok(UserDirPath(h, UserDirs(fileLines), loc))
  }

  // ---------------------------------------------------------------------
  // The runtime directory

  /** What the filesystem knows of a directory: its owner's name and its
      mode bits. */
  datatype Entry = Entry(owner: string, mode: nat)

  type Entries = map<Path, Entry>

  /** `st_mode & 0o777`. */
  function Perms(mode: nat): nat { mode % 512 }

  /** `stat.S_IRWXU`, 0o700. */
  const OwnerOnly: nat := 448

  function FallbackRuntimePath(h: Host): Path {
    TempPath(h) + ["runtime-" + h.userName]
  }

  predicate RuntimeFromEnv(h: Host) {
    "XDG_RUNTIME_DIR" in h.environ
  }

  /** The directory the runtime branch settles on. */
  function RuntimeCandidate(h: Host): Path {
    if RuntimeFromEnv(h) then GetPath(h, "XDG_RUNTIME_DIR", Raise).value else FallbackRuntimePath(h)
  }

  /** The ownership check and the forced mode. */
  function CheckRuntimeDir(h: Host, path: Path, fs: Entries): (Result<Path>, Entries) {
    if path !in fs then (Err(FileNotFound(path)), fs)
    else if fs[path].owner != h.userName then (Err(WrongOwnership(path, fs[path].owner, h.userName)), fs)
    else if Perms(fs[path].mode) != OwnerOnly then (Ok(path), fs[path := fs[path].(mode := OwnerOnly)])
    else (Ok(path), fs)
  }

  /** The runtime branch of `get_writable_path`: its result and the
      filesystem afterwards. */
  function RuntimeDir(h: Host, fs: Entries): (r: (Result<Path>, Entries))
    ensures fs.Keys <= r.1.Keys
    ensures r.0.Ok? ==> var path := r.0.value;
      path in r.1 && r.1[path].owner == h.userName && Perms(r.1[path].mode) == OwnerOnly
    ensures r.0.Err? ==> r.1 == fs
  {
    var fromEnv := GetPath(h, "XDG_RUNTIME_DIR", Raise);
    if fromEnv.Ok? then CheckRuntimeDir(h, fromEnv.value, fs)
    else
      var path := FallbackRuntimePath(h);
      if path in fs then CheckRuntimeDir(h, path, fs)
      else if TempPath(h) !in fs then (Err(FileNotFound(path)), fs)
      else CheckRuntimeDir(h, path, fs[path := Entry(h.userName, h.mkdirMode)])
  }

  /** Only the candidate directory can change; the fallback is created
      only when missing and its parent exists; on success the directory is
      the user's and has mode bits 0o700; a foreign owner is a
      `LocationError`, anything else that fails a missing directory. */
  lemma RuntimeDirSpec(h: Host, fs: Entries)
    ensures var out := RuntimeDir(h, fs);
      var c := RuntimeCandidate(h);
      && out.1 - {c} == fs - {c}
      && (c in fs ==> out.1.Keys == fs.Keys && out.1[c].owner == fs[c].owner)
      && (c !in fs ==> (c in out.1 <==> !RuntimeFromEnv(h) && TempPath(h) in fs))
      && (out.0.Ok? <==> if c in fs then fs[c].owner == h.userName else !RuntimeFromEnv(h) && TempPath(h) in fs)
      && (out.0.Ok? ==> out.0.value == c && c in out.1 && out.1[c].owner == h.userName && Perms(out.1[c].mode) == OwnerOnly)
      && (out.0.Err? ==> (out.0.error.IsLocationError() <==> c in fs && fs[c].owner != h.userName))
      && (out.0.Err? && !out.0.error.IsLocationError() ==> out.0.error == FileNotFound(c))
  {
    assert Perms(OwnerOnly) == OwnerOnly;
  }

  /** A second call right after a successful one returns the same
      directory and changes nothing more. */
  lemma RuntimeDirIdempotent(h: Host, fs: Entries)
    requires RuntimeDir(h, fs).0.Ok?
    ensures RuntimeDir(h, RuntimeDir(h, fs).1) == (RuntimeDir(h, fs).0, RuntimeDir(h, fs).1)
  {
    RuntimeDirSpec(h, fs);
    var c := RuntimeCandidate(h);
    var after := RuntimeDir(h, fs).1;
    RuntimeDirSpec(h, after);
    assert c in after && after[c].owner == h.userName && Perms(after[c].mode) == OwnerOnly;
  }

  /** An existing `$XDG_RUNTIME_DIR` owned by the user is returned, and
      its mode bits are 0o700 afterwards, whatever they were. */
  lemma RuntimeFromEnvOwned(h: Host, fs: Entries)
    requires RuntimeFromEnv(h)
    requires RuntimeCandidate(h) in fs && fs[RuntimeCandidate(h)].owner == h.userName
    ensures RuntimeDir(h, fs).0 == Ok(GetPath(h, "XDG_RUNTIME_DIR", Raise).value)
    ensures Perms(RuntimeDir(h, fs).1[RuntimeCandidate(h)].mode) == OwnerOnly
    ensures RuntimeDir(h, fs).1.Keys == fs.Keys
  {
    RuntimeDirSpec(h, fs);
  }

  /** The directories the process can see, as the runtime branch uses
      them: `exists`, `owner`, `stat`, `mkdir`, `chmod`. */
  class FileSystem {
    var entries: Entries

    constructor (initial: Entries)
      ensures entries == initial
    {
      entries := initial;
    }

    /** `path.mkdir()` for a missing `path`: `FileNotFoundError` when the
        parent is missing, otherwise a directory of the effective user. */
    method Mkdir(path: Path, owner: string, mode: nat) returns (err: Option<Error>)
      requires |path| > 0 && path !in entries
      modifies this
      ensures path[..|path| - 1] !in old(entries) ==> err == Some(FileNotFound(path)) && entries == old(entries)
      ensures path[..|path| - 1] in old(entries) ==> err == None && entries == old(entries)[path := Entry(owner, mode)]
    {
      if path[..|path| - 1] !in entries {
        err := Some(FileNotFound(path));
      } else {
        entries := entries[path := Entry(owner, mode)];
        err := None;
      }
    }

    /** `path.chmod(mode)` on an existing path. */
    method Chmod(path: Path, mode: nat)
      requires path in entries
      modifies this
      ensures entries == old(entries)[path := old(entries)[path].(mode := mode)]
    {
      entries := entries[path := entries[path].(mode := mode)];
    }

    /** The runtime branch, step by step. */
    method EnsureRuntimeDir(h: Host) returns (r: Result<Path>)
      modifies this
      ensures r == RuntimeDir(h, old(entries)).0
      ensures entries == RuntimeDir(h, old(entries)).1
    {
      var path: Path;
      var fromEnv := GetPath(h, "XDG_RUNTIME_DIR", Raise);
      if fromEnv.Ok? {
        path := fromEnv.value;
      } else {
        path := FallbackRuntimePath(h);
        assert path[..|path| - 1] == TempPath(h);
        if path !in entries {
          var err := Mkdir(path, h.userName, h.mkdirMode);
          if err.Some? {
            return Err(err.value);
          }
        }
      }
      if path !in entries {
        return Err(FileNotFound(path));
      }
      var owner := entries[path].owner;
      if owner != h.userName {
        return Err(WrongOwnership(path, owner, h.userName));
      }
      if Perms(entries[path].mode) != OwnerOnly {
        Chmod(path, OwnerOnly);
      }
      return Ok(path);
    }
  }

  // ---------------------------------------------------------------------
  // get_writable_path and get_standard_paths

  /** `get_writable_path(location, config)` given the filesystem before
      the call. */
  function WritablePath(h: Host, fs: Entries, loc: Location, config: Option<Config>, global: Config): (r: Result<Path>)
    ensures loc != Runtime && loc !in UserDirKinds ==> r.Ok?
    ensures r.Err? && loc != Runtime ==> r.error == FileNotFound(UserDirsFile(h))
  {
    match loc
    case Home => Ok(HomePath(h))
    case Temp => Ok(TempPath(h))
    case GenericCache => Ok(GenericCachePath(h))
    case Cache => Ok(AppendOrgAndApp(GenericCachePath(h), config, global))
    case GenericData => Ok(GenericDataPath(h))
    case AppData => Ok(AppendOrgAndApp(GenericDataPath(h), config, global))
    case Data => Ok(AppendOrgAndApp(GenericDataPath(h), config, global))
    case Config => Ok(ConfigPath(h))
    case GenericConfig => Ok(ConfigPath(h))
    case Runtime => RuntimeDir(h, fs).0
    case _ => UserDirLocation(h, loc)
  }

  /** The call fails only in the runtime branch or when the user-dirs
      file is missing for a user-dirs kind. */
  lemma WritablePathFails(h: Host, fs: Entries, loc: Location, config: Option<Config>, global: Config)
    ensures WritablePath(h, fs, loc, config, global).Err? <==>
      (loc == Runtime && RuntimeDir(h, fs).0.Err?) || (loc in UserDirKinds && h.readLines(UserDirsFile(h)).None?)
  {
    if loc in UserDirKinds {
      UserDirsBranch(h, fs, loc, config, global);
    }
  }

  /** `home` is the expanded "~" and `temp` the host's temporary directory. */
  lemma WritablePathHomeTemp(h: Host, fs: Entries, config: Option<Config>, global: Config)
    ensures WritablePath(h, fs, Home, config, global) == Ok(ParsePath(ExpandUser(h.home, "~")))
    ensures WritablePath(h, fs, Temp, config, global) == Ok(ParsePath(h.tempDir))
  {
  }

  /** `runtime` is what the runtime-directory resolution gives. */
  lemma WritablePathRuntime(h: Host, fs: Entries, config: Option<Config>, global: Config)
    ensures WritablePath(h, fs, Runtime, config, global) == RuntimeDir(h, fs).0
  {
  }

  /** `generic_cache`: `XDG_CACHE_HOME` expanded and parsed when it is set, otherwise
      ".cache" under the parsed home directory. */
  lemma WritablePathGenericCache(h: Host, fs: Entries, config: Option<Config>, global: Config)
    ensures "XDG_CACHE_HOME" in h.environ ==>
      WritablePath(h, fs, GenericCache, config, global) == Ok(ParsePath(ExpandUser(h.home, h.environ["XDG_CACHE_HOME"])))
    ensures "XDG_CACHE_HOME" !in h.environ && h.home != "" ==>
      WritablePath(h, fs, GenericCache, config, global) == Ok(ParsePath(h.home) + [".cache"])
  {
    if "XDG_CACHE_HOME" !in h.environ && h.home != "" {
      CacheDefault(h);
    }
  }

  /** `generic_data`: `XDG_DATA_HOME` expanded and parsed when it is set, otherwise
      ".local/share" under the parsed home directory. */
  lemma WritablePathGenericData(h: Host, fs: Entries, config: Option<Config>, global: Config)
    ensures "XDG_DATA_HOME" in h.environ ==>
      WritablePath(h, fs, GenericData, config, global) == Ok(ParsePath(ExpandUser(h.home, h.environ["XDG_DATA_HOME"])))
    ensures "XDG_DATA_HOME" !in h.environ && h.home != "" ==>
      WritablePath(h, fs, GenericData, config, global) == Ok(ParsePath(h.home) + [".local", "share"])
  {
    if "XDG_DATA_HOME" !in h.environ && h.home != "" {
      DataDefault(h);
    }
  }

  /** `config` and `generic_config`: `XDG_CONFIG_HOME` expanded and parsed when it is set, otherwise
      ".config" under the parsed home directory. */
  lemma WritablePathConfig(h: Host, fs: Entries, config: Option<Config>, global: Config)
    ensures "XDG_CONFIG_HOME" in h.environ ==>
      WritablePath(h, fs, Config, config, global) == Ok(ParsePath(ExpandUser(h.home, h.environ["XDG_CONFIG_HOME"])))
    ensures "XDG_CONFIG_HOME" !in h.environ && h.home != "" ==>
      WritablePath(h, fs, Config, config, global) == Ok(ParsePath(h.home) + [".config"])
  {
    if "XDG_CONFIG_HOME" !in h.environ && h.home != "" {
      ConfigDefault(h);
    }
  }

  /** A variable that is set but empty is taken as it is: `Path('')`, whose
      parts are empty, although home-relative defaults exist. */
  lemma EmptyVariableGivesEmptyPath(h: Host, fs: Entries, config: Option<Config>, global: Config)
    ensures "XDG_CACHE_HOME" in h.environ && h.environ["XDG_CACHE_HOME"] == "" ==>
      WritablePath(h, fs, GenericCache, config, global) == Ok([])
    ensures "XDG_DATA_HOME" in h.environ && h.environ["XDG_DATA_HOME"] == "" ==>
      WritablePath(h, fs, GenericData, config, global) == Ok([])
    ensures "XDG_CONFIG_HOME" in h.environ && h.environ["XDG_CONFIG_HOME"] == "" ==>
      WritablePath(h, fs, Config, config, global) == Ok([])
  {
    assert ExpandUser(h.home, "") == "";
    assert Split("", '/') == [""];
    assert ParsePath("") == [];
  }

  /** The filesystem after the call: only `runtime` changes it. */
  function Effect(h: Host, fs: Entries, loc: Location): Entries {
    if loc == Runtime then RuntimeDir(h, fs).1 else fs
  }

  /** `cache` is `generic_cache` plus the organisation and application. */
  lemma CacheUnderGenericCache(h: Host, fs: Entries, config: Option<Config>, global: Config)
    ensures WritablePath(h, fs, Cache, config, global)
      == Ok(AppendOrgAndApp(WritablePath(h, fs, GenericCache, None, global).value, config, global))
  {
  }

  /** `app_data` is `generic_data` plus the organisation and application. */
  lemma AppDataUnderGenericData(h: Host, fs: Entries, config: Option<Config>, global: Config)
    ensures WritablePath(h, fs, AppData, config, global)
      == Ok(AppendOrgAndApp(WritablePath(h, fs, GenericData, None, global).value, config, global))
  {
  }

  /** `data` (alias `app_local_data`) is the same directory as `app_data`. */
  lemma AppLocalDataIsAppData(h: Host, fs: Entries, config: Option<Config>, global: Config)
    ensures WritablePath(h, fs, AppLocalData, config, global) == WritablePath(h, fs, AppData, config, global)
  {
  }

  /** `config` and `generic_config` are one directory. */
  lemma ConfigKindsCoincide(h: Host, fs: Entries, config: Option<Config>, global: Config)
    ensures WritablePath(h, fs, Config, config, global) == WritablePath(h, fs, GenericConfig, config, global)
  {
  }

  /** Every user-dirs kind, `fonts`, `applications` and `log` included,
      goes through the file, so a missing file is an error for each. */
  lemma UserDirsBranch(h: Host, fs: Entries, loc: Location, config: Option<Config>, global: Config)
    requires loc in UserDirKinds
    ensures WritablePath(h, fs, loc, config, global) == UserDirLocation(h, loc)
  {
    match loc
    case Desktop => case Documents => case Fonts => case Applications => case Music =>
    case Movies => case Pictures => case Download => case Log =>
  }

  /** `XDG_CONFIG_DIRS` (default "/etc/xdg") split on ':' and taken verbatim. */
  function ConfigDirs(h: Host): (r: seq<Path>)
    ensures var pieces := Split(GetPathStr(h.environ, "XDG_CONFIG_DIRS", Value("/etc/xdg")).value, ':');
      |r| == |pieces| && forall i :: 0 <= i < |r| ==> r[i] == ParsePath(pieces[i])
  {
    var pieces := Split(GetPathStr(h.environ, "XDG_CONFIG_DIRS", Value("/etc/xdg")).value, ':');
    seq(|pieces|, i requires 0 <= i < |pieces| => ParsePath(pieces[i]))
  }

  /** What `get_standard_paths` appends after the writable path. */
  function ExtraPaths(h: Host, loc: Location, config: Option<Config>, global: Config): (r: seq<Path>)
    ensures loc in {Config, GenericConfig} ==> r == ConfigDirs(h)
    ensures loc in {GenericData, Applications, AppData, Data} ==> |r| == |XdgDataDirs(h.environ)|
    ensures loc == GenericData ==> r == XdgDataDirs(h.environ)
    ensures loc == Applications ==> forall i :: 0 <= i < |r| ==> r[i] == XdgDataDirs(h.environ)[i] + ["applications"]
    ensures loc in {AppData, Data} ==>
      forall i :: 0 <= i < |r| ==> r[i] == AppendOrgAndApp(XdgDataDirs(h.environ)[i], config, global)
    ensures loc !in {Config, GenericConfig, GenericData, Applications, AppData, Data} ==> r == []
  {
    var dataDirs := XdgDataDirs(h.environ);
    match loc
    case Config => ConfigDirs(h)
    case GenericConfig => ConfigDirs(h)
    case GenericData => dataDirs
    case Applications => seq(|dataDirs|, i requires 0 <= i < |dataDirs| => dataDirs[i] + ["applications"])
    case AppData => seq(|dataDirs|, i requires 0 <= i < |dataDirs| => AppendOrgAndApp(dataDirs[i], config, global))
    case Data => seq(|dataDirs|, i requires 0 <= i < |dataDirs| => AppendOrgAndApp(dataDirs[i], config, global))
    case _ => []
  }

  /** `get_standard_paths(location, config)` given the filesystem before
      the call: the writable path first, then the search directories. */
  function StandardPaths(h: Host, fs: Entries, loc: Location, config: Option<Config>, global: Config): (r: Result<seq<Path>>)
    ensures r.Ok? <==> WritablePath(h, fs, loc, config, global).Ok?
    ensures r.Ok? ==> |r.value| >= 1 && r.value[0] == WritablePath(h, fs, loc, config, global).value
    ensures r.Ok? && loc !in {Config, GenericConfig, GenericData, Applications, AppData, Data} ==> |r.value| == 1
    ensures r.Ok? && loc in {Config, GenericConfig} ==> r.value[1..] == ConfigDirs(h)
    ensures r.Ok? && loc == GenericData ==> r.value[1..] == XdgDataDirs(h.environ)
    ensures r.Ok? && loc in {Applications, AppData, Data} ==> |r.value| == 1 + |XdgDataDirs(h.environ)|
    ensures r.Ok? && loc == Applications ==> var extra := r.value[1..];
      forall i :: 0 <= i < |extra| ==> extra[i] == XdgDataDirs(h.environ)[i] + ["applications"]
    ensures r.Ok? && loc in {AppData, Data} ==> var extra := r.value[1..];
      forall i :: 0 <= i < |extra| ==> extra[i] == AppendOrgAndApp(XdgDataDirs(h.environ)[i], config, global)
  {
    var writable :- WritablePath(h, fs, loc, config, global);
    var extra := ExtraPaths(h, loc, config, global);
    assert ([writable] + extra)[1..] == extra;
    Ok([writable] + extra)
  }

  /** With `XDG_DATA_DIRS` unset or empty, the generic data list is the
      writable path, then "/usr/local/share", then the relative "usr/share". */
  lemma GenericDataDefaultList(h: Host, fs: Entries, config: Option<Config>, global: Config)
    requires !DataDirsSet(h.environ)
    ensures StandardPaths(h, fs, GenericData, config, global)
      == Ok([GenericDataPath(h), ["/", "usr", "local", "share"], ["usr", "share"]])
  {
    assert ExtraPaths(h, GenericData, config, global) == DefaultDataDirs;
    assert [GenericDataPath(h)] + DefaultDataDirs
      == [GenericDataPath(h), ["/", "usr", "local", "share"], ["usr", "share"]];
  }

  lemma EtcXdgParts()
    ensures ParsePath("/etc/xdg") == ["/", "etc", "xdg"]
  {
    RootTwoNames("etc", "xdg");
    assert "/" + "etc" + "/" + "xdg" == "/etc/xdg";
  }

  /** With `XDG_CONFIG_DIRS` unset, the config list ends with "/etc/xdg". */
  lemma ConfigDefaultList(h: Host, fs: Entries, config: Option<Config>, global: Config)
    requires "XDG_CONFIG_DIRS" !in h.environ
    ensures StandardPaths(h, fs, Config, config, global) == Ok([ConfigPath(h), ["/", "etc", "xdg"]])
  {
    assert StandardPaths(h, fs, Config, config, global) == Ok([ConfigPath(h)] + ConfigDirs(h));
    ConfigDirsDefault(h);
    assert [ConfigPath(h)] + [["/", "etc", "xdg"]] == [ConfigPath(h), ["/", "etc", "xdg"]];
  }

  lemma ConfigDirsDefault(h: Host)
    requires "XDG_CONFIG_DIRS" !in h.environ
    ensures ConfigDirs(h) == [["/", "etc", "xdg"]]
  {
    SplitWithoutSep("/etc/xdg", ':');
    EtcXdgParts();
  }

  /** The user-dirs branch, reading the file line by line. */
  method ReadUserDir(h: Host, loc: Location) returns (r: Result<Path>)
    ensures r == UserDirLocation(h, loc)
  {
    var file := UserDirsFile(h);
    var content := h.readLines(file);
    if content.None? {
      return Err(FileNotFound(file));
    }
    var lines := ParseUserDirs(content.value);
    r := Ok(UserDirPath(h, lines, loc));
  }

  /** `get_writable_path`, changing the filesystem for `runtime`. */
  method GetWritablePath(fs: FileSystem, h: Host, loc: Location, config: Option<Config>, global: Config)
    returns (r: Result<Path>)
    modifies fs
    ensures r == WritablePath(h, old(fs.entries), loc, config, global)
    ensures fs.entries == Effect(h, old(fs.entries), loc)
  {
    if loc == Runtime {
      r := fs.EnsureRuntimeDir(h);
    } else {
      r := ResolveElsewhere(h, fs.entries, loc, config, global);
    }
  }

  /** Every branch of `get_writable_path` but `runtime`; none of them
      touches the filesystem. */
  method ResolveElsewhere(h: Host, ghost fs: Entries, loc: Location, config: Option<Config>, global: Config)
    returns (r: Result<Path>)
    requires loc != Runtime
    ensures r == WritablePath(h, fs, loc, config, global)
  {
    match loc
    case Home => r := Ok(HomePath(h));
    case Temp => r := Ok(TempPath(h));
    case GenericCache => r := Ok(GenericCachePath(h));
    case Cache => r := Ok(AppendOrgAndApp(GenericCachePath(h), config, global));
    case GenericData => r := Ok(GenericDataPath(h));
    case AppData | Data => r := Ok(AppendOrgAndApp(GenericDataPath(h), config, global));
    case Config | GenericConfig => r := Ok(ConfigPath(h));
    case Desktop | Documents | Fonts | Applications | Music | Movies | Pictures | Download | Log =>
      r := ReadUserDir(h, loc);
      UserDirsBranch(h, fs, loc, config, global);
  }

  /** `get_standard_paths`. */
  method GetStandardPaths(fs: FileSystem, h: Host, loc: Location, config: Option<Config>, global: Config)
    returns (r: Result<seq<Path>>)
    modifies fs
    ensures r == StandardPaths(h, old(fs.entries), loc, config, global)
    ensures fs.entries == Effect(h, old(fs.entries), loc)
  {
    var writable := GetWritablePath(fs, h, loc, config, global);
    if writable.Err? {
      return Err(writable.error);
    }
    r := Ok([writable.value] + ExtraPaths(h, loc, config, global));
  }

  /** The writable path depends on the caller's `config` only through the
      identity in effect. */
  lemma WritableDependsOnEffective(h: Host, fs: Entries, loc: Location, c1: Option<Config>, c2: Option<Config>, global: Config)
    requires Effective(c1, global) == Effective(c2, global)
    ensures WritablePath(h, fs, loc, c1, global) == WritablePath(h, fs, loc, c2, global)
  {
    match loc
    case Cache =>
      assert AppendOrgAndApp(GenericCachePath(h), c1, global) == AppendOrgAndApp(GenericCachePath(h), c2, global);
    case AppData =>
      assert AppendOrgAndApp(GenericDataPath(h), c1, global) == AppendOrgAndApp(GenericDataPath(h), c2, global);
    case Data =>
      assert AppendOrgAndApp(GenericDataPath(h), c1, global) == AppendOrgAndApp(GenericDataPath(h), c2, global);
    case _ =>
  }

  /** So do the search directories. */
  lemma ExtraPathsDependOnEffective(h: Host, loc: Location, c1: Option<Config>, c2: Option<Config>, global: Config)
    requires Effective(c1, global) == Effective(c2, global)
    ensures ExtraPaths(h, loc, c1, global) == ExtraPaths(h, loc, c2, global)
  {
    var dataDirs := XdgDataDirs(h.environ);
    assert forall i :: 0 <= i < |dataDirs| ==>
      AppendOrgAndApp(dataDirs[i], c1, global) == AppendOrgAndApp(dataDirs[i], c2, global);
  }

  /** The caller's `config` matters only through the identity in effect:
      `None` resolves exactly as the current global identity. */
  lemma OnlyEffectiveConfigMatters(h: Host, fs: Entries, loc: Location, c1: Option<Config>, c2: Option<Config>, global: Config)
    requires Effective(c1, global) == Effective(c2, global)
    ensures WritablePath(h, fs, loc, c1, global) == WritablePath(h, fs, loc, c2, global)
    ensures StandardPaths(h, fs, loc, c1, global) == StandardPaths(h, fs, loc, c2, global)
  {
    WritableDependsOnEffective(h, fs, loc, c1, c2, global);
    ExtraPathsDependOnEffective(h, loc, c1, c2, global);
  }
}
