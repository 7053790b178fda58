/** Model of standardpaths/osx.py: the resolver for macOS, which asks the
    Carbon folder manager (`FSFindFolder`, `FSRefMakePath`) and, for the
    downloads folder, Foundation's `NSFileManager`. The native services
    are functions of the `Host`. */
module Osx {
  import opened Base
  import opened PosixPath

  type byte = b: int | 0 <= b < 256

  // ---------------------------------------------------------------------
  // Multi-character constants

  function Pow256(n: nat): (p: nat)
    ensures p >= 1
  {
    if n == 0 then 1 else 256 * Pow256(n - 1)
  }

  function Reverse(bs: seq<byte>): (r: seq<byte>)
    ensures |r| == |bs|
    ensures forall i :: 0 <= i < |bs| ==> r[i] == bs[|bs| - 1 - i]
  {
    if bs == [] then [] else [bs[|bs| - 1]] + Reverse(bs[..|bs| - 1])
  }

  /** The first `n` terms of the sum in `_bti`: byte `i` of the reversed
      bytes weighs 256^i. */
  function WeightedSum(rbs: seq<byte>, n: nat): nat
    requires n <= |rbs|
  {
    if n == 0 then 0 else WeightedSum(rbs, n - 1) + rbs[n - 1] * Pow256(n - 1)
  }

  /** `_bti(bs)`: the value of a C multi-character literal, which is the
      big-endian reading of the bytes and so below 256^|bs|. */
  function Bti(bs: seq<byte>): (n: nat)
    ensures n == BigEndian(bs)
    ensures n < Pow256(|bs|)
  {
    ReversedSumIsBigEndian(bs);
    WeightedSum(Reverse(bs), |bs|)
  }

  /** The reading of the bytes as a big-endian number. */
  function BigEndian(bs: seq<byte>): (n: nat)
    ensures n < Pow256(|bs|)
  {
    if bs == [] then 0 else BigEndian(bs[..|bs| - 1]) * 256 + bs[|bs| - 1]
  }

  /** Prepending a byte to the reversed bytes shifts the sum by one place. */
  lemma {:induction false} WeightedSumShift(x: byte, rbs: seq<byte>, n: nat)
    requires n <= |rbs|
    ensures WeightedSum([x] + rbs, n + 1) == x + 256 * WeightedSum(rbs, n)
  {
    if n > 0 {
      WeightedSumShift(x, rbs, n - 1);
      assert ([x] + rbs)[n] == rbs[n - 1];
      calc {
        WeightedSum([x] + rbs, n + 1);
        WeightedSum([x] + rbs, n) + rbs[n - 1] * Pow256(n);
        x + 256 * WeightedSum(rbs, n - 1) + rbs[n - 1] * (256 * Pow256(n - 1));
        { assert rbs[n - 1] * (256 * Pow256(n - 1)) == 256 * (rbs[n - 1] * Pow256(n - 1)); }
        x + 256 * WeightedSum(rbs, n);
      }
    }
  }

  /** Weighting the reversed bytes by increasing powers of 256 is the
      big-endian reading. */
  lemma {:induction false} ReversedSumIsBigEndian(bs: seq<byte>)
    ensures WeightedSum(Reverse(bs), |bs|) == BigEndian(bs)
  {
    if bs != [] {
      var init, last := bs[..|bs| - 1], bs[|bs| - 1];
      ReversedSumIsBigEndian(init);
      assert Reverse(bs) == [last] + Reverse(init);
      WeightedSumShift(last, Reverse(init), |init|);
    }
  }

  /** For a fixed length the value determines the bytes. */
  lemma {:induction false} BigEndianInjective(a: seq<byte>, b: seq<byte>)
    requires |a| == |b| && BigEndian(a) == BigEndian(b)
    ensures a == b
  {
    if a != [] {
      var n := |a| - 1;
      var x, y := BigEndian(a[..n]), BigEndian(b[..n]);
      assert x * 256 + a[n] == y * 256 + b[n];
      BigEndianInjective(a[..n], b[..n]);
      assert a == a[..n] + [a[n]] && b == b[..n] + [b[n]];
    }
  }

  /** The bytes of an ASCII string. */
  function Ascii(s: string): (bs: seq<byte>)
    requires forall i :: 0 <= i < |s| ==> s[i] as int < 256
    ensures |bs| == |s| && forall i :: 0 <= i < |s| ==> bs[i] == s[i] as int
  {
    if s == [] then [] else Ascii(s[..|s| - 1]) + [s[|s| - 1] as int]
  }

  /** The folder manager's constants (CoreServices/CarbonCore/Folders.h). */
  const OnAppropriateDisk: int := -32767
  const UserDomain: int := -32763

  /** The folder types, `_bti` of their four-character codes (see
      `SupportFolderTypeCodes` and the two lemmas after it), written as numbers. */
  const ApplicationsFolderType: nat := 0x61707073        // 'apps'
  const ApplicationSupportFolderType: nat := 0x61737570  // 'asup'
  const CachedDataFolderType: nat := 0x63616368          // 'cach'
  const DesktopFolderType: nat := 0x6465736b             // 'desk'
  const DocumentsFolderType: nat := 0x646f6373           // 'docs'
  const FontsFolderType: nat := 0x666f6e74               // 'font'
  const MovieDocumentsFolderType: nat := 0x6d646f63      // 'mdoc'
  const MusicDocumentsFolderType: nat := 0xb5646f63      // 'µdoc', written out in the source too
  const PictureDocumentsFolderType: nat := 0x70646f63    // 'pdoc'
  const PreferencesFolderType: nat := 0x70726566         // 'pref'
  const TemporaryFolderType: nat := 0x74656d70           // 'temp'

  /** The big-endian value of four bytes. */
  lemma {:induction false} FourBytes(bs: seq<byte>)
    requires |bs| == 4
    ensures Bti(bs) == bs[0] as int * 0x1000000 + bs[1] as int * 0x10000 + bs[2] as int * 0x100 + bs[3] as int
  {
    var b3, b2, b1 := bs[..3], bs[..2], bs[..1];
    assert b3[..2] == b2 && b2[..1] == b1 && b1[..0] == [];
    assert BigEndian(b1) == bs[0];
    assert BigEndian(b2) == bs[0] as int * 0x100 + bs[1] as int;
    assert BigEndian(b3) == bs[0] as int * 0x10000 + bs[1] as int * 0x100 + bs[2] as int;
  }

  /** A four-character code is its characters read as a big-endian number. */
  lemma FourCharCode(s: string)
    requires |s| == 4 && forall i :: 0 <= i < 4 ==> s[i] as int < 256
    ensures Bti(Ascii(s)) == s[0] as int * 0x1000000 + s[1] as int * 0x10000 + s[2] as int * 0x100 + s[3] as int
  {
    FourBytes(Ascii(s));
  }

  /** The folder types of the data, cache and preference folders are
      `_bti` of their codes. */
  lemma SupportFolderTypeCodes()
    ensures ApplicationSupportFolderType == Bti(Ascii("asup"))
    ensures CachedDataFolderType == Bti(Ascii("cach"))
    ensures PreferencesFolderType == Bti(Ascii("pref"))
  {
    FourCharCode("asup");
    FourCharCode("cach");
    FourCharCode("pref");
  }

  /** The document folder types are `_bti` of their codes, the music one
      included, whose first byte is 0xb5. */
  lemma DocumentFolderTypeCodes()
    ensures DocumentsFolderType == Bti(Ascii("docs"))
    ensures MovieDocumentsFolderType == Bti(Ascii("mdoc"))
    ensures MusicDocumentsFolderType == Bti([0xb5] + Ascii("doc"))
    ensures PictureDocumentsFolderType == Bti(Ascii("pdoc"))
  {
    FourCharCode("docs");
    FourCharCode("mdoc");
    FourBytes([0xb5] + Ascii("doc"));
    FourCharCode("pdoc");
  }

  /** The remaining folder types are `_bti` of their codes. */
  lemma OtherFolderTypeCodes()
    ensures ApplicationsFolderType == Bti(Ascii("apps"))
    ensures DesktopFolderType == Bti(Ascii("desk"))
    ensures FontsFolderType == Bti(Ascii("font"))
    ensures TemporaryFolderType == Bti(Ascii("temp"))
  {
    FourCharCode("apps");
    FourCharCode("desk");
    FourCharCode("font");
    FourCharCode("temp");
  }

  /** Distinct four-character codes give distinct folder types. */
  lemma FolderTypesDistinct(s: string, t: string)
    requires |s| == |t| && s != t
    requires forall i :: 0 <= i < |s| ==> s[i] as int < 256
    requires forall i :: 0 <= i < |t| ==> t[i] as int < 256
    ensures Bti(Ascii(s)) != Bti(Ascii(t))
  {
    if BigEndian(Ascii(s)) == BigEndian(Ascii(t)) {
      BigEndianInjective(Ascii(s), Ascii(t));
    }
  }

  // ---------------------------------------------------------------------
  // Native services

  /** The 80 opaque bytes `FSFindFolder` fills in. */
  datatype FSRef = FSRef(hidden: seq<byte>)

  /** What `URLForDirectory:inDomain:appropriateForURL:create:error:`
      gives: a URL with its `path`, or nil and the error's
      `localizedDescription`. */
  datatype DownloadsUrl = Url(path: string) | NoUrl(description: string)

  datatype Host = Host(
    home: string,                              // what `~` expands to
    tempDir: string,                           // tempfile.gettempdir()
    findFolder: (int, nat) -> (int, FSRef),    // FSFindFolder(domain, type): status, ref
    makePath: FSRef -> (int, string),          // FSRefMakePath(ref): status, the decoded path
    downloads: DownloadsUrl)                   // the downloads directory, user domain

  /** The folder-type table of `_get_path`; kinds not in it get the
      desktop. */
  function FolderType(loc: Location): (t: nat)
    ensures t == PreferencesFolderType <==> loc in {Config, GenericConfig}
    ensures t == ApplicationSupportFolderType <==> loc in {GenericData, Runtime, AppData, Data}
    ensures t == CachedDataFolderType <==> loc in {GenericCache, Cache}
    ensures t == DesktopFolderType <==> loc in {Desktop, Home, Download, Log}
  {
    match loc
    case Config => PreferencesFolderType
    case GenericConfig => PreferencesFolderType
    case Desktop => DesktopFolderType
    case Documents => DocumentsFolderType
    case Fonts => FontsFolderType
    case Applications => ApplicationsFolderType
    case Music => MusicDocumentsFolderType
    case Movies => MovieDocumentsFolderType
    case Pictures => PictureDocumentsFolderType
    case Temp => TemporaryFolderType
    case GenericData => ApplicationSupportFolderType
    case Runtime => ApplicationSupportFolderType
    case AppData => ApplicationSupportFolderType
    case Data => ApplicationSupportFolderType
    case GenericCache => CachedDataFolderType
    case Cache => CachedDataFolderType
    case _ => DesktopFolderType
  }

  /** The rest of the table: each remaining folder type serves exactly
      one kind. */
  lemma FolderTypeTable(loc: Location)
    ensures FolderType(loc) == DocumentsFolderType <==> loc == Documents
    ensures FolderType(loc) == FontsFolderType <==> loc == Fonts
    ensures FolderType(loc) == ApplicationsFolderType <==> loc == Applications
    ensures FolderType(loc) == MusicDocumentsFolderType <==> loc == Music
    ensures FolderType(loc) == MovieDocumentsFolderType <==> loc == Movies
    ensures FolderType(loc) == PictureDocumentsFolderType <==> loc == Pictures
    ensures FolderType(loc) == TemporaryFolderType <==> loc == Temp
  {
  }

  /** The kinds `get_writable_path` looks up in the user domain. */
  const UserDomainKinds: set<Location> := {GenericData, AppData, Data, GenericCache, Cache, Runtime}

  /** The domain table of `get_writable_path`. */
  function Domain(loc: Location): (d: int)
    ensures d == UserDomain <==> loc in UserDomainKinds
    ensures d == UserDomain || d == OnAppropriateDisk
  {
    match loc
    case GenericData => UserDomain
    case AppData => UserDomain
    case Data => UserDomain
    case GenericCache => UserDomain
    case Cache => UserDomain
    case Runtime => UserDomain
    case _ => OnAppropriateDisk
  }

  /** The kinds that get the organisation and application appended. */
  const OrgAppKinds: set<Location> := {AppData, Data, Cache}

  /** The folder-manager part of `_get_path`: find the folder, then its
      path; a non-zero status of either call is a `LocationError`. */
  function FolderPath(h: Host, loc: Location, domain: int): (r: Result<Path>)
    ensures r.Err? ==> r.error.NotResolved? && r.error.location == loc && r.error.code != 0
    ensures var found := h.findFolder(domain, FolderType(loc));
      var made := h.makePath(found.1);
      && (r.Ok? <==> found.0 == 0 && made.0 == 0)
      && (found.0 != 0 ==> r == Err(NotResolved(loc, found.0)))
      && (found.0 == 0 && made.0 != 0 ==> r == Err(NotResolved(loc, made.0)))
      && (r.Ok? ==> r.value == ParsePath(made.1))
  {
    var (status, ref) := h.findFolder(domain, FolderType(loc));
    if status != 0 then Err(NotResolved(loc, status))
    else
      var (status', text) := h.makePath(ref);
      if status' != 0 then Err(NotResolved(loc, status')) else Ok(ParsePath(text))
  }

  /** `_get_path(location, domain, config)`, the re-implementation of
      `macLocation`. */
  function MacLocation(h: Host, loc: Location, domain: int, config: Option<Config>, global: Config): (r: Result<Path>)
    ensures r.Err? ==> r.error.IsLocationError()
    ensures loc != Download ==> (r.Ok? <==> FolderPath(h, loc, domain).Ok?)
    ensures loc != Download && r.Ok? && loc in OrgAppKinds ==>
      r.value == AppendOrgAndApp(FolderPath(h, loc, domain).value, config, global)
    ensures loc != Download && r.Ok? && loc !in OrgAppKinds ==> r.value == FolderPath(h, loc, domain).value
  {
    if loc == Download then
      match h.downloads
      case Url(path) => Ok(ParsePath(path))
      case NoUrl(description) => Err(DownloadNotResolved(description))
    else
      var path :- FolderPath(h, loc, domain);
      if loc in OrgAppKinds then Ok(AppendOrgAndApp(path, config, global)) else Ok(path)
  }

  /** `get_writable_path(location, config)`. */
  function WritablePath(h: Host, loc: Location, config: Option<Config>, global: Config): (r: Result<Path>)
    ensures r.Err? ==> r.error.IsLocationError()
    ensures loc == Home ==> r == Ok(ParsePath(ExpandUser(h.home, "~")))
    ensures loc == Temp ==> r == Ok(ParsePath(h.tempDir))
    ensures loc !in {Home, Temp} ==> r == MacLocation(h, loc, Domain(loc), config, global)
  {
    if loc == Home then Ok(ParsePath(ExpandUser(h.home, "~")))
    else if loc == Temp then Ok(ParsePath(h.tempDir))
    else MacLocation(h, loc, Domain(loc), config, global)
  }

  /** Two kinds with one folder type find the same folder. */
  lemma SameFolder(h: Host, l1: Location, l2: Location, domain: int)
    requires FolderType(l1) == FolderType(l2)
    ensures FolderPath(h, l1, domain).Ok? <==> FolderPath(h, l2, domain).Ok?
    ensures FolderPath(h, l1, domain).Ok? ==> FolderPath(h, l1, domain).value == FolderPath(h, l2, domain).value
  {
  }

  /** `home` and `temp` never reach a native service: whatever the
      services answer, they resolve the same way. */
  lemma HomeAndTempAreLocal(h: Host, h': Host, config: Option<Config>, global: Config)
    requires h.home == h'.home && h.tempDir == h'.tempDir
    ensures WritablePath(h, Home, config, global) == WritablePath(h', Home, config, global)
    ensures WritablePath(h, Temp, config, global) == WritablePath(h', Temp, config, global)
  {
  }

  /** `download` depends on Foundation alone; a missing URL is a
      `LocationError` carrying its description. */
  lemma DownloadFromFoundation(h: Host, config: Option<Config>, global: Config)
    ensures h.downloads.Url? ==> WritablePath(h, Download, config, global) == Ok(ParsePath(h.downloads.path))
    ensures h.downloads.NoUrl? ==>
      WritablePath(h, Download, config, global) == Err(DownloadNotResolved(h.downloads.description))
  {
  }

  /** `cache` is the `generic_cache` folder plus the organisation and
      application: one folder lookup, and the same failure. */
  lemma CacheUnderGenericCache(h: Host, config: Option<Config>, global: Config)
    ensures WritablePath(h, Cache, config, global).Ok? <==> WritablePath(h, GenericCache, config, global).Ok?
    ensures WritablePath(h, Cache, config, global).Ok? ==>
      WritablePath(h, Cache, config, global).value
        == AppendOrgAndApp(WritablePath(h, GenericCache, config, global).value, config, global)
  {
    SameFolder(h, Cache, GenericCache, UserDomain);
  }

  /** `app_data`, `data` (`app_local_data`) and `runtime` share the
      application-support folder of `generic_data`; only the first two add
      the organisation and application. */
  lemma ApplicationSupportKinds(h: Host, loc: Location, config: Option<Config>, global: Config)
    requires loc == AppData || loc == Data || loc == Runtime
    ensures WritablePath(h, loc, config, global).Ok? <==> WritablePath(h, GenericData, config, global).Ok?
    ensures WritablePath(h, loc, config, global).Ok? && loc != Runtime ==>
      WritablePath(h, loc, config, global).value
        == AppendOrgAndApp(WritablePath(h, GenericData, config, global).value, config, global)
    ensures WritablePath(h, loc, config, global).Ok? && loc == Runtime ==>
      WritablePath(h, loc, config, global) == WritablePath(h, GenericData, config, global)
  {
    SameFolder(h, loc, GenericData, UserDomain);
  }

  /** A kind outside the table, such as `log`, is looked up as the
      desktop folder on the appropriate disk. */
  lemma UnlistedKindIsDesktop(h: Host, config: Option<Config>, global: Config)
    ensures WritablePath(h, Log, config, global).Ok? <==> WritablePath(h, Desktop, config, global).Ok?
    ensures WritablePath(h, Log, config, global).Ok? ==>
      WritablePath(h, Log, config, global) == WritablePath(h, Desktop, config, global)
  {
    SameFolder(h, Log, Desktop, OnAppropriateDisk);
  }

  /** The kinds whose list also tries the appropriate disk. */
  const AppropriateDiskKinds: set<Location> := {GenericData, AppData, Data, GenericCache, Cache}

  /** `get_standard_paths(location, config)`: the writable path resolved
      with the global config, then, for five kinds, the appropriate-disk
      lookup with the caller's config unless it raises `LocationError`. */
  function StandardPaths(h: Host, loc: Location, config: Option<Config>, global: Config): (r: Result<seq<Path>>)
    ensures r.Ok? <==> WritablePath(h, loc, None, global).Ok?
    ensures r.Err? ==> r.error.IsLocationError()
    ensures r.Ok? ==> 1 <= |r.value| <= 2 && r.value[0] == WritablePath(h, loc, None, global).value
    ensures r.Ok? && |r.value| == 2 <==>
      r.Ok? && loc in AppropriateDiskKinds && MacLocation(h, loc, OnAppropriateDisk, config, global).Ok?
    ensures r.Ok? && |r.value| == 2 ==> r.value[1] == MacLocation(h, loc, OnAppropriateDisk, config, global).value
  {
    var first :- WritablePath(h, loc, None, global);
    if loc in AppropriateDiskKinds then
      match MacLocation(h, loc, OnAppropriateDisk, config, global)
      case Ok(path) => Ok([first, path])
      case Err(_) => Ok([first])
    else Ok([first])
  }

  /** A lookup depends on the caller's `config` only through the identity
      in effect. */
  lemma MacLocationDependsOnEffective(h: Host, loc: Location, domain: int, c1: Option<Config>, c2: Option<Config>, global: Config)
    requires Effective(c1, global) == Effective(c2, global)
    ensures MacLocation(h, loc, domain, c1, global) == MacLocation(h, loc, domain, c2, global)
  {
    if loc != Download {
      var found := FolderPath(h, loc, domain);
      if found.Ok? {
        assert AppendOrgAndApp(found.value, c1, global) == AppendOrgAndApp(found.value, c2, global);
      }
    }
  }

  /** The caller's `config` matters only through the identity in effect:
      `None` resolves exactly as the current global identity. */
  lemma OnlyEffectiveConfigMatters(h: Host, loc: Location, c1: Option<Config>, c2: Option<Config>, global: Config)
    requires Effective(c1, global) == Effective(c2, global)
    ensures WritablePath(h, loc, c1, global) == WritablePath(h, loc, c2, global)
    ensures StandardPaths(h, loc, c1, global) == StandardPaths(h, loc, c2, global)
  {
    MacLocationDependsOnEffective(h, loc, Domain(loc), c1, c2, global);
    MacLocationDependsOnEffective(h, loc, OnAppropriateDisk, c1, c2, global);
  }
}
