/** Model of standardpaths/__init__.py: the two public entry points. Each
    turns its argument into a `Location` (by member name when it is not one
    already) and hands it, with the caller's identity, to the resolver of
    the running system. */
module Facade {
  import opened Base
  import Unix
  import Osx
  import Windows

  /** What a caller passes as `location`: a `Location` member, or any other
      object, given here by its `str()`. */
  datatype LocationArg = Member(location: Location) | Other(text: string)

  /** `Location[str(location)]` unless `location` already is a member. */
  function Coerce(arg: LocationArg): (r: Result<Location>)
    ensures arg.Member? ==> r == Ok(arg.location)
    ensures arg.Other? ==> r == FromName(arg.text)
  {
    match arg
    case Member(l) => Ok(l)
    case Other(text) => FromName(text)
  }

  /** The machine the library runs on: `platform.system()` and the native
      services of each resolver (only the one it selects is consulted). */
  datatype Machine = Machine(system: string, posix: Unix.Host, mac: Osx.Host, win: Windows.Host)

  /** Every path of a list, as a present value. */
  function AllPresent(ps: seq<Path>): (r: seq<Option<Path>>)
    ensures |r| == |ps|
    ensures forall i :: 0 <= i < |ps| ==> r[i] == Some(ps[i])
  {
    seq(|ps|, i requires 0 <= i < |ps| => Some(ps[i]))
  }

  /** `get_writable_path(location, config)`; `Ok(None)` is the `None` the
      Windows resolver can return. */
  function WritablePath(m: Machine, fs: Unix.Entries, global: Config, arg: LocationArg, config: Option<Config>)
    : (r: Result<Option<Path>>)
    ensures Coerce(arg).Err? ==> r == Err(Coerce(arg).error)
    ensures r.Ok? && r.value.None? ==> Implementation(m.system) == WindowsModule
    ensures Coerce(arg).Ok? && Implementation(m.system) == UnixModule ==>
      var p := Unix.WritablePath(m.posix, fs, Coerce(arg).value, config, global);
      (r.Ok? <==> p.Ok?) && (r.Ok? ==> r.value == Some(p.value)) && (r.Err? ==> r.error == p.error)
    ensures Coerce(arg).Ok? && Implementation(m.system) == OsxModule ==>
      var p := Osx.WritablePath(m.mac, Coerce(arg).value, config, global);
      (r.Ok? <==> p.Ok?) && (r.Ok? ==> r.value == Some(p.value)) && (r.Err? ==> r.error == p.error)
    ensures Coerce(arg).Ok? && Implementation(m.system) == WindowsModule ==>
      r == Windows.WritablePath(m.win, Coerce(arg).value, config, global)
  {
    var loc :- Coerce(arg);
    match Implementation(m.system)
    case UnixModule =>
      var p :- Unix.WritablePath(m.posix, fs, loc, config, global);
      Ok(Some(p))
    case OsxModule =>
      var p :- Osx.WritablePath(m.mac, loc, config, global);
      Ok(Some(p))
    case WindowsModule => Windows.WritablePath(m.win, loc, config, global)
  }

  /** `get_standard_paths(location, config)`. */
  function StandardPaths(m: Machine, fs: Unix.Entries, global: Config, arg: LocationArg, config: Option<Config>)
    : (r: Result<seq<Option<Path>>>)
    ensures Coerce(arg).Err? ==> r == Err(Coerce(arg).error)
    ensures Coerce(arg).Ok? && Implementation(m.system) == UnixModule ==>
      var ps := Unix.StandardPaths(m.posix, fs, Coerce(arg).value, config, global);
      && (r.Ok? <==> ps.Ok?) && (r.Err? ==> r.error == ps.error)
      && (r.Ok? ==> |r.value| == |ps.value| && forall i :: 0 <= i < |ps.value| ==> r.value[i] == Some(ps.value[i]))
    ensures Coerce(arg).Ok? && Implementation(m.system) == OsxModule ==>
      var ps := Osx.StandardPaths(m.mac, Coerce(arg).value, config, global);
      && (r.Ok? <==> ps.Ok?) && (r.Err? ==> r.error == ps.error)
      && (r.Ok? ==> |r.value| == |ps.value| && forall i :: 0 <= i < |ps.value| ==> r.value[i] == Some(ps.value[i]))
    ensures Coerce(arg).Ok? && Implementation(m.system) == WindowsModule ==>
      r == Windows.StandardPaths(m.win, Coerce(arg).value, config, global)
  {
    var loc :- Coerce(arg);
    match Implementation(m.system)
    case UnixModule =>
      var ps :- Unix.StandardPaths(m.posix, fs, loc, config, global);
      Ok(AllPresent(ps))
    case OsxModule =>
      var ps :- Osx.StandardPaths(m.mac, loc, config, global);
      Ok(AllPresent(ps))
    case WindowsModule => Windows.StandardPaths(m.win, loc, config, global)
  }

  /** The filesystem after either entry point: only the POSIX resolver
      touches it (for `runtime`). */
  function Effect(m: Machine, fs: Unix.Entries, arg: LocationArg): Unix.Entries {
    if Coerce(arg).Ok? && Implementation(m.system) == UnixModule then Unix.Effect(m.posix, fs, Coerce(arg).value)
    else fs
  }

  /** The identity the first list entry is resolved with: the caller's on
      POSIX systems, the global one on macOS and Windows. */
  function FirstEntryConfig(m: Machine, config: Option<Config>): Option<Config> {
    if Implementation(m.system) == UnixModule then config else None
  }

  /** A member's name is as good as the member, for both entry points. */
  lemma NameIsMember(m: Machine, fs: Unix.Entries, global: Config, l: Location, config: Option<Config>)
    ensures WritablePath(m, fs, global, Other(Name(l)), config) == WritablePath(m, fs, global, Member(l), config)
    ensures StandardPaths(m, fs, global, Other(Name(l)), config) == StandardPaths(m, fs, global, Member(l), config)
    ensures Effect(m, fs, Other(Name(l))) == Effect(m, fs, Member(l))
  {
    NameRoundTrip(l);
  }

  /** "app_local_data" is an alias of "data". */
  lemma AppLocalDataAlias(m: Machine, fs: Unix.Entries, global: Config, config: Option<Config>)
    ensures WritablePath(m, fs, global, Other("app_local_data"), config) == WritablePath(m, fs, global, Other("data"), config)
    ensures StandardPaths(m, fs, global, Other("app_local_data"), config) == StandardPaths(m, fs, global, Other("data"), config)
  {
    AppLocalDataIsData();
  }

  /** A name that is no member raises `KeyError` before any resolver runs,
      and changes nothing. */
  lemma UnknownNameIsKeyError(m: Machine, fs: Unix.Entries, global: Config, text: string, config: Option<Config>)
    requires text != "app_local_data" && forall l :: Name(l) != text
    ensures WritablePath(m, fs, global, Other(text), config) == Err(KeyError(text))
    ensures StandardPaths(m, fs, global, Other(text), config) == Err(KeyError(text))
    ensures Effect(m, fs, Other(text)) == fs
  {
  }

  /** The list starts with the writable path, and fails exactly when it
      does. */
  lemma FirstEntryIsWritable(m: Machine, fs: Unix.Entries, global: Config, arg: LocationArg, config: Option<Config>)
    ensures var first := WritablePath(m, fs, global, arg, FirstEntryConfig(m, config));
      var all := StandardPaths(m, fs, global, arg, config);
      && (all.Ok? <==> first.Ok?)
      && (all.Ok? ==> |all.value| >= 1 && all.value[0] == first.value)
  {
    if Coerce(arg).Ok? {
      var loc := Coerce(arg).value;
      match Implementation(m.system)
      case UnixModule =>
      case OsxModule =>
      case WindowsModule =>
        Windows.StandardPathsFailOnlyWithWritable(m.win, loc, config, global);
    }
  }

  /** Passing no identity is passing the current global one. */
  lemma NoConfigMeansGlobal(m: Machine, fs: Unix.Entries, global: Config, arg: LocationArg)
    ensures WritablePath(m, fs, global, arg, None) == WritablePath(m, fs, global, arg, Some(global))
    ensures StandardPaths(m, fs, global, arg, None) == StandardPaths(m, fs, global, arg, Some(global))
  {
    if Coerce(arg).Ok? {
      var loc := Coerce(arg).value;
      Unix.OnlyEffectiveConfigMatters(m.posix, fs, loc, None, Some(global), global);
      Osx.OnlyEffectiveConfigMatters(m.mac, loc, None, Some(global), global);
      Windows.OnlyEffectiveConfigMatters(m.win, loc, None, Some(global), global);
    }
  }

  /** `get_writable_path`: coerces the argument, reads the global identity
      and dispatches; only the POSIX resolver changes the filesystem. */
  method GetWritablePath(m: Machine, fs: Unix.FileSystem, store: ConfigStore, arg: LocationArg, config: Option<Config>)
    returns (r: Result<Option<Path>>)
    modifies fs
    ensures r == WritablePath(m, old(fs.entries), store.GetConfig(), arg, config)
    ensures fs.entries == Effect(m, old(fs.entries), arg)
  {
    var coerced := Coerce(arg);
    if coerced.Err? {
      return Err(coerced.error);
    }
    var loc := coerced.value;
    var global := store.GetConfig();
    match Implementation(m.system)
    case UnixModule =>
      var p := Unix.GetWritablePath(fs, m.posix, loc, config, global);
      if p.Err? {
        return Err(p.error);
      }
      r := Ok(Some(p.value));
    case OsxModule =>
      var p := Osx.WritablePath(m.mac, loc, config, global);
      if p.Err? {
        return Err(p.error);
      }
      r := Ok(Some(p.value));
    case WindowsModule =>
      r := Windows.WritablePath(m.win, loc, config, global);
  }

  /** `get_standard_paths`, likewise. */
  method GetStandardPaths(m: Machine, fs: Unix.FileSystem, store: ConfigStore, arg: LocationArg, config: Option<Config>)
    returns (r: Result<seq<Option<Path>>>)
    modifies fs
    ensures r == StandardPaths(m, old(fs.entries), store.GetConfig(), arg, config)
    ensures fs.entries == Effect(m, old(fs.entries), arg)
  {
    var coerced := Coerce(arg);
    if coerced.Err? {
      return Err(coerced.error);
    }
    var loc := coerced.value;
    var global := store.GetConfig();
    match Implementation(m.system)
    case UnixModule =>
      var ps := Unix.GetStandardPaths(fs, m.posix, loc, config, global);
      if ps.Err? {
        return Err(ps.error);
      }
      r := Ok(AllPresent(ps.value));
    case OsxModule =>
      var ps := Osx.StandardPaths(m.mac, loc, config, global);
      if ps.Err? {
        return Err(ps.error);
      }
      r := Ok(AllPresent(ps.value));
    case WindowsModule =>
      r := Windows.StandardPaths(m.win, loc, config, global);
  }
}
