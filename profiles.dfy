/** The profile store of profile_store.go: named bundles of key-ring paths,
    account directory and key IDs, kept as JSON in a configuration file that
    sits next to the account directory. */
module Profiles {
  import opened Errors
  import opened Paths
  import Text

  /** `keep.Profile`. */
  datatype Profile = Profile(
    name: string, secringDir: string, pubringDir: string, accountDir: string,
    recipientKeyIds: string, signerKeyId: string)

  /** The package's default locations after `os.ExpandEnv`: the secret and
      public key rings and the account directory. The constants themselves
      are declared in a file of the package that is not part of this model. */
  datatype Defaults = Defaults(secring: string, pubring: string, accountDir: string)

  /** `DefaultProfile`: the profile named "default" on the default locations,
      which encrypts to and signs with the key named by `GPGKEY` (`gpgKey`). */
  function DefaultProfile(gpgKey: string, d: Defaults): (p: Profile)
    ensures p.name == "default"
    ensures p.recipientKeyIds == gpgKey && p.signerKeyId == gpgKey
    ensures p.secringDir == d.secring && p.pubringDir == d.pubring && p.accountDir == d.accountDir
  {
    Profile("default", d.secring, d.pubring, d.accountDir, gpgKey, gpgKey)
  }

  /** The configuration file: "keep.conf" in the directory that holds the
      account directory. */
  function ConfigFile(d: Defaults): string
  {
    Join(Dir(d.accountDir), "keep.conf")
  }

  /** `GetConfigPaths`: the configuration file and the account directory. */
  function GetConfigPaths(d: Defaults): (paths: (string, string))
    ensures paths.1 == d.accountDir
    ensures Base(paths.0) == "keep.conf"
    ensures NoRepeatedSlash(d.accountDir) ==> Dir(paths.0) == Dir(d.accountDir)
  {
    ConfigBesideAccountDir(d.accountDir);
    (ConfigFile(d), d.accountDir)
  }

  /** On a path without doubled separators, the configuration file and the
      account directory have the same parent: the file is a sibling of the
      directory, and its base name is "keep.conf". */
  lemma ConfigBesideAccountDir(accountDir: string)
    ensures Base(Join(Dir(accountDir), "keep.conf")) == "keep.conf"
    ensures NoRepeatedSlash(accountDir) ==> Dir(Join(Dir(accountDir), "keep.conf")) == Dir(accountDir)
  {
    var dir := Dir(accountDir);
    var i := LastSlash(accountDir);
    if dir == "." {
      ConfigNameIsSlashFree();
    } else if i == 0 {
      JoinThenSplit(dir, "keep.conf");
    } else {
      assert dir == accountDir[..i] && dir != [];
      if dir[|dir| - 1] == '/' {
        // Only a doubled separator puts a '/' right before the last one.
        assert accountDir[i - 1] == '/';
        JoinAfterSlash(dir, "keep.conf");
      } else {
        JoinThenSplit(dir, "keep.conf");
      }
    }
  }

  /** "keep.conf" holds no separator: it is its own base, in ".". */
  lemma ConfigNameIsSlashFree()
    ensures Base("keep.conf") == "keep.conf" && Dir("keep.conf") == "."
  {
    assert '/' !in "keep.conf";
  }

  /** A directory ending in '/' is only joined with, never given an extra
      separator, and the name is still its base. */
  lemma JoinAfterSlash(dir: string, name: string)
    requires name == "keep.conf" && dir != [] && dir != "." && dir[|dir| - 1] == '/'
    ensures Base(Join(dir, name)) == name
  {
    var init := dir[..|dir| - 1];
    assert dir == init + "/";
    assert Join(dir, name) == init + "/" + name;
    LastSlashOfJoin(init, name);
    var p := init + "/" + name;
    assert p[|init| + 1..] == name;
  }

  // ---------------------------------------------------------------------------
  // The file system the store is kept in

  /** What `os.Stat` reports about a path. */
  datatype StatResult = Exists | NotExist | StatFailed(err: Error)

  /** The part of the file system the profile store and the `add` command
      touch: regular files with their contents and directories. The operating
      system refuses every operation on the paths in `refused` (permissions,
      I/O errors). Parent directories are not tracked. */
  class FileSystem {
    var files: map<string, seq<Text.byte>>
    var dirs: set<string>
    const refused: set<string>

    constructor (files: map<string, seq<Text.byte>>, dirs: set<string>, refused: set<string>)
      ensures this.files == files && this.dirs == dirs && this.refused == refused
    {
      this.files := files;
      this.dirs := dirs;
      this.refused := refused;
    }

    function StatOf(path: string): StatResult
      reads this
    {
      if path in refused then StatFailed(Refused(path))
      else if path in files || path in dirs then Exists
      else NotExist
    }

    /** `os.Stat`. */
    method Stat(path: string) returns (s: StatResult)
      ensures s == StatOf(path)
    {
      s := StatOf(path);
    }

    /** The error `os.MkdirAll(path)` reports: none when the directory
        exists already or nothing is in its way. */
    function MkdirOf(path: string): Option<Error>
      reads this
    {
      if path in dirs then None
      else if path in files then Some(NotADirectory(path))
      else if path in refused then Some(Refused(path))
      else None
    }

    predicate CanMkdir(path: string)
      reads this
    {
      MkdirOf(path).None?
    }

    /** `os.MkdirAll`. */
    method MkdirAll(path: string) returns (err: Option<Error>)
      modifies this
      ensures err == old(MkdirOf(path))
      ensures err.None? <==> old(path in dirs || (path !in files && path !in refused))
      ensures dirs == if err.None? then old(dirs) + {path} else old(dirs)
      ensures files == old(files)
    {
      if path in dirs {
        err := None;
      } else if path in files {
        err := Some(NotADirectory(path));
      } else if path in refused {
        err := Some(Refused(path));
      } else {
        dirs := dirs + {path};
        err := None;
      }
    }

    predicate CanWrite(path: string)
      reads this
    {
      path !in dirs && path !in refused
    }

    /** `ioutil.WriteFile`: create or truncate the file. */
    method WriteFile(path: string, data: seq<Text.byte>) returns (err: Option<Error>)
      modifies this
      ensures err == if old(CanWrite(path)) then None else Some(Refused(path))
      ensures files == if err.None? then old(files)[path := data] else old(files)
      ensures dirs == old(dirs)
    {
      if path in dirs || path in refused {
        err := Some(Refused(path));
      } else {
        files := files[path := data];
        err := None;
      }
    }

    function ReadOf(path: string): Result<seq<Text.byte>>
      reads this
    {
      if path in refused then Err(Refused(path))
      else if path in files then Ok(files[path])
      else Err(NotFound(path))
    }

    /** `ioutil.ReadFile`. */
    method ReadFile(path: string) returns (r: Result<seq<Text.byte>>)
      ensures r == ReadOf(path)
    {
      r := ReadOf(path);
    }
  }

  // ---------------------------------------------------------------------------
  // Creating and loading the store

  /** The JSON encoding of a store and its decoding. `json.MarshalIndent` and
      `json.Unmarshal` are outside the model; they are given as a pair of
      functions. */
  datatype Codec = Codec(encode: seq<Profile> -> Result<seq<Text.byte>>, decode: seq<Text.byte> -> Result<seq<Profile>>)

  /** What `initProfileStore` does to the file system `fs` as it stands:
      the store it returns or the error, and the files and directories
      afterwards. It refuses when anything may already be at the
      configuration path (including a path `os.Stat` cannot examine), then
      creates the account directory, then writes a store holding only the
      default profile to the configuration file. */
  function InitOutcome(fs: FileSystem, d: Defaults, gpgKey: string, json: Codec)
    : (o: (Result<seq<Profile>>, map<string, seq<Text.byte>>, set<string>))
    reads fs
    ensures var (r, files, dirs) := o;
      var cf := ConfigFile(d);
      var store := [DefaultProfile(gpgKey, d)];
      && (fs.StatOf(cf) != NotExist ==> r == Err(ConfigExists(cf)) && files == fs.files && dirs == fs.dirs)
      && (fs.StatOf(cf) == NotExist && !fs.CanMkdir(d.accountDir) ==>
            r.Err? && files == fs.files && dirs == fs.dirs)
      && (fs.StatOf(cf) == NotExist && fs.CanMkdir(d.accountDir) ==> dirs == fs.dirs + {d.accountDir})
      && (r.Ok? <==>
            && fs.StatOf(cf) == NotExist && fs.CanMkdir(d.accountDir)
            && json.encode(store).Ok? && cf != d.accountDir)
      && (r.Ok? ==> r.value == store && files == fs.files[cf := json.encode(store).value])
      && (r.Err? ==> files == fs.files)
  {
    var cf := ConfigFile(d);
    if fs.StatOf(cf) != NotExist then (Err(ConfigExists(cf)), fs.files, fs.dirs)
    else match fs.MkdirOf(d.accountDir)
      case Some(e) => (Err(e), fs.files, fs.dirs)
      case None =>
        var dirs := fs.dirs + {d.accountDir};
        var store := [DefaultProfile(gpgKey, d)];
        match json.encode(store)
        case Err(e) => (Err(e), fs.files, dirs)
        case Ok(b) =>
          if cf in dirs || cf in fs.refused then (Err(Refused(cf)), fs.files, dirs)
          else (Ok(store), fs.files[cf := b], dirs)
  }

  /** `initProfileStore`: its outcome is `InitOutcome` of the file system
      it started from. */
  method InitProfileStore(fs: FileSystem, d: Defaults, gpgKey: string, json: Codec) returns (r: Result<seq<Profile>>)
    modifies fs
    ensures (r, fs.files, fs.dirs) == old(InitOutcome(fs, d, gpgKey, json))
  {
    var (configFile, accountDir) := GetConfigPaths(d);
    var st := fs.Stat(configFile);
    if st != NotExist {
      return Err(ConfigExists(configFile));
    }
    var err := fs.MkdirAll(accountDir);
    if err.Some? {
      return Err(err.value);
    }
    var store := [DefaultProfile(gpgKey, d)];
    var b := json.encode(store);
    if b.Err? {
      return Err(b.error);
    }
    err := fs.WriteFile(configFile, b.value);
    if err.Some? {
      return Err(err.value);
    }
    return Ok(store);
  }

  /** `LoadProfileStore`: when the configuration file does not exist, the
      outcome is exactly that of initialising the store; otherwise the file
      is read and decoded, either error is passed on, and nothing on disk
      changes. */
  method LoadProfileStore(fs: FileSystem, d: Defaults, gpgKey: string, json: Codec) returns (r: Result<seq<Profile>>)
    modifies fs
    ensures var cf := ConfigFile(d);
      && (old(fs.StatOf(cf)) == NotExist ==> (r, fs.files, fs.dirs) == old(InitOutcome(fs, d, gpgKey, json)))
      && (old(fs.StatOf(cf)) != NotExist ==>
            && fs.files == old(fs.files) && fs.dirs == old(fs.dirs)
            && r == match old(fs.ReadOf(cf))
                    case Err(e) => Err(e)
                    case Ok(b) => json.decode(b))
  {
    var (configFile, _) := GetConfigPaths(d);
    var st := fs.Stat(configFile);
    if st == NotExist {
      r := InitProfileStore(fs, d, gpgKey, json);
      return;
    }
    var b := fs.ReadFile(configFile);
    if b.Err? {
      return Err(b.error);
    }
    return json.decode(b.value);
  }

  /** A store written by `InitProfileStore` is what `LoadProfileStore` reads
      back, whenever the JSON codec round-trips it. */
  method InitThenLoad(fs: FileSystem, d: Defaults, gpgKey: string, json: Codec)
    returns (created: Result<seq<Profile>>, loaded: Result<seq<Profile>>)
    modifies fs
    requires forall s :: json.encode(s).Ok? ==> json.decode(json.encode(s).value) == Ok(s)
    requires ConfigFile(d) !in fs.refused
    ensures created.Ok? ==> loaded == created
  {
    created := InitProfileStore(fs, d, gpgKey, json);
    if created.Ok? {
      assert fs.StatOf(ConfigFile(d)) == Exists;
      assert fs.ReadOf(ConfigFile(d)) == Ok(json.encode(created.value).value);
    }
    loaded := LoadProfileStore(fs, d, gpgKey, json);
  }
}
