/** The decision rules of the `keep` command line (cmd/keep/main.go): which
    profile a run uses, the flags that override it, which account file
    `read` opens, what `list` shows, and `add`'s refusal to overwrite. */
module Cli {
  import opened Errors
  import opened Profiles
  import Configs
  import Paths
  import Accounts
  import Text

  /** How a step of `main` ends: it goes on with a value, the process exits
      with a status code, or it panics. */
  datatype Step<T> = Proceed(value: T) | Exit(code: int) | Panic(reason: string)

  /** `exitCodeNotOk`. */
  const ExitNotOk := 1

  // ---------------------------------------------------------------------------
  // Choosing the profile

  /** The first profile of the store with the given name. */
  function FirstNamed(store: seq<Profile>, name: string): Option<Profile>
  {
    if store == [] then None
    else if store[0].name == name then Some(store[0])
    else FirstNamed(store[1..], name)
  }

  /** A profile found by name sits at some position `i` of the store, has that
      name, and no profile before it has. */
  lemma {:induction false} FirstNamedFound(store: seq<Profile>, name: string) returns (i: nat)
    requires FirstNamed(store, name).Some?
    ensures i < |store| && store[i] == FirstNamed(store, name).value && store[i].name == name
    ensures forall j :: 0 <= j < i ==> store[j].name != name
  {
    if store[0].name == name {
      i := 0;
    } else {
      var k := FirstNamedFound(store[1..], name);
      i := k + 1;
      assert store[i] == store[1..][k];
      forall j | 0 <= j < i ensures store[j].name != name {
        if j > 0 {
          assert store[j] == store[1..][j - 1];
        }
      }
    }
  }

  /** No profile is found exactly when none of the store has the name. */
  lemma {:induction false} FirstNamedMissing(store: seq<Profile>, name: string)
    ensures FirstNamed(store, name).None? <==> forall j :: 0 <= j < |store| ==> store[j].name != name
  {
    if store != [] {
      FirstNamedMissing(store[1..], name);
      if store[0].name != name {
        forall j | 1 <= j < |store| ensures store[j] == store[1..][j - 1] {
        }
      }
    }
  }

  /** Choosing the profile. The first profile of the store is the default
      and is read before anything else, so an empty store panics. With
      `--profile` (`profileName`), the first profile with that name is used,
      and a name no profile has ends the run with status 1. */
  method SelectProfile(store: seq<Profile>, profileName: Option<string>) returns (s: Step<Profile>)
    ensures store == [] ==> s.Panic?
    ensures store != [] && profileName.None? ==> s == Proceed(store[0])
    ensures store != [] && profileName.Some? ==>
      s == match FirstNamed(store, profileName.value)
           case Some(p) => Proceed(p)
           case None => Exit(ExitNotOk)
  {
    if store == [] {
      return Panic("index out of range");
    }
    var profile := store[0];
    if profileName.Some? {
      var name := profileName.value;
      var profileFound := false;
      var i := 0;
      while i < |store|
        invariant 0 <= i <= |store|
        invariant !profileFound ==> FirstNamed(store[i..], name) == FirstNamed(store, name)
        invariant profileFound ==> FirstNamed(store, name) == Some(profile)
      {
        if name == store[i].name {
          profile := store[i];
          profileFound := true;
          break;
        }
        assert store[i..][1..] == store[i + 1..];
        i := i + 1;
      }
      if !profileFound {
        return Exit(ExitNotOk);
      }
    }
    return Proceed(profile);
  }

  // ---------------------------------------------------------------------------
  // Flag overrides

  /** `--dir` and `--recipients`, when given, replace the account directory
      and the recipients of the configuration; everything else stays. */
  method ApplyOverrides(conf: Configs.Config, dir: Option<string>, recipients: Option<string>)
    modifies conf
    ensures conf.accountDir == dir.GetOr(old(conf.accountDir))
    ensures conf.recipientKeyIds == recipients.GetOr(old(conf.recipientKeyIds))
    ensures conf.secringDir == old(conf.secringDir) && conf.pubringDir == old(conf.pubringDir)
    ensures conf.signerKeyId == old(conf.signerKeyId) && conf.promptFunction == old(conf.promptFunction)
  {
    if dir.Some? {
      conf.accountDir := dir.value;
    }
    if recipients.Some? {
      conf.recipientKeyIds := recipients.value;
    }
  }

  // ---------------------------------------------------------------------------
  // `read`: which of the matching account files to open

  /** The file `read` opens, AS WRITTEN. `files` are the names matching
      `<file>`, `position` the parsed `<number>`. A single match is taken
      whatever the position; with several, a position below the count picks
      that file; no match, or several without a usable position, end the run
      with status 1. The guard only bounds the position from above, so a
      negative position indexes the list and panics. */
  method SelectAccountFileAsWritten(files: seq<string>, position: Option<int>) returns (s: Step<string>)
    ensures |files| == 0 ==> s == Exit(ExitNotOk)
    ensures |files| == 1 ==> s == Proceed(files[0])
    ensures |files| > 1 && position.Some? && 0 <= position.value < |files| ==> s == Proceed(files[position.value])
    ensures |files| > 1 && position.Some? && position.value < 0 ==> s.Panic?
    ensures |files| > 1 && (position.None? || position.value >= |files|) ==> s == Exit(ExitNotOk)
  {
    var l := |files|;
    if l == 1 {
      s := Proceed(files[0]);
    } else if l > 1 && position.Some? && position.value < l {
      if position.value < 0 {
        s := Panic("index out of range");
      } else {
        s := Proceed(files[position.value]);
      }
    } else if l == 0 {
      s := Exit(ExitNotOk);
    } else {
      s := Exit(ExitNotOk);
    }
  }

  /** A negative `<number>` with two matches panics. */
  method NegativePositionExample() returns (s: Step<string>)
    ensures s.Panic?
  {
    s := SelectAccountFileAsWritten(["a.example.com", "b.example.com"], Some(-1));
  }

  /** The file `read` opens, as evidently intended: a position is usable
      only when it lies within the list; any other choice lists the
      candidates and ends the run with status 1. It never panics, and what it
      opens is always one of the matches. */
  method SelectAccountFile(files: seq<string>, position: Option<int>) returns (s: Step<string>)
    ensures !s.Panic?
    ensures s.Proceed? ==> s.value in files
    ensures s.Exit? ==> s.code == ExitNotOk
    ensures |files| == 1 ==> s == Proceed(files[0])
    ensures |files| > 1 && position.Some? && 0 <= position.value < |files| ==> s == Proceed(files[position.value])
    ensures s.Exit? <==> |files| == 0 || (|files| > 1 && !(position.Some? && 0 <= position.value < |files|))
  {
    var l := |files|;
    if l == 1 {
      s := Proceed(files[0]);
    } else if l > 1 && position.Some? && 0 <= position.value < l {
      s := Proceed(files[position.value]);
    } else {
      s := Exit(ExitNotOk);
    }
  }

  // ---------------------------------------------------------------------------
  // `list`

  /** `list [<file>]`: the account files whose names contain `<file>`,
      ignoring case; without `<file>`, every entry of the account directory.
      A failed directory read ends the run with status 1. */
  method ListCommand(dir: Result<seq<string>>, file: Option<string>) returns (s: Step<seq<string>>)
    ensures dir.Err? ==> s == Exit(ExitNotOk)
    ensures dir.Ok? ==> s == Proceed(Accounts.Listed(dir.value, file.GetOr("")))
    ensures dir.Ok? && file.None? ==> s == Proceed(dir.value)
  {
    var sub := if file.Some? then file.value else "";
    var files := Accounts.ListAccountFiles(dir, sub);
    if files.Err? {
      return Exit(ExitNotOk);
    }
    if dir.Ok? && file.None? {
      Accounts.EmptySubstringListsAll(dir.value);
    }
    return Proceed(files.value);
  }

  // ---------------------------------------------------------------------------
  // `add`

  /** `add`: the new account goes to `accountDir/name`. When anything may
      already be there (including a path `os.Stat` cannot examine) the run
      ends with status 1 and nothing is written; otherwise the encrypted
      `content` is written there. No existing file is ever changed. */
  method AddAccount(fs: FileSystem, accountDir: string, name: string, content: seq<Text.byte>) returns (s: Step<string>)
    modifies fs
    ensures var path := Paths.Join(accountDir, name);
      && (old(fs.StatOf(path)) != NotExist ==>
            s == Exit(ExitNotOk) && fs.files == old(fs.files) && fs.dirs == old(fs.dirs))
      && (old(fs.StatOf(path)) == NotExist ==>
            s == Proceed(path) && fs.files == old(fs.files)[path := content] && fs.dirs == old(fs.dirs))
    ensures forall p :: p in old(fs.files) ==> p in fs.files && fs.files[p] == old(fs.files)[p]
  {
    var fpath := Paths.Join(accountDir, name);
    var st := fs.Stat(fpath);
    if st != NotExist {
      return Exit(ExitNotOk);
    }
    var err := fs.WriteFile(fpath, content);
    if err.Some? {
      return Exit(ExitNotOk);
    }
    return Proceed(fpath);
  }
}
