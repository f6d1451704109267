/** Passphrase acquisition (keep.go): the three prompt functions handed to the
    OpenPGP engine, and `GuessPromptFunction`, which picks one of them. */
module Prompt {
  import opened Errors
  import opened Text
  import opened KeyRing

  /** A connection to gpg-agent. The agent's state that matters here is its
      passphrase cache, keyed by cache ID; the connection can be closed. */
  class AgentConn {
    var cache: map<string, string>
    var closed: bool

    constructor (cache: map<string, string>)
      ensures this.cache == cache && !closed
    {
      this.cache := cache;
      closed := false;
    }

    /** `GetPassphrase`: a cached passphrase is answered as is; on a miss the
        agent asks the user through its pinentry dialog, whose answer is
        `pinentry`, and caches what was entered. A closed connection fails. */
    method GetPassphrase(cacheId: string, pinentry: Result<string>) returns (r: Result<string>)
      modifies this
      ensures r == Lookup(old(cache), old(closed), cacheId, pinentry)
      ensures cache == CacheAfterLookup(old(cache), old(closed), cacheId, pinentry)
      ensures closed == old(closed)
    {
      if closed {
        r := Err(AgentClosed);
      } else if cacheId in cache {
        r := Ok(cache[cacheId]);
      } else {
        r := pinentry;
        if pinentry.Ok? {
          cache := cache[cacheId := pinentry.value];
        }
      }
    }

    /** `RemoveFromCache`: forget the passphrase cached under `cacheId`. */
    method RemoveFromCache(cacheId: string) returns (err: Option<Error>)
      modifies this
      ensures err == if old(closed) then Some(AgentClosed) else None
      ensures cache == if old(closed) then old(cache) else old(cache) - {cacheId}
      ensures closed == old(closed)
    {
      if closed {
        err := Some(AgentClosed);
      } else {
        cache := cache - {cacheId};
        err := None;
      }
    }

    method Close()
      modifies this
      ensures closed && cache == old(cache)
    {
      closed := true;
    }
  }

  /** The agent's answer to a passphrase request. */
  function Lookup(cache: map<string, string>, closed: bool, cacheId: string, pinentry: Result<string>): Result<string>
  {
    if closed then Err(AgentClosed) else if cacheId in cache then Ok(cache[cacheId]) else pinentry
  }

  /** The agent's cache after a passphrase request. */
  function CacheAfterLookup(cache: map<string, string>, closed: bool, cacheId: string, pinentry: Result<string>): map<string, string>
  {
    if !closed && cacheId !in cache && pinentry.Ok? then cache[cacheId := pinentry.value] else cache
  }

  /** The agent cache ID of a key: the upper-cased hex encoding of its
      public key's fingerprint. */
  function CacheId(k: Key): string
  {
    ToUpper(HexEncode(k.fingerprint))
  }

  /** Cache IDs are upper-case hex, two digits per fingerprint byte, and
      keys with different fingerprints never share a cache entry. */
  lemma CacheIdIsUpperHex(k: Key, other: Key)
    ensures CacheId(k) == UpperHex(k.fingerprint)
    ensures |CacheId(k)| == 2 * |k.fingerprint|
    ensures CacheId(k) == CacheId(other) ==> k.fingerprint == other.fingerprint
  {
    ToUpperOfHexEncode(k.fingerprint);
    ToUpperOfHexEncode(other.fingerprint);
    if CacheId(k) == CacheId(other) {
      UpperHexInjective(k.fingerprint, other.fingerprint);
    }
  }

  /** A Go `(value, err)` return pair as its caller reads it: the error
      when there is one, the value otherwise. */
  function GoReturn(value: string, err: Option<Error>): Result<string>
  {
    if err.Some? then Err(err.value) else Ok(value)
  }

  /** The only key a prompt function ever touches. */
  function FirstKey(keys: seq<Key>): set<Key>
  {
    if keys == [] then {} else {keys[0]}
  }

  // ---------------------------------------------------------------------------
  // The three prompt functions. Each loops over the candidate keys in the
  // source, but every path through the loop body returns, so only the first
  // key is ever tried; the model says so directly.

  /** `promptFromString(passphrase)`: unlock the first key with a fixed
      passphrase. */
  method PromptFromString(passphrase: string, keys: seq<Key>) returns (r: Result<string>)
    modifies FirstKey(keys)
    ensures keys == [] ==> r == Err(UnableToFindKey)
    ensures keys != [] ==>
      r == (if Unlocks(keys[0], old(keys[0].encrypted), passphrase) then Ok(passphrase)
            else Err(WrongPassphrase(keys[0].shortId)))
    ensures keys != [] ==> keys[0].encrypted == r.Err?
  {
    if keys == [] {
      return Err(UnableToFindKey);
    }
    var ok := keys[0].Decrypt(passphrase);
    if !ok {
      return Err(WrongPassphrase(keys[0].shortId));
    }
    return Ok(passphrase);
  }

  /** `promptTerminal`: read a passphrase from the terminal with echo off
      (`typed` is what the read returned) and unlock the first key with it.
      Nothing is read when there is no key. */
  method PromptTerminal(keys: seq<Key>, typed: Result<string>) returns (r: Result<string>)
    modifies FirstKey(keys)
    ensures keys == [] ==> r == Err(UnableToFindKey)
    ensures keys != [] && typed.Err? ==> r == typed && keys[0].encrypted == old(keys[0].encrypted)
    ensures keys != [] && typed.Ok? ==>
      r == (if Unlocks(keys[0], old(keys[0].encrypted), typed.value) then typed
            else Err(WrongPassphrase(keys[0].shortId)))
      && keys[0].encrypted == r.Err?
  {
    if keys == [] {
      return Err(UnableToFindKey);
    }
    if typed.Err? {
      return typed;
    }
    var ok := keys[0].Decrypt(typed.value);
    if !ok {
      return Err(WrongPassphrase(keys[0].shortId));
    }
    return typed;
  }

  /** `promptFunctionGpgAgent(conn)` AS WRITTEN: ask the agent for the
      passphrase cached under the first key's cache ID and unlock the key with
      it; on a wrong passphrase, evict the cache entry. The connection is
      closed on every path. The eviction branch declares a new `err` for the
      eviction's result and returns that one, so after a successful eviction
      the caller is told "no error", with an empty passphrase, while the key
      is still locked. */
  method PromptGpgAgentAsWritten(conn: AgentConn, keys: seq<Key>, pinentry: Result<string>) returns (r: Result<string>)
    modifies conn, FirstKey(keys)
    ensures conn.closed
    ensures keys == [] ==> r == Err(UnableToFindKey) && conn.cache == old(conn.cache)
    ensures keys != [] ==>
      var id := CacheId(keys[0]);
      var answer := Lookup(old(conn.cache), old(conn.closed), id, pinentry);
      var cached := CacheAfterLookup(old(conn.cache), old(conn.closed), id, pinentry);
      && (answer.Err? ==> r == answer && conn.cache == cached && keys[0].encrypted == old(keys[0].encrypted))
      && (answer.Ok? && Unlocks(keys[0], old(keys[0].encrypted), answer.value) ==>
            r == answer && conn.cache == cached && !keys[0].encrypted)
      && (answer.Ok? && !Unlocks(keys[0], old(keys[0].encrypted), answer.value) ==>
            r == Ok([]) && conn.cache == cached - {id} && keys[0].encrypted)
  {
    if keys == [] {
      conn.Close();
      return Err(UnableToFindKey);
    }
    var id := CacheId(keys[0]);
    var passphrase := conn.GetPassphrase(id, pinentry);
    if passphrase.Err? {
      conn.Close();
      return passphrase;
    }
    var ok := keys[0].Decrypt(passphrase.value);
    if !ok {
      var evicted := conn.RemoveFromCache(id);
      conn.Close();
      // The source returns the eviction's error, not the unlock's.
      return GoReturn([], evicted);
    }
    conn.Close();
    return passphrase;
  }

  /** A key that refuses the passphrase the agent has cached for it: the
      code as written evicts the entry and reports success with an empty
      passphrase, although the key is still locked. */
  method AgentShadowingExample() returns (r: Result<string>, stillLocked: bool)
    ensures r == Ok([]) && stillLocked
  {
    var key := new Key("0000AAAA", [0xAA], false, p => false, true);
    var conn := new AgentConn(map[CacheId(key) := "stale"]);
    r := PromptGpgAgentAsWritten(conn, [key], Err(AgentClosed));
    stillLocked := key.encrypted;
  }

  /** `promptFunctionGpgAgent(conn)` as evidently intended: the same steps,
      but a wrong passphrase is reported as an error after the eviction. */
  method PromptGpgAgent(conn: AgentConn, keys: seq<Key>, pinentry: Result<string>) returns (r: Result<string>)
    modifies conn, FirstKey(keys)
    ensures conn.closed
    ensures keys == [] ==> r == Err(UnableToFindKey) && conn.cache == old(conn.cache)
    ensures keys != [] ==>
      var id := CacheId(keys[0]);
      var answer := Lookup(old(conn.cache), old(conn.closed), id, pinentry);
      var cached := CacheAfterLookup(old(conn.cache), old(conn.closed), id, pinentry);
      && (answer.Err? ==> r == answer && conn.cache == cached && keys[0].encrypted == old(keys[0].encrypted))
      && (answer.Ok? && Unlocks(keys[0], old(keys[0].encrypted), answer.value) ==>
            r == answer && conn.cache == cached && !keys[0].encrypted)
      && (answer.Ok? && !Unlocks(keys[0], old(keys[0].encrypted), answer.value) ==>
            r == Err(WrongPassphrase(keys[0].shortId)) && conn.cache == cached - {id} && keys[0].encrypted)
  {
    if keys == [] {
      conn.Close();
      return Err(UnableToFindKey);
    }
    var id := CacheId(keys[0]);
    var passphrase := conn.GetPassphrase(id, pinentry);
    if passphrase.Err? {
      conn.Close();
      return passphrase;
    }
    var ok := keys[0].Decrypt(passphrase.value);
    if !ok {
      var evicted := conn.RemoveFromCache(id);
      conn.Close();
      return Err(WrongPassphrase(keys[0].shortId));
    }
    conn.Close();
    return passphrase;
  }

  // ---------------------------------------------------------------------------
  // GuessPromptFunction

  /** The prompt function chosen for a run. */
  datatype PromptFunction = Terminal | GpgAgent(conn: AgentConn) | FromString(passphrase: string)

  /** An environment entry counts only when splitting it on "=" gives exactly
      two parts, the first being GPGPASSPHRASE. */
  predicate Overrides(entry: string)
  {
    var parts := Split(entry, '=');
    |parts| == 2 && parts[0] == "GPGPASSPHRASE"
  }

  /** The passphrase given by the first entry of the environment that counts. */
  function EnvPassphrase(environ: seq<string>): Option<string>
  {
    if environ == [] then None
    else if Overrides(environ[0]) then Some(Split(environ[0], '=')[1])
    else EnvPassphrase(environ[1..])
  }

  /** The prompt function a run uses: a fixed passphrase when the
      environment gives one, whatever the agent; otherwise the agent when a
      connection to it could be opened (`agent`); otherwise the terminal. */
  function ChosenPrompt(agent: Option<AgentConn>, environ: seq<string>): PromptFunction
  {
    match EnvPassphrase(environ)
    case Some(p) => FromString(p)
    case None => if agent.Some? then GpgAgent(agent.value) else Terminal
  }

  /** `GuessPromptFunction`: start from the terminal, switch to the agent
      when a connection opened, then scan the environment for the first entry
      that overrides both. */
  method GuessPromptFunction(agent: Option<AgentConn>, environ: seq<string>) returns (pf: PromptFunction)
    ensures pf == ChosenPrompt(agent, environ)
  {
    pf := Terminal;
    if agent.Some? {
      pf := GpgAgent(agent.value);
    }
    var i := 0;
    while i < |environ|
      invariant 0 <= i <= |environ|
      invariant EnvPassphrase(environ[i..]) == EnvPassphrase(environ)
      invariant pf == if agent.Some? then GpgAgent(agent.value) else Terminal
    {
      var env := Split(environ[i], '=');
      if |env| == 2 && env[0] == "GPGPASSPHRASE" {
        pf := FromString(env[1]);
        break;
      }
      assert environ[i..][1..] == environ[i + 1..];
      i := i + 1;
    }
  }

  /** An entry "GPGPASSPHRASE=v" with no "=" in `v` overrides, with
      passphrase `v`, and it beats the agent. */
  lemma OverridingEntry(v: string, rest: seq<string>, agent: Option<AgentConn>)
    requires '=' !in v
    ensures EnvPassphrase(["GPGPASSPHRASE=" + v] + rest) == Some(v)
    ensures ChosenPrompt(agent, ["GPGPASSPHRASE=" + v] + rest) == FromString(v)
  {
    SplitWithoutSeparator(v, '=');
    SplitAtFirstSeparator("GPGPASSPHRASE", '=', v);
    assert "GPGPASSPHRASE=" + v == "GPGPASSPHRASE" + ['='] + v;
  }

  /** A value that itself contains "=" splits into more than two parts, so
      the entry is skipped as if it were absent. */
  lemma ValueWithEqualsIgnored(v: string, rest: seq<string>)
    requires '=' in v
    ensures EnvPassphrase(["GPGPASSPHRASE=" + v] + rest) == EnvPassphrase(rest)
  {
    var entry := "GPGPASSPHRASE=" + v;
    SplitCount(entry, '=');
    assert multiset(entry) == multiset("GPGPASSPHRASE=") + multiset(v);
    assert '=' in multiset(v) && '=' in multiset("GPGPASSPHRASE=");
    assert ([entry] + rest)[1..] == rest;
  }

  lemma TwoParts(s: string, sep: char)
    requires |Split(s, sep)| == 2
    ensures s == Split(s, sep)[0] + [sep] + Split(s, sep)[1]
  {
    var parts := Split(s, sep);
    JoinSplit(s, sep);
    assert parts[1..] == [parts[1]];
  }

  /** An entry that counts is "GPGPASSPHRASE=" followed by a value
      without "=". */
  lemma OverridingEntryShape(entry: string)
    requires Overrides(entry)
    ensures entry == "GPGPASSPHRASE=" + Split(entry, '=')[1]
    ensures '=' !in Split(entry, '=')[1]
  {
    var parts := Split(entry, '=');
    TwoParts(entry, '=');
    assert entry == parts[0] + ['='] + parts[1];
  }

  /** A passphrase taken from the environment is the value of the first entry
      that counts (at index `i`), and that entry is literally "GPGPASSPHRASE="
      followed by it. */
  lemma {:induction false} EnvPassphraseSource(environ: seq<string>) returns (i: nat)
    requires EnvPassphrase(environ).Some?
    ensures i < |environ| && Overrides(environ[i])
    ensures forall j :: 0 <= j < i ==> !Overrides(environ[j])
    ensures environ[i] == "GPGPASSPHRASE=" + EnvPassphrase(environ).value
    ensures '=' !in EnvPassphrase(environ).value
  {
    if Overrides(environ[0]) {
      OverridingEntryShape(environ[0]);
      i := 0;
    } else {
      var k := EnvPassphraseSource(environ[1..]);
      i := k + 1;
      assert environ[i] == environ[1..][k];
      forall j | 0 <= j < i ensures !Overrides(environ[j]) {
        if j > 0 {
          assert environ[j] == environ[1..][j - 1];
        }
      }
    }
  }

  /** The passphrase a prompt function obtains for key `k` before trying it:
      what was typed at the terminal, the agent's answer for the key's cache
      ID, or the fixed string. */
  function Offered(pf: PromptFunction, k: Key, typed: Result<string>, pinentry: Result<string>): Result<string>
    reads if pf.GpgAgent? then {pf.conn} else {}
  {
    match pf
    case Terminal => typed
    case GpgAgent(conn) => Lookup(conn.cache, conn.closed, CacheId(k), pinentry)
    case FromString(p) => Ok(p)
  }

  /** Running the chosen prompt function on the candidate keys. Whatever the
      strategy, no key means "Unable to find key", and a success leaves the
      first key unlocked by the passphrase returned. */
  method RunPrompt(pf: PromptFunction, keys: seq<Key>, typed: Result<string>, pinentry: Result<string>)
    returns (r: Result<string>)
    modifies FirstKey(keys), if pf.GpgAgent? then {pf.conn} else {}
    ensures keys == [] ==> r == Err(UnableToFindKey)
    ensures r.Ok? ==> keys != [] && !keys[0].encrypted
                      && (old(keys[0].encrypted) ==> keys[0].opens(r.value))
    ensures pf.FromString? && r.Ok? ==> r.value == pf.passphrase
    ensures pf.Terminal? && r.Ok? ==> typed == r
    ensures pf.GpgAgent? ==> pf.conn.closed
    ensures keys != [] ==>
      var offered := old(Offered(pf, keys[0], typed, pinentry));
      && (r.Ok? <==> offered.Ok? && Unlocks(keys[0], old(keys[0].encrypted), offered.value))
      && (r.Ok? ==> r == offered)
      && (r.Err? ==>
            && r == Err(if offered.Err? then offered.error else WrongPassphrase(keys[0].shortId))
            && keys[0].encrypted == old(keys[0].encrypted))
  {
    match pf
    case Terminal =>
      r := PromptTerminal(keys, typed);
    case GpgAgent(conn) =>
      r := PromptGpgAgent(conn, keys, pinentry);
    case FromString(p) =>
      r := PromptFromString(p, keys);
  }
}
