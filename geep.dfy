/** geep.go, a second variant of the package: a configuration read from the
    environment, unlocking of a secret key with a fixed passphrase, and an
    account format read back with `fmt.Sscanf`. Its `filterEntityList` is
    the same as keep.go's, modelled once in `KeyRing`. */
module Geep {
  import opened Errors
  import opened Text
  import opened KeyRing
  import Accounts

  /** `geep.Config`. */
  datatype Config = Config(
    passphrase: string, secringDir: string, pubringDir: string, passwordDir: string,
    encryptKeysIds: string, decryptKeyIds: string)

  /** `NewConfig`: the passphrase from `PASSPHRASE`, both key-ID lists from
      `GPGKEY`, and the fixed locations under `$HOME`. */
  function NewConfig(passphraseEnv: string, gpgKeyEnv: string, home: string): (c: Config)
    ensures c.encryptKeysIds == c.decryptKeyIds == gpgKeyEnv
    ensures c.passphrase == passphraseEnv
    ensures c.secringDir == home + "/.gnupg/secring.gpg"
    ensures c.pubringDir == home + "/.gnupg/pubring.gpg"
    ensures c.passwordDir == home + "/.kip/passwords"
  {
    Config(passphraseEnv, home + "/.gnupg/secring.gpg", home + "/.gnupg/pubring.gpg",
           home + "/.kip/passwords", gpgKeyEnv, gpgKeyEnv)
  }

  // ---------------------------------------------------------------------------
  // decryptPrivateKey

  /** The loop over the sub-keys of `decryptPrivateKey`: unlock each in
      order with the passphrase and stop at the first refusal. A key that
      appears twice, or that is also the primary, is simply found unlocked
      the second time. */
  method DecryptSubkeys(e: Entity, passphrase: string) returns (err: Option<Error>)
    modifies RingKeys([e])
    requires !e.primary.encrypted
    ensures !e.primary.encrypted
    ensures err == None ==>
      forall i :: 0 <= i < |e.subkeys| ==>
        Unlocks(e.subkeys[i], old(e.subkeys[i].encrypted), passphrase) && !e.subkeys[i].encrypted
    ensures err.Some? ==>
      exists i :: 0 <= i < |e.subkeys|
        && err == Some(WrongPassphrase(e.subkeys[i].shortId))
        && !Unlocks(e.subkeys[i], old(e.subkeys[i].encrypted), passphrase)
        && e.subkeys[i].encrypted
        && (forall j :: 0 <= j < i ==> Unlocks(e.subkeys[j], old(e.subkeys[j].encrypted), passphrase))
        && forall k :: k in RingKeys([e]) && k !in e.subkeys[..i] ==> k.encrypted == old(k.encrypted)
    ensures forall k :: k in RingKeys([e]) && k.encrypted ==> old(k.encrypted)
  {
    for i := 0 to |e.subkeys|
      invariant !e.primary.encrypted
      invariant forall j :: 0 <= j < i ==>
        Unlocks(e.subkeys[j], old(e.subkeys[j].encrypted), passphrase) && !e.subkeys[j].encrypted
      invariant forall k :: k in RingKeys([e]) && k !in e.subkeys[..i] ==> k.encrypted == old(k.encrypted)
      invariant forall k :: k in RingKeys([e]) ==>
        (k.encrypted ==> old(k.encrypted)) && (!k.encrypted ==> Unlocks(k, old(k.encrypted), passphrase))
    {
      var k := e.subkeys[i];
      assert e in [e] && k in [e.primary] + e.subkeys;
      var ok := k.Decrypt(passphrase);
      if !ok {
        return Some(WrongPassphrase(k.shortId));
      }
      assert e.subkeys[..i + 1] == e.subkeys[..i] + [k];
    }
    return None;
  }

  /** `decryptPrivateKey` AS WRITTEN: when the primary key refuses the
      passphrase the function returns nil, so the caller goes on with a
      locked key and is told nothing; the sub-keys are not tried. When the
      primary key unlocks it behaves as the corrected `DecryptPrivateKey`. */
  method DecryptPrivateKeyAsWritten(e: Entity, passphrase: string) returns (err: Option<Error>)
    modifies RingKeys([e])
    ensures !Unlocks(e.primary, old(e.primary.encrypted), passphrase) ==>
      err == None && e.primary.encrypted
      && forall k :: k in RingKeys([e]) ==> k.encrypted == old(k.encrypted)
    ensures Unlocks(e.primary, old(e.primary.encrypted), passphrase) ==> !e.primary.encrypted
    ensures err == None && Unlocks(e.primary, old(e.primary.encrypted), passphrase) ==>
      forall i :: 0 <= i < |e.subkeys| ==>
        Unlocks(e.subkeys[i], old(e.subkeys[i].encrypted), passphrase) && !e.subkeys[i].encrypted
    ensures err.Some? ==>
      exists i :: 0 <= i < |e.subkeys|
        && err == Some(WrongPassphrase(e.subkeys[i].shortId))
        && !Unlocks(e.subkeys[i], old(e.subkeys[i].encrypted), passphrase)
        && e.subkeys[i].encrypted
        && (forall j :: 0 <= j < i ==> Unlocks(e.subkeys[j], old(e.subkeys[j].encrypted), passphrase))
        && forall k :: k in RingKeys([e]) && k != e.primary && k !in e.subkeys[..i] ==> k.encrypted == old(k.encrypted)
  {
    assert e in [e] && e.primary in [e.primary] + e.subkeys;
    var ok := e.primary.Decrypt(passphrase);
    if !ok {
      return None;
    }
    err := DecryptSubkeys(e, passphrase);
  }

  /** `decryptPrivateKey` as evidently intended: a refusal by the primary
      key is reported. Otherwise the sub-keys are unlocked in order, and the
      first refusal among them is the result. */
  method DecryptPrivateKey(e: Entity, passphrase: string) returns (err: Option<Error>)
    modifies RingKeys([e])
    ensures !Unlocks(e.primary, old(e.primary.encrypted), passphrase) ==>
      err == Some(WrongPassphrase(e.primary.shortId)) && e.primary.encrypted
      && forall k :: k in RingKeys([e]) ==> k.encrypted == old(k.encrypted)
    ensures err == None ==>
      Unlocks(e.primary, old(e.primary.encrypted), passphrase) && !e.primary.encrypted
      && forall i :: 0 <= i < |e.subkeys| ==>
           Unlocks(e.subkeys[i], old(e.subkeys[i].encrypted), passphrase) && !e.subkeys[i].encrypted
    ensures err.Some? && Unlocks(e.primary, old(e.primary.encrypted), passphrase) ==>
      exists i :: 0 <= i < |e.subkeys|
        && err == Some(WrongPassphrase(e.subkeys[i].shortId))
        && !Unlocks(e.subkeys[i], old(e.subkeys[i].encrypted), passphrase)
        && e.subkeys[i].encrypted
        && (forall j :: 0 <= j < i ==> Unlocks(e.subkeys[j], old(e.subkeys[j].encrypted), passphrase))
        && forall k :: k in RingKeys([e]) && k != e.primary && k !in e.subkeys[..i] ==> k.encrypted == old(k.encrypted)
  {
    assert e in [e] && e.primary in [e.primary] + e.subkeys;
    var ok := e.primary.Decrypt(passphrase);
    if !ok {
      return Some(WrongPassphrase(e.primary.shortId));
    }
    err := DecryptSubkeys(e, passphrase);
  }

  /** An entity whose primary key refuses the passphrase: the code as written
      reports success and leaves the key locked. */
  method PrimaryRefusalExample() returns (err: Option<Error>, stillLocked: bool)
    ensures err == None && stillLocked
  {
    var primary := new Key("0000AAAA", [0xAA], false, p => false, true);
    var e := Entity(primary, []);
    err := DecryptPrivateKeyAsWritten(e, "wrong");
    stillLocked := primary.encrypted;
  }

  /** `DecryptedEntityList`: select the secret keys named by
      `DecryptKeyIds` and unlock the first selected entity with the
      configured passphrase. An empty selection is indexed anyway and panics. */
  method DecryptedEntityList(c: Config, secring: Result<seq<Entity>>) returns (r: Run<Result<seq<Entity>>>)
    modifies if secring.Ok? then RingKeys(secring.value) else {}
    ensures secring.Err? ==> r == Returns(Err(secring.error))
    ensures secring.Ok? ==>
      var sel := Filtered(secring.value, Split(c.decryptKeyIds, ' '));
      && (sel == [] ==> r.Panics? && forall k :: k in RingKeys(secring.value) ==> k.encrypted == old(k.encrypted))
      && (sel != [] ==>
            && r.Returns?
            && old(allocated(sel[0]))
            && (r.value.Ok? <==>
                  && Unlocks(sel[0].primary, old(sel[0].primary.encrypted), c.passphrase)
                  && forall i :: 0 <= i < |sel[0].subkeys| ==>
                       Unlocks(sel[0].subkeys[i], old(sel[0].subkeys[i].encrypted), c.passphrase))
            && forall k :: k in RingKeys(secring.value) && k !in RingKeys([sel[0]]) ==> k.encrypted == old(k.encrypted))
      && (r.Returns? && r.value.Ok? ==>
            && r.value.value == sel && sel != []
            && !sel[0].primary.encrypted
            && forall i :: 0 <= i < |sel[0].subkeys| ==> !sel[0].subkeys[i].encrypted)
      && (r.Returns? && r.value.Err? ==>
            sel != [] && exists k :: k in RingKeys([sel[0]]) && k.encrypted && r.value.error == WrongPassphrase(k.shortId))
  {
    if secring.Err? {
      return Returns(Err(secring.error));
    }
    var ring := secring.value;
    var el := FilterEntityList(ring, c.decryptKeyIds);
    if |el| == 0 {
      return Panics("index out of range");
    }
    FilteredMembers(ring, Split(c.decryptKeyIds, ' '), el[0]);
    RingKeysOfSelection(ring, [el[0]]);
    var e := el[0];
    ghost var primaryWasEncrypted := e.primary.encrypted;
    var err := DecryptPrivateKey(e, c.passphrase);
    if err.Some? {
      assert e in [e];
      if !Unlocks(e.primary, primaryWasEncrypted, c.passphrase) {
        assert e.primary in [e.primary] + e.subkeys;
      } else {
        var i :| 0 <= i < |e.subkeys| && err == Some(WrongPassphrase(e.subkeys[i].shortId)) && e.subkeys[i].encrypted;
        assert e.subkeys[i] in [e.primary] + e.subkeys;
      }
      return Returns(Err(err.value));
    }
    return Returns(Ok(el));
  }

  // ---------------------------------------------------------------------------
  // The account format

  /** `geep.Account`. */
  datatype Account = Account(name: string, username: string, password: string, notes: string)

  /** `Account.Content`: password, user name and notes, each followed by a
      newline. */
  function Content(a: Account): (c: string)
    ensures c != [] && c[|c| - 1] == '\n'
    ensures '\n' !in a.password && '\n' !in a.username && '\n' !in a.notes ==>
      Split(c, '\n') == [a.password, a.username, a.notes, ""]
  {
    TerminatedLines(a.password, a.username, a.notes);
    a.password + "\n" + a.username + "\n" + a.notes + "\n"
  }

  /** Three newline-free lines, each ended by a newline, split into the
      three lines and the empty text after the last newline. */
  lemma TerminatedLines(p: string, u: string, n: string)
    ensures '\n' !in p && '\n' !in u && '\n' !in n ==>
      Split(p + "\n" + u + "\n" + n + "\n", '\n') == [p, u, n, ""]
  {
    if '\n' !in p && '\n' !in u && '\n' !in n {
      var chunks := Accounts.ThreeLines(p, u, n, "");
      assert p + "\n" + u + "\n" + n + "\n" + "" == p + "\n" + u + "\n" + n + "\n";
    }
  }

  /** The two layouts differ only by the final newline, so they are never
      equal; and keep.go's reader takes a geep file back unchanged. */
  lemma ContentAndBytes(a: Account)
    requires '\n' !in a.password && '\n' !in a.username && '\n' !in a.notes
    ensures var k := Accounts.Account(a.name, a.username, a.password, a.notes, false, None);
      && Content(a) == Accounts.Bytes(k) + "\n"
      && Content(a) != Accounts.Bytes(k)
      && Accounts.FromFileContent(a.name, Content(a)) == Returns(k)
  {
    var k := Accounts.Account(a.name, a.username, a.password, a.notes, false, None);
    assert |Content(a)| == |Accounts.Bytes(k)| + 1;
    Accounts.ExtraLinesDropped(a.name, a.password, a.username, a.notes, "");
    assert Content(a) == a.password + "\n" + a.username + "\n" + a.notes + "\n" + "";
  }

  // ---------------------------------------------------------------------------
  // fmt.Sscanf(str, "%s\n%s\n%s", ...)

  /** The number of blanks (white space other than a newline) at the front. */
  function BlankLength(s: string): (n: nat)
    ensures n <= |s|
    ensures n == |s| || s[n] == '\n' || !IsSpace(s[n])
  {
    if s != [] && s[0] != '\n' && IsSpace(s[0]) then 1 + BlankLength(s[1..]) else 0
  }

  /** Leave out the blanks at the front. */
  function SkipBlanks(s: string): string
  {
    s[BlankLength(s)..]
  }

  /** The length of the run of non-space characters at the front. */
  function WordLength(s: string): (n: nat)
    ensures n <= |s|
    ensures forall i :: 0 <= i < n ==> !IsSpace(s[i])
    ensures n == |s| || IsSpace(s[n])
  {
    if s != [] && !IsSpace(s[0]) then 1 + WordLength(s[1..]) else 0
  }

  /** A `%s` verb: skip blanks, then read a non-empty run of non-space
      characters. Reaching the end of the input or a newline first fails. */
  function ScanWord(s: string): (r: Result<(string, string)>)
    ensures r.Ok? ==> Word(r.value.0)
  {
    var t := SkipBlanks(s);
    if t == [] || t[0] == '\n' then Err(ScanFailed)
    else
      var n := WordLength(t);
      Ok((t[..n], t[n..]))
  }

  /** A newline in the format: blanks, then a newline or the end of the
      input. */
  function ScanNewline(s: string): Result<string>
  {
    var t := SkipBlanks(s);
    if t == [] then Ok(t) else if t[0] == '\n' then Ok(t[1..]) else Err(ScanFailed)
  }

  /** A newline of the format followed by a `%s` verb. */
  function ScanNext(s: string): Result<(string, string)>
  {
    var t := ScanNewline(s);
    if t.Err? then Err(t.error) else ScanWord(t.value)
  }

  /** The three words read by the format "%s\n%s\n%s"; whatever follows the
      third is left unread. */
  function ScanThree(s: string): (r: Result<(string, string, string)>)
    ensures r.Ok? ==> Word(r.value.0) && Word(r.value.1) && Word(r.value.2)
  {
    var r1 := ScanWord(s);
    if r1.Err? then Err(r1.error)
    else
      var r2 := ScanNext(r1.value.1);
      if r2.Err? then Err(r2.error)
      else
        var r3 := ScanNext(r2.value.1);
        if r3.Err? then Err(r3.error)
        else Ok((r1.value.0, r2.value.0, r3.value.0))
  }

  /** `NewAccountFromString`: the password, the user name and the notes are
      the three words of the text; a failed scan gives no account. */
  function NewAccountFromString(name: string, str: string): (r: Result<Account>)
    ensures r.Ok? ==> r.value.name == name
    ensures r.Ok? ==> Word(r.value.password) && Word(r.value.username) && Word(r.value.notes)
  {
    var r := ScanThree(str);
    if r.Err? then Err(r.error) else Ok(Account(name, r.value.1, r.value.0, r.value.2))
  }

  /** A field `%s` can carry: non-empty, with no white space. */
  predicate Word(w: string)
  {
    w != [] && forall i :: 0 <= i < |w| ==> !IsSpace(w[i])
  }

  lemma {:induction false} WordLengthOf(w: string, rest: string)
    requires forall i :: 0 <= i < |w| ==> !IsSpace(w[i])
    requires rest == [] || IsSpace(rest[0])
    ensures WordLength(w + rest) == |w|
  {
    if w != [] {
      assert (w + rest)[1..] == w[1..] + rest;
      WordLengthOf(w[1..], rest);
    }
  }

  lemma ScanWordOf(w: string, rest: string)
    requires Word(w)
    requires rest == [] || IsSpace(rest[0])
    ensures ScanWord(w + rest) == Ok((w, rest))
  {
    WordLengthOf(w, rest);
    assert SkipBlanks(w + rest) == w + rest;
    assert (w + rest)[..|w|] == w && (w + rest)[|w|..] == rest;
  }

  lemma ScanNewlineOf(rest: string)
    ensures ScanNewline("\n" + rest) == Ok(rest)
  {
    assert ("\n" + rest)[1..] == rest;
  }

  /** A newline of the format, then a word followed by white space or the
      end of the input. */
  lemma ScanNextOf(w: string, rest: string)
    requires Word(w)
    requires rest == [] || IsSpace(rest[0])
    ensures ScanNext("\n" + w + rest) == Ok((w, rest))
  {
    assert "\n" + w + rest == "\n" + (w + rest);
    ScanNewlineOf(w + rest);
    ScanWordOf(w, rest);
  }

  /** Reading back what `Content` wrote gives the same account when every
      field is a word, and so does reading keep.go's layout without the final
      newline. */
  lemma ContentRoundTrip(a: Account)
    requires Word(a.password) && Word(a.username) && Word(a.notes)
    ensures NewAccountFromString(a.name, Content(a)) == Ok(a)
    ensures NewAccountFromString(a.name, a.password + "\n" + a.username + "\n" + a.notes) == Ok(a)
  {
    var (p, u, n) := (a.password, a.username, a.notes);
    ThreeWords(p, u, n, "\n");
    assert ScanThree(Content(a)) == Ok((p, u, n));
    ThreeWords(p, u, n, "");
    assert p + "\n" + u + "\n" + n + "" == p + "\n" + u + "\n" + n;
  }

  lemma ThreeWords(p: string, u: string, n: string, tail: string)
    requires Word(p) && Word(u) && Word(n)
    requires tail == [] || IsSpace(tail[0])
    ensures ScanThree(p + "\n" + u + "\n" + n + tail) == Ok((p, u, n))
  {
    var t3 := "\n" + n + tail;
    var t2 := "\n" + u + t3;
    assert p + "\n" + u + "\n" + n + tail == p + t2;
    ScanNextOf(n, tail);
    assert IsSpace(t3[0]);
    ScanNextOf(u, t3);
    assert IsSpace(t2[0]);
    ScanWordOf(p, t2);
  }

  /** A field with a space in it cannot be read back: the scan stops. */
  lemma SpaceInFieldFails()
    ensures NewAccountFromString("x", Content(Account("x", "u", "a b", "n"))) == Err(ScanFailed)
  {
    var rest := "b\nu\nn\n";
    assert Content(Account("x", "u", "a b", "n")) == "a" + (" " + rest);
    assert IsSpace(' ') && !IsSpace('b');
    ScanWordOf("a", " " + rest);
    assert (" " + rest)[1..] == rest && rest[0] == 'b';
    assert BlankLength(rest) == 0;
    assert BlankLength(" " + rest) == 1;
    assert SkipBlanks(" " + rest) == rest;
    assert ScanNext(" " + rest) == Err(ScanFailed);
    assert ScanThree("a" + (" " + rest)) == Err(ScanFailed);
  }

  /** An empty field cannot be read back either: the next newline comes where
      a word is expected. */
  lemma EmptyFieldFails()
    ensures NewAccountFromString("x", Content(Account("x", "u", "p", ""))) == Err(ScanFailed)
  {
    assert Content(Account("x", "u", "p", "")) == "p" + ("\n" + "u" + "\n\n");
    assert IsSpace('\n');
    ScanWordOf("p", "\n" + "u" + "\n\n");
    ScanNextOf("u", "\n\n");
    ScanNewlineOf("\n");
  }

}
