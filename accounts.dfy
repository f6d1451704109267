/** Accounts as keep.go stores them: the three-line clear-text codec, reading
    an account back from a decoded message, building one from console input,
    generating passwords and listing account files. */
module Accounts {
  import opened Errors
  import opened Text
  import Paths
  import opened KeyRing

  /** `keep.Account`. The `Config` field is not part of
      the value; `isSigned` and `signedBy` are only set when an account is
      read from a signed message. */
  datatype Account = Account(
    name: string, username: string, password: string, notes: string,
    isSigned: bool, signedBy: Option<Key>)

  // ---------------------------------------------------------------------------
  // The clear-text codec

  /** `Account.Bytes`: password, user name and notes on three lines, with no
      newline after the notes. */
  function Bytes(a: Account): (r: string)
    ensures r == a.password + "\n" + a.username + "\n" + a.notes
  {
    var parts := [a.password, a.username, a.notes];
    assert parts[1..] == [a.username, a.notes] && parts[1..][1..] == [a.notes];
    assert Join(parts[1..], '\n') == a.username + "\n" + a.notes;
    Join(parts, '\n')
  }

  /** `newAccountFromFileContent`: the first three lines of `str` are the
      password, the user name and the notes; the rest is ignored. Indexing the
      third line of a text with fewer than two newlines panics. */
  function FromFileContent(name: string, str: string): (r: Run<Account>)
    ensures r.Returns? <==> multiset(str)['\n'] >= 2
    ensures r.Returns? ==>
      && r.value.name == name && !r.value.isSigned && r.value.signedBy == None
      && '\n' !in r.value.password && '\n' !in r.value.username && '\n' !in r.value.notes
  {
    SplitCount(str, '\n');
    var chunks := Split(str, '\n');
    if |chunks| < 3 then Panics("index out of range")
    else Returns(Account(name, chunks[1], chunks[0], chunks[2], false, None))
  }

  /** Reading back what `Bytes` wrote gives the same fields, provided none of
      them holds a newline. */
  lemma BytesRoundTrip(a: Account, name: string)
    requires '\n' !in a.password && '\n' !in a.username && '\n' !in a.notes
    ensures FromFileContent(name, Bytes(a)) == Returns(Account(name, a.username, a.password, a.notes, false, None))
  {
    var parts := [a.password, a.username, a.notes];
    SplitJoin(parts, '\n');
  }

  /** Lines after the third are dropped. */
  lemma ExtraLinesDropped(name: string, p: string, u: string, n: string, more: string)
    requires '\n' !in p && '\n' !in u && '\n' !in n
    ensures FromFileContent(name, p + "\n" + u + "\n" + n + "\n" + more) == Returns(Account(name, u, p, n, false, None))
  {
    var chunks := ThreeLines(p, u, n, more);
    assert chunks[0] == p && chunks[1] == u && chunks[2] == n;
  }

  lemma ThreeLines(p: string, u: string, n: string, more: string) returns (chunks: seq<string>)
    requires '\n' !in p && '\n' !in u && '\n' !in n
    ensures chunks == Split(p + "\n" + u + "\n" + n + "\n" + more, '\n')
    ensures chunks == [p, u, n] + Split(more, '\n')
  {
    var s := p + "\n" + u + "\n" + n + "\n" + more;
    assert s == p + ['\n'] + (u + ['\n'] + (n + ['\n'] + more));
    SplitAtFirstSeparator(p, '\n', u + ['\n'] + (n + ['\n'] + more));
    SplitAtFirstSeparator(u, '\n', n + ['\n'] + more);
    SplitAtFirstSeparator(n, '\n', more);
    chunks := Split(s, '\n');
  }

  /** A password holding a newline does not survive the round trip: only its
      first line comes back, and its second line takes the user name's place. */
  lemma NewlineInFieldBreaksRoundTrip()
    ensures FromFileContent("x", Bytes(Account("x", "u", "a\nb", "n", false, None)))
         == Returns(Account("x", "b", "a", "u", false, None))
  {
    ExtraLinesDropped("x", "a", "b", "u", "n");
    assert "a\nb" == "a" + "\n" + "b";
  }

  // ---------------------------------------------------------------------------
  // Reading an account from a decoded message

  /** What the OpenPGP engine reports about a decoded message: whether it is
      signed, by whom when the signer is known, the signature error seen at
      the time of the check, and the clear text as reading it to the end
      returns it. */
  datatype Message = Message(
    isSigned: bool, signedBy: Option<Key>, signatureError: Option<Error>, body: Result<string>)

  /** `NewAccountFromReader`: read the whole clear text, then parse it. */
  function FromReader(name: string, body: Result<string>): (r: Run<Result<Account>>)
    ensures body.Err? ==> r == Returns(Err(body.error))
    ensures body.Ok? ==> (r.Returns? <==> FromFileContent(name, body.value).Returns?)
  {
    if body.Err? then Returns(Err(body.error))
    else
      match FromFileContent(name, body.value)
      case Returns(a) => Returns(Ok(a))
      case Panics(why) => Panics(why)
  }

  /** The outcome of reading the account of message `md` at `path`, once
      the signature check has let it through: a body read error is returned;
      otherwise the text is parsed (panicking below two newlines), the
      account is named after the base name, and it is marked signed, by the
      message's signer, exactly when the message is signed. */
  predicate ReadAsIntended(path: string, md: Message, r: Run<Result<Account>>)
  {
    && (md.body.Err? ==> r == Returns(Err(md.body.error)))
    && (md.body.Ok? ==> (r.Panics? <==> multiset(md.body.value)['\n'] < 2))
    && (r.Returns? && md.body.Ok? ==>
          var a := FromFileContent(Paths.Base(path), md.body.value).value;
          r.value == Ok(a.(isSigned := md.isSigned, signedBy := if md.isSigned then md.signedBy else None)))
  }

  /** `NewAccountFromFile` AS WRITTEN. `decoded` is what decoding the file
      gave. A signed message with a signature error is refused; otherwise the
      account is read from the clear text under the file's base name and, for
      a signed message, marked as signed. That marking is done on the
      returned account even when reading failed, where the account is
      nil: a signed message whose clear text cannot be read panics. On every
      other input it behaves as the corrected `NewAccountFromFile`. */
  method NewAccountFromFileAsWritten(path: string, decoded: Result<Message>) returns (r: Run<Result<Account>>)
    ensures decoded.Err? ==> r == Returns(Err(decoded.error))
    ensures decoded.Ok? && decoded.value.isSigned && decoded.value.signatureError.Some? ==>
      r == Returns(Err(SignatureInvalid))
    ensures decoded.Ok? && decoded.value.isSigned && decoded.value.signatureError.None? && decoded.value.body.Err? ==>
      r.Panics?
    ensures decoded.Ok? && !(decoded.value.isSigned && (decoded.value.signatureError.Some? || decoded.value.body.Err?)) ==>
      ReadAsIntended(path, decoded.value, r)
  {
    if decoded.Err? {
      return Returns(Err(decoded.error));
    }
    var md := decoded.value;
    if md.isSigned && md.signatureError.Some? {
      return Returns(Err(SignatureInvalid));
    }
    var account := FromReader(Paths.Base(path), md.body);
    if account.Panics? {
      return account;
    }
    if md.isSigned {
      if account.value.Err? {
        return Panics("nil pointer dereference");
      }
      account := Returns(Ok(account.value.value.(isSigned := true, signedBy := md.signedBy)));
    }
    return account;
  }

  /** `NewAccountFromFile` as evidently intended: the same steps, but the
      provenance is only copied onto an account that was read, so a read
      failure is reported as the error it is. */
  method NewAccountFromFile(path: string, decoded: Result<Message>) returns (r: Run<Result<Account>>)
    ensures decoded.Err? ==> r == Returns(Err(decoded.error))
    ensures decoded.Ok? && decoded.value.isSigned && decoded.value.signatureError.Some? ==>
      r == Returns(Err(SignatureInvalid))
    ensures decoded.Ok? && !(decoded.value.isSigned && decoded.value.signatureError.Some?) ==>
      ReadAsIntended(path, decoded.value, r)
  {
    if decoded.Err? {
      return Returns(Err(decoded.error));
    }
    var md := decoded.value;
    if md.isSigned && md.signatureError.Some? {
      return Returns(Err(SignatureInvalid));
    }
    var account := FromReader(Paths.Base(path), md.body);
    if account.Panics? {
      return account;
    }
    if md.isSigned && account.value.Ok? {
      account := Returns(Ok(account.value.value.(isSigned := true, signedBy := md.signedBy)));
    }
    return account;
  }

  /** Whatever the decoding, an account read back is never signed unless the
      message was, and is named after the file's base name. */
  lemma ReadAccountProvenance(path: string, md: Message, a: Account)
    requires md.body.Ok? && FromFileContent(Paths.Base(path), md.body.value) == Returns(a)
    ensures a.name == Paths.Base(path) && !a.isSigned && a.signedBy == None
  {
  }

  // ---------------------------------------------------------------------------
  // Password generation

  /** `validChars`, byte by byte as the source file holds it: the letters
      without g, h, l, I and O, the digits, thirteen symbols, and the seven
      bytes C3 A2 E2 80 9A C2 AC, which spell "â‚¬" (the euro sign, encoded
      twice). */
  const Lower: seq<byte> := [97, 98, 99, 100, 101, 102, 105, 106, 107, 109, 110, 111, 112, 113, 114, 115, 116, 117, 118, 119, 120, 121, 122]
  const Upper: seq<byte> := [65, 66, 67, 68, 69, 70, 71, 72, 74, 75, 76, 77, 78, 80, 81, 82, 83, 84, 85, 86, 87, 88, 89, 90]
  const Digits: seq<byte> := [48, 49, 50, 51, 52, 53, 54, 55, 56, 57]
  const Symbols: seq<byte> := [126, 45, 95, 61, 43, 40, 41, 123, 125, 64, 35, 38, 36] // ~-_=+(){}@#&$
  const Tail: seq<byte> := [0xC3, 0xA2, 0xE2, 0x80, 0x9A, 0xC2, 0xAC]
  const ValidChars: seq<byte> := Lower + Upper + Digits + Symbols + Tail

  /** The bytes a draw can pick: the random index is below
      `len(validChars) - 1`, so the last byte is never drawn. */
  function Drawable(): (bs: seq<byte>)
    ensures |bs| == |ValidChars| - 1 == 76
    ensures bs == Lower + Upper + Digits + Symbols + Tail[..6]
  {
    var head := Lower + Upper + Digits + Symbols;
    assert ValidChars == head + Tail;
    assert ValidChars[..|ValidChars| - 1] == head + Tail[..6];
    ValidChars[..|ValidChars| - 1]
  }

  lemma ClassRanges()
    ensures forall b :: b in Lower ==> 97 <= b <= 122
    ensures forall b :: b in Upper ==> 65 <= b <= 90
    ensures forall b :: b in Digits ==> 48 <= b <= 57
    ensures forall b :: b in Symbols ==> 33 <= b <= 126
  {
  }

  lemma TailBytes()
    ensures Tail[..6] == [0xC3, 0xA2, 0xE2, 0x80, 0x9A, 0xC2]
    ensures forall b :: b in Tail[..6] ==> 0x80 <= b <= 0xE2 && b != 0x85 && b != 0xA0 && b != 0xAC
  {
  }

  /** `NewPassword(length)`: `length` bytes, each drawn independently and
      uniformly from `Drawable()` by the system's random source. A failing
      draw aborts with its error. The draws are nondeterministic here; no
      claim is made about their distribution. */
  method NewPassword(length: nat) returns (r: Result<seq<byte>>)
    ensures r.Ok? ==> |r.value| == length
    ensures r.Ok? ==> forall i :: 0 <= i < |r.value| ==> r.value[i] in Drawable()
  {
    var password := new byte[length];
    var i := 0;
    while i < length
      invariant 0 <= i <= length
      invariant forall k :: 0 <= k < i ==> password[k] in Drawable()
    {
      var drawFailed: bool := *;
      if drawFailed {
        return Err(Failed("crypto/rand: read failed"));
      }
      var n :| 0 <= n < |ValidChars| - 1;
      password[i] := ValidChars[n];
      assert password[i] == Drawable()[n];
      i := i + 1;
    }
    return Ok(password[..]);
  }

  /** Selection is per byte: the trailing byte of the alphabet (AC) is never
      produced, while the other bytes of the multi-byte tail are, one at a
      time, so a password need not be valid UTF-8. */
  lemma DrawableBytes()
    ensures 0xAC !in Drawable()
    ensures 0xE2 in Drawable() && 0x80 in Drawable() && 0xC3 in Drawable()
    ensures forall b :: b in Drawable() ==> !IsSpace(b as char)
  {
    ClassRanges();
    TailBytes();
    assert 0xE2 in Tail[..6] && 0x80 in Tail[..6] && 0xC3 in Tail[..6];
  }

  // ---------------------------------------------------------------------------
  // Console input

  /** A Go byte string seen as text, one character per byte. */
  function BytesAsText(bs: seq<byte>): (s: string)
    ensures |s| == |bs| && forall i :: 0 <= i < |bs| ==> s[i] as int == bs[i]
  {
    seq(|bs|, i requires 0 <= i < |bs| => bs[i] as char)
  }

  /** The normalisation in `NewAccountFromConsole`. `name`, `username` and
      `notes` are the lines read (with their newline, when there was one);
      `typed` is the result of reading the password with echo off. The word
      "gen" asks for a generated ten-byte password; every field is stripped of
      surrounding white space. */
  method NewAccountFromConsole(name: string, username: string, notes: string, typed: Result<string>)
    returns (r: Result<Account>)
    ensures typed.Err? ==> r == Err(typed.error)
    ensures typed.Ok? && typed.value != "gen" ==>
      r == Ok(Account(TrimSpace(name), TrimSpace(username), TrimSpace(typed.value), TrimSpace(notes), false, None))
    ensures typed.Ok? && typed.value == "gen" && r.Ok? ==>
      && r.value == r.value.(name := TrimSpace(name), username := TrimSpace(username), notes := TrimSpace(notes))
      && !r.value.isSigned && r.value.signedBy == None
      && |r.value.password| == 10
      && forall i :: 0 <= i < 10 ==> r.value.password[i] as int in Drawable()
  {
    if typed.Err? {
      return Err(typed.error);
    }
    var password := typed.value;
    if password == "gen" {
      var generated := NewPassword(10);
      if generated.Err? {
        return Err(generated.error);
      }
      password := BytesAsText(generated.value);
      DrawableBytes();
      assert forall i :: 0 <= i < |password| ==> password[i] as int in Drawable();
      TrimSpaceKeepsTrimmed(password);
    }
    return Ok(Account(TrimSpace(name), TrimSpace(username), TrimSpace(password), TrimSpace(notes), false, None));
  }

  // ---------------------------------------------------------------------------
  // Listing account files

  /** The file names kept by `ListAccountFiles(sub)`: those containing `sub`,
      ignoring case, in the order the names are given. */
  function Listed(names: seq<string>, sub: string): seq<string>
  {
    if names == [] then []
    else
      var init := names[..|names| - 1];
      var last := names[|names| - 1];
      Listed(init, sub) + (if Contains(ToLower(last), ToLower(sub)) then [last] else [])
  }

  /** `ListAccountFiles(sub)`. `dir` is what reading the account directory
      gave: the entry names, or the error, which is passed on. */
  method ListAccountFiles(dir: Result<seq<string>>, sub: string) returns (r: Result<seq<string>>)
    ensures dir.Err? ==> r == Err(dir.error)
    ensures dir.Ok? ==> r == Ok(Listed(dir.value, sub))
  {
    if dir.Err? {
      return Err(dir.error);
    }
    var names := dir.value;
    var filtered := [];
    for i := 0 to |names|
      invariant filtered == Listed(names[..i], sub)
    {
      assert names[..i + 1][..i] == names[..i];
      if Contains(ToLower(names[i]), ToLower(sub)) {
        filtered := filtered + [names[i]];
      }
    }
    assert names[..|names|] == names;
    return Ok(filtered);
  }

  /** A name is listed exactly when it is a directory entry whose lower-case
      form contains the lower-case `sub`. */
  lemma {:induction false} ListedMembers(names: seq<string>, sub: string, n: string)
    ensures n in Listed(names, sub) <==> n in names && Contains(ToLower(n), ToLower(sub))
  {
    if names != [] {
      ListedMembers(names[..|names| - 1], sub, n);
      assert names == names[..|names| - 1] + [names[|names| - 1]];
    }
  }

  /** With no substring, every entry is listed. */
  lemma {:induction false} EmptySubstringListsAll(names: seq<string>)
    ensures Listed(names, "") == names
  {
    if names != [] {
      EmptySubstringListsAll(names[..|names| - 1]);
      assert names == names[..|names| - 1] + [names[|names| - 1]];
    }
  }

  lemma LowerOfUpper(s: string)
    ensures ToLower(ToUpper(s)) == ToLower(s)
  {
  }

  /** The filter ignores the case of the substring. */
  lemma {:induction false} ListingIgnoresCase(names: seq<string>, sub: string)
    ensures Listed(names, ToUpper(sub)) == Listed(names, sub)
  {
    LowerOfUpper(sub);
    if names != [] {
      ListingIgnoresCase(names[..|names| - 1], sub);
    }
  }
}
