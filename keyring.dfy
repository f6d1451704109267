/** Key rings and their filtering by short key ID (`filterEntityList` in
    keep.go and, identically, in geep.go). */
module KeyRing {
  import opened Text

  /** An OpenPGP key as the engine hands it out. The public half identifies
      it; the private half stays locked (`encrypted`) until a passphrase the
      engine accepts unlocks it. Whether a passphrase is accepted is decided
      by the engine, so it is an oracle here (`opens`). */
  class Key {
    /** `KeyIdShortString()`: the 32-bit short form of the key ID
        (section 12.2 of RFC 4880), as upper-case hex. */
    const shortId: string
    const fingerprint: seq<byte>
    /** The key's usage flags allow decrypting messages. */
    const decrypts: bool
    const opens: string -> bool
    var encrypted: bool

    constructor (shortId: string, fingerprint: seq<byte>, decrypts: bool, opens: string -> bool, encrypted: bool)
      ensures this.shortId == shortId && this.fingerprint == fingerprint
      ensures this.decrypts == decrypts && this.opens == opens && this.encrypted == encrypted
    {
      this.shortId := shortId;
      this.fingerprint := fingerprint;
      this.decrypts := decrypts;
      this.opens := opens;
      this.encrypted := encrypted;
    }

    /** `PrivateKey.Decrypt(passphrase)`: a key that is already unlocked
        reports success; a locked one is unlocked exactly when the engine
        accepts the passphrase. A failure leaves the key locked. */
    method Decrypt(passphrase: string) returns (ok: bool)
      modifies this
      ensures ok == (!old(encrypted) || opens(passphrase))
      ensures encrypted == !ok
    {
      if encrypted && opens(passphrase) {
        encrypted := false;
      }
      ok := !encrypted;
    }
  }

  /** Whether unlocking a key in state `wasEncrypted` with `passphrase` succeeds. */
  predicate Unlocks(k: Key, wasEncrypted: bool, passphrase: string)
  {
    !wasEncrypted || k.opens(passphrase)
  }

  /** `openpgp.Entity`: a primary key and its sub-keys. */
  datatype Entity = Entity(primary: Key, subkeys: seq<Key>)

  /** Every key object an entity list holds, for frames. */
  function RingKeys(ring: seq<Entity>): set<Key>
  {
    set e, k | e in ring && k in [e.primary] + e.subkeys :: k
  }

  lemma RingKeysOfSuffix(ring: seq<Entity>)
    requires ring != []
    ensures RingKeys(ring[1..]) <= RingKeys(ring)
  {
    forall k | k in RingKeys(ring[1..]) ensures k in RingKeys(ring) {
      var e :| e in ring[1..] && k in [e.primary] + e.subkeys;
      assert e in ring;
    }
  }

  /** A selection taken from a ring holds no key the ring does not. */
  lemma RingKeysOfSelection(ring: seq<Entity>, sel: seq<Entity>)
    requires forall e :: e in sel ==> e in ring
    ensures RingKeys(sel) <= RingKeys(ring)
  {
  }

  /** `EntityList.DecryptionKeys()`: the sub-keys whose usage flags allow
      decryption, entity by entity, in ring order. */
  function DecryptionKeys(ring: seq<Entity>): (keys: seq<Key>)
    ensures forall k :: k in keys ==> k.decrypts && k in RingKeys(ring)
  {
    if ring == [] then []
    else
      var own := DecryptableOf(ring[0].subkeys);
      forall k | k in own ensures k in RingKeys(ring) {
        assert ring[0] in ring && k in [ring[0].primary] + ring[0].subkeys;
      }
      RingKeysOfSuffix(ring);
      own + DecryptionKeys(ring[1..])
  }

  function DecryptableOf(subkeys: seq<Key>): (keys: seq<Key>)
    ensures forall k :: k in keys ==> k.decrypts && k in subkeys
  {
    if subkeys == [] then []
    else (if subkeys[0].decrypts then [subkeys[0]] else []) + DecryptableOf(subkeys[1..])
  }

  // ---------------------------------------------------------------------------
  // filterEntityList

  function Last<T>(s: seq<T>): T
    requires s != []
  {
    s[|s| - 1]
  }

  /** The entities of `ring` whose primary short key ID is exactly `id`, in
      ring order. */
  function Matching(ring: seq<Entity>, id: string): (m: seq<Entity>)
    ensures forall e :: e in m ==> e in ring
  {
    if ring == [] then []
    else Matching(ring[..|ring| - 1], id) + (if Last(ring).primary.shortId == id then [Last(ring)] else [])
  }

  /** What `filterEntityList` selects for the tokens `ids`: token by token,
      the matching entities in ring order. */
  function Filtered(ring: seq<Entity>, ids: seq<string>): (sel: seq<Entity>)
    ensures forall e :: e in sel ==> e in ring
  {
    if ids == [] then [] else Filtered(ring, ids[..|ids| - 1]) + Matching(ring, Last(ids))
  }

  /** `filterEntityList(el, recipients)`: split `recipients` on single
      spaces and, for each token in turn, append every entity of the ring
      whose primary short key ID equals the token. */
  method FilterEntityList(ring: seq<Entity>, recipients: string) returns (selected: seq<Entity>)
    ensures selected == Filtered(ring, Split(recipients, ' '))
  {
    var ids := Split(recipients, ' ');
    selected := [];
    for i := 0 to |ids|
      invariant selected == Filtered(ring, ids[..i])
    {
      for j := 0 to |ring|
        invariant selected == Filtered(ring, ids[..i]) + Matching(ring[..j], ids[i])
      {
        assert ring[..j + 1][..j] == ring[..j];
        if ids[i] == ring[j].primary.shortId {
          selected := selected + [ring[j]];
        }
      }
      assert ring[..|ring|] == ring;
      assert ids[..i + 1][..i] == ids[..i];
    }
    assert ids[..|ids|] == ids;
  }

  // ---------------------------------------------------------------------------
  // Properties of the selection

  lemma {:induction false} MatchingMembers(ring: seq<Entity>, id: string, e: Entity)
    ensures e in Matching(ring, id) <==> e in ring && e.primary.shortId == id
  {
    if ring != [] {
      MatchingMembers(ring[..|ring| - 1], id, e);
      assert ring == ring[..|ring| - 1] + [Last(ring)];
    }
  }

  /** An entity is selected exactly when it is in the ring and its primary
      short key ID is one of the tokens. */
  lemma {:induction false} FilteredMembers(ring: seq<Entity>, ids: seq<string>, e: Entity)
    ensures e in Filtered(ring, ids) <==> e in ring && e.primary.shortId in ids
  {
    if ids != [] {
      FilteredMembers(ring, ids[..|ids| - 1], e);
      MatchingMembers(ring, Last(ids), e);
      assert ids == ids[..|ids| - 1] + [Last(ids)];
    }
  }

  /** No token matching any entity gives an empty selection, not an error. */
  lemma NoMatchSelectsNothing(ring: seq<Entity>, ids: seq<string>)
    requires forall e :: e in ring ==> e.primary.shortId !in ids
    ensures Filtered(ring, ids) == []
  {
    if Filtered(ring, ids) != [] {
      FilteredMembers(ring, ids, Filtered(ring, ids)[0]);
    }
  }

  lemma {:induction false} MatchingAppend(a: seq<Entity>, b: seq<Entity>, id: string)
    ensures Matching(a + b, id) == Matching(a, id) + Matching(b, id)
  {
    if b != [] {
      var b' := b[..|b| - 1];
      assert (a + b)[..|a + b| - 1] == a + b';
      MatchingAppend(a, b', id);
    } else {
      assert a + b == a;
    }
  }

  /** Selection is token by token: the selection for `a + b` is the
      selection for `a` followed by the selection for `b`. So a repeated
      token repeats its entities. */
  lemma {:induction false} FilteredAppend(ring: seq<Entity>, a: seq<string>, b: seq<string>)
    ensures Filtered(ring, a + b) == Filtered(ring, a) + Filtered(ring, b)
  {
    if b != [] {
      var b' := b[..|b| - 1];
      assert (a + b)[..|a + b| - 1] == a + b';
      FilteredAppend(ring, a, b');
    } else {
      assert a + b == a;
    }
  }

  lemma {:induction false} MatchingTwice(ring: seq<Entity>, t: string, r: string)
    ensures Matching(Matching(ring, t), r) == if r == t then Matching(ring, t) else []
  {
    if ring != [] {
      var init := ring[..|ring| - 1];
      MatchingTwice(init, t, r);
      var tail := if Last(ring).primary.shortId == t then [Last(ring)] else [];
      MatchingAppend(Matching(init, t), tail, r);
      if tail != [] {
        assert Matching(tail, r) == Matching([], r) + (if Last(ring).primary.shortId == r then [Last(ring)] else []);
      }
    }
  }

  predicate Distinct(ids: seq<string>)
  {
    forall i, j :: 0 <= i < j < |ids| ==> ids[i] != ids[j]
  }

  lemma {:induction false} MatchingOfFiltered(ring: seq<Entity>, ids: seq<string>, r: string)
    requires Distinct(ids)
    ensures Matching(Filtered(ring, ids), r) == if r in ids then Matching(ring, r) else []
  {
    if ids != [] {
      var init := ids[..|ids| - 1];
      MatchingOfFiltered(ring, init, r);
      MatchingAppend(Filtered(ring, init), Matching(ring, Last(ids)), r);
      MatchingTwice(ring, Last(ids), r);
      assert ids == init + [Last(ids)];
      if r == Last(ids) {
        assert r !in init;
      }
    }
  }

  /** Filtering a selection again with the same pairwise distinct tokens
      changes nothing. */
  lemma {:induction false} FilteredIdempotent(ring: seq<Entity>, ids: seq<string>, again: seq<string>)
    requires Distinct(ids)
    requires again <= ids
    ensures Filtered(Filtered(ring, ids), again) == Filtered(ring, again)
  {
    if again != [] {
      var init := again[..|again| - 1];
      FilteredIdempotent(ring, ids, init);
      MatchingOfFiltered(ring, ids, Last(again));
      assert Last(again) == ids[|again| - 1];
    }
  }

  /** With a repeated token the selection is not idempotent: one entity
      selected by "T T" is selected twice, and four times after a second pass. */
  lemma RepeatedTokenDuplicates(e: Entity, t: string)
    requires e.primary.shortId == t
    ensures Filtered([e], [t, t]) == [e, e]
    ensures Filtered(Filtered([e], [t, t]), [t, t]) == [e, e, e, e]
  {
    assert [e][..0] == [];
    assert [t, t][..1] == [t];
    assert [t] == [t][..0] + [t];
    assert Matching([e], t) == [e];
    assert Filtered([e], [t]) == [e];
    assert Filtered([e], [t, t]) == [e] + [e];
    MatchingAppend([e], [e], t);
    assert Matching([e, e], t) == [e, e];
    assert Filtered([e, e], [t]) == [e, e];
    assert Filtered([e, e], [t, t]) == [e, e] + [e, e];
  }

  /** The selection follows the order of the tokens, not the order of the
      ring. */
  lemma TokenOrderBeatsRingOrder(a: Entity, b: Entity)
    requires a.primary.shortId == "AAAAAAAA" && b.primary.shortId == "BBBBBBBB"
    ensures Filtered([a, b], ["BBBBBBBB", "AAAAAAAA"]) == [b, a]
  {
    assert [a, b][..1] == [a];
    assert [a][..0] == [];
    assert Matching([a], "BBBBBBBB") == [];
    assert Matching([a], "AAAAAAAA") == [a];
    assert Matching([a, b], "BBBBBBBB") == [b];
    assert Matching([a, b], "AAAAAAAA") == [a];
    var ids := ["BBBBBBBB", "AAAAAAAA"];
    assert ids[..1] == ["BBBBBBBB"];
    assert ids[..1][..0] == [];
    assert Filtered([a, b], ids[..1]) == [b];
  }

  /** A short key ID as the engine prints it: eight upper-case hex digits. */
  predicate WellFormedId(id: string)
  {
    |id| == 8 && forall i :: 0 <= i < |id| ==> IsUpperDigit(id[i])
  }

  /** Matching is exact and case-sensitive: a token that is not eight
      upper-case hex digits (an empty token from a doubled space, a
      lower-case ID, a long key ID) selects nothing from a ring of
      well-formed IDs. */
  lemma MalformedTokenSelectsNothing(ring: seq<Entity>, id: string)
    requires forall e :: e in ring ==> WellFormedId(e.primary.shortId)
    requires !WellFormedId(id)
    ensures Matching(ring, id) == []
  {
    if Matching(ring, id) != [] {
      MatchingMembers(ring, id, Matching(ring, id)[0]);
    }
  }
}
