/** keep.go's `Config`: the key-ring paths, account directory and key IDs a
    run works with, and the prompt function chosen for it; and `EntitySigner`,
    which finds and unlocks the key that signs new accounts. */
module Configs {
  import opened Errors
  import opened Text
  import opened KeyRing
  import opened Prompt
  import opened Profiles

  /** `keep.Config`. The command line overwrites its fields in place. */
  class Config {
    var secringDir: string
    var pubringDir: string
    var accountDir: string
    var recipientKeyIds: string
    var signerKeyId: string
    var promptFunction: PromptFunction

    constructor (p: Profile, pf: PromptFunction)
      ensures secringDir == p.secringDir && pubringDir == p.pubringDir && accountDir == p.accountDir
      ensures recipientKeyIds == p.recipientKeyIds && signerKeyId == p.signerKeyId
      ensures promptFunction == pf
    {
      secringDir := p.secringDir;
      pubringDir := p.pubringDir;
      accountDir := p.accountDir;
      recipientKeyIds := p.recipientKeyIds;
      signerKeyId := p.signerKeyId;
      promptFunction := pf;
    }

    /** The entities of the secret ring selected by `SignerKeyID`. */
    function Signers(ring: seq<Entity>): seq<Entity>
      reads this
    {
      Filtered(ring, Split(signerKeyId, ' '))
    }

    /** `EntitySigner`. `secring` is what reading the secret key ring gave;
        `agent`, `environ`, `typed` and `pinentry` feed the prompt function
        chosen afresh for this call (not the configuration's own). The
        signer filter must leave exactly one entity; its decryption sub-keys
        are handed to the prompt, and the passphrase obtained must then
        unlock the entity's primary key. */
    method EntitySigner(secring: Result<seq<Entity>>, agent: Option<AgentConn>, environ: seq<string>,
                        typed: Result<string>, pinentry: Result<string>)
      returns (r: Result<Entity>)
      modifies if secring.Ok? && |Signers(secring.value)| == 1
               then {Signers(secring.value)[0].primary} + FirstKey(DecryptionKeys(Signers(secring.value)))
               else {}
      modifies if agent.Some? then {agent.value} else {}
      ensures secring.Err? ==> r == Err(secring.error)
      ensures secring.Ok? && |Signers(secring.value)| != 1 ==> r == Err(SignerCount(|Signers(secring.value)|))
      ensures secring.Ok? && |Signers(secring.value)| == 1 && DecryptionKeys(Signers(secring.value)) == [] ==>
        r == Err(UnableToFindKey)
      ensures r.Ok? ==> secring.Ok? && Signers(secring.value) == [r.value] && !r.value.primary.encrypted
      ensures secring.Ok? && |Signers(secring.value)| == 1 ==> old(allocated(Signers(secring.value)[0]))
      ensures secring.Ok? && |Signers(secring.value)| == 1 && DecryptionKeys(Signers(secring.value)) == [] ==>
        Signers(secring.value)[0].primary.encrypted == old(Signers(secring.value)[0].primary.encrypted)
      ensures secring.Ok? && |Signers(secring.value)| == 1 && DecryptionKeys(Signers(secring.value)) != [] ==>
        old(allocated(DecryptionKeys(Signers(secring.value))[0]))
      ensures secring.Ok? && |Signers(secring.value)| == 1 && DecryptionKeys(Signers(secring.value)) != [] ==>
        var signer := Signers(secring.value)[0];
        var k := DecryptionKeys(Signers(secring.value))[0];
        var offered := old(Offered(ChosenPrompt(agent, environ), k, typed, pinentry));
        && (r.Ok? <==>
              && offered.Ok?
              && Unlocks(k, old(k.encrypted), offered.value)
              && Unlocks(signer.primary, old(signer.primary.encrypted), offered.value))
        && (r.Ok? ==> r.value == signer)
    {
      if secring.Err? {
        return Err(secring.error);
      }
      var ring := secring.value;
      var el := FilterEntityList(ring, signerKeyId);
      if |el| != 1 {
        return Err(SignerCount(|el|));
      }
      SignerKeys(ring, el);
      var prompt := GuessPromptFunction(agent, environ);
      r := UnlockSigner(el[0], DecryptionKeys(el), prompt, typed, pinentry);
    }
  }

  /** The keys `EntitySigner` may touch are keys of the ring, and the first
      decryption key handed to the prompt is one of the signer's. */
  lemma SignerKeys(ring: seq<Entity>, el: seq<Entity>)
    requires |el| == 1 && el[0] in ring
    ensures el[0].primary in RingKeys(ring)
    ensures FirstKey(DecryptionKeys(el)) <= RingKeys(ring)
    ensures allocated(el[0])
    ensures DecryptionKeys(el) != [] ==> allocated(DecryptionKeys(el)[0])
  {
    RingKeysOfSelection(ring, el);
    assert el[0] in el && el[0].primary in [el[0].primary] + el[0].subkeys;
  }

  /** The second half of `EntitySigner`: obtain a passphrase for the
      decryption keys with the prompt function, then unlock the signer's
      primary key with it. */
  method UnlockSigner(signer: Entity, keys: seq<Key>, pf: PromptFunction, typed: Result<string>, pinentry: Result<string>)
    returns (r: Result<Entity>)
    modifies FirstKey(keys), {signer.primary}, if pf.GpgAgent? then {pf.conn} else {}
    ensures keys == [] ==> r == Err(UnableToFindKey) && signer.primary.encrypted == old(signer.primary.encrypted)
    ensures keys != [] ==>
      var offered := old(Offered(pf, keys[0], typed, pinentry));
      && (r.Ok? <==>
            && offered.Ok?
            && Unlocks(keys[0], old(keys[0].encrypted), offered.value)
            && Unlocks(signer.primary, old(signer.primary.encrypted), offered.value))
    ensures r.Ok? ==> r.value == signer && !signer.primary.encrypted
    ensures keys != [] ==>
      var offered := old(Offered(pf, keys[0], typed, pinentry));
      && (!(offered.Ok? && Unlocks(keys[0], old(keys[0].encrypted), offered.value)) ==>
            && r == Err(if offered.Err? then offered.error else WrongPassphrase(keys[0].shortId))
            && keys[0].encrypted == old(keys[0].encrypted)
            && signer.primary.encrypted == old(signer.primary.encrypted))
      && (offered.Ok? && Unlocks(keys[0], old(keys[0].encrypted), offered.value)
          && !Unlocks(signer.primary, old(signer.primary.encrypted), offered.value) ==>
            r == Err(WrongPassphrase(signer.primary.shortId)) && signer.primary.encrypted)
  {
    var passphrase := RunPrompt(pf, keys, typed, pinentry);
    if passphrase.Err? {
      return Err(passphrase.error);
    }
    var ok := signer.primary.Decrypt(passphrase.value);
    if !ok {
      return Err(WrongPassphrase(signer.primary.shortId));
    }
    return Ok(signer);
  }

  /** `NewConfig(p)`: copy the profile, or the default profile when there is
      none, and choose the prompt function. */
  method NewConfig(p: Option<Profile>, gpgKey: string, d: Defaults, agent: Option<AgentConn>, environ: seq<string>)
    returns (c: Config)
    ensures fresh(c)
    ensures var q := if p.Some? then p.value else DefaultProfile(gpgKey, d);
      && c.secringDir == q.secringDir && c.pubringDir == q.pubringDir && c.accountDir == q.accountDir
      && c.recipientKeyIds == q.recipientKeyIds && c.signerKeyId == q.signerKeyId
    ensures c.promptFunction == ChosenPrompt(agent, environ)
  {
    var profile := if p.Some? then p.value else DefaultProfile(gpgKey, d);
    var pf := GuessPromptFunction(agent, environ);
    c := new Config(profile, pf);
  }
}
