# keep: a verified model of a GPG-backed password manager

`keep` stores one account per file. Each file holds three lines in clear text:
the password, the user name and notes. The file is encrypted to the recipients'
OpenPGP keys and signed by the user's key. This project models in Dafny the
parts of `keep` that decide what happens. The OpenPGP engine, gpg-agent, the
terminal, the random source and the file system are oracles passed in as
parameters. The model covers:

- **Key rings** (`keyring.dfy`, module `KeyRing`): keys that are locked until a
  passphrase the engine accepts unlocks them, and `filterEntityList`. This
  function selects entities by 32-bit short key ID, token by token and then
  in ring order.
- **Passphrase acquisition** (`prompt.dfy`, module `Prompt`):
  - the three prompt functions: a fixed string, gpg-agent and the terminal;
  - the agent's passphrase cache, keyed by the upper-case hex fingerprint;
  - `GuessPromptFunction` and its environment override.
- **Configuration and signing** (`config.dfy`, module `Configs`): the
  `Config` object and `EntitySigner`.
- **Accounts** (`accounts.dfy`, module `Accounts`):
  - the three-line codec;
  - the decode-result policy of `NewAccountFromFile`;
  - password generation;
  - console normalisation;
  - the case-insensitive file listing.
- **The profile store** (`profiles.dfy`, module `Profiles`): the default
  profile, the configuration path, and load-or-initialise over an abstract
  file system with an opaque JSON codec.
- **geep.go, a second variant of the package** (`geep.dfy`, module `Geep`): its
  configuration and `decryptPrivateKey`. It also models `DecryptedEntityList`,
  and the newline-terminated account format read back with
  `fmt.Sscanf("%s\n%s\n%s")`.
- **The command line** (`cli.dfy`, module `Cli`):
  - profile selection;
  - the `--dir` and `--recipients` overrides;
  - the file-selection table of `read`;
  - `list`;
  - `add`'s refusal to overwrite.

Support modules:

- `Errors` (`errors.dfy`): the `Result`, `Option` and `Run` wrappers. `Run`
  distinguishes a Go panic from a returned value.
- `Text` (`text.dfy`): `strings.Split` and `Join`, `Contains`, ASCII case
  mapping, `unicode.IsSpace` and `TrimSpace`, and hex encoding.
- `Paths` (`paths.dfy`): `filepath.Dir`, `Base` and `Join` on clean paths.

Go panics appear in the model as values: `Run.Panics` and `Cli.Step.Panic`.
Process exits appear as `Cli.Step.Exit`. Where a source function behaves
differently from what it evidently intends, the model has two versions.
The one named `…AsWritten` follows the code. The other is the corrected
version, which the rest of the model uses. Both are listed under
"Findings".

Three behaviours of the code are easy to get wrong, and the model keeps them:

- The environment variable `GPGPASSPHRASE` beats a gpg-agent connection. The
  agent is only the fallback.
- `filterEntityList` orders its result by token first and ring position
  second, so it is neither in ring order nor idempotent on repeated tokens.
- `EntitySigner` chooses a fresh prompt function. It does not use the
  configuration's `PromptFunction`.

## Model

| member | source | states |
|---|---|---|
| KeyRing.FilterEntityList | keep.go:57-68 | the selection is `Filtered(ring, Split(recipients, ' '))`, i.e. per space-separated token, the entities whose primary short ID equals it, in ring order; geep.go:36-47 is an identical copy, modelled by the same member |
| KeyRing.FilteredMembers | keep.go:59-66 | an entity is selected iff it is in the ring and its primary short ID is one of the tokens |
| KeyRing.NoMatchSelectsNothing | keep.go:57-68 | when no token matches, the selection is empty (not an error) |
| KeyRing.FilteredAppend | keep.go:59-66 | selection is token by token: tokens `a + b` select `a`'s entities followed by `b`'s |
| KeyRing.RepeatedTokenDuplicates | keep.go:59-66 | a repeated token yields the entity twice, and filtering again duplicates it further |
| KeyRing.TokenOrderBeatsRingOrder | keep.go:59-66 | the order of tokens, not of the ring, decides the output order |
| KeyRing.FilteredIdempotent | keep.go:57-68 | with pairwise distinct tokens, filtering a selection again by a prefix of the tokens changes nothing |
| KeyRing.MalformedTokenSelectsNothing | keep.go:62 | matching is exact: a token that is not eight upper-case hex digits (e.g. the empty token of a doubled space) selects nothing |
| KeyRing.Key.Decrypt | keep.go:89 | an unlocked key reports success; a locked key is unlocked exactly when the engine accepts the passphrase, and stays locked otherwise |
| KeyRing.DecryptionKeys | keep.go:224 | every key handed to the signer prompt is a decryption-capable key of the selected entities |
| Prompt.AgentConn.GetPassphrase | keep.go:108-109 | a cached passphrase is answered, a miss asks pinentry and caches its answer, a closed connection fails |
| Prompt.AgentConn.RemoveFromCache | keep.go:115 | the entry for the cache ID is removed and nothing else |
| Prompt.AgentConn.Close | keep.go:102 | the connection is closed and the cache is left as it was |
| Prompt.CacheIdIsUpperHex | keep.go:105 | the cache ID is the upper-case hex of the fingerprint, two digits per byte, and distinct fingerprints give distinct IDs |
| Prompt.PromptFromString | keep.go:84-98 | no key gives "Unable to find key"; only the first key is tried; success returns the passphrase and leaves the key unlocked, failure returns the unlock error |
| Prompt.PromptTerminal | keep.go:129-145 | no key gives "Unable to find key" without reading; a read error is returned with the key untouched; otherwise the first key only is unlocked with what was typed |
| Prompt.PromptGpgAgentAsWritten | keep.go:100-127 | the cache is queried under the first key's cache ID; a lookup error returns before any unlock; a wrong passphrase evicts that same ID and then returns no error and an empty passphrase; the connection is closed on every path |
| Prompt.AgentShadowingExample | keep.go:114-121 | a key that refuses its cached passphrase ends with "success", an empty passphrase and the key still locked |
| Prompt.PromptGpgAgent | keep.go:100-127 | as written, except that a wrong passphrase is reported as an error after the eviction |
| Prompt.GuessPromptFunction | keep.go:148-166 | the result is the terminal, replaced by the agent when a connection opened, both overridden by the first environment entry that counts |
| Prompt.OverridingEntry | keep.go:156-162 | an entry "GPGPASSPHRASE=v" with no "=" in `v` sets the fixed passphrase `v`, whatever the agent |
| Prompt.ValueWithEqualsIgnored | keep.go:157-158 | a value holding "=" splits into more than two parts, so the entry is skipped as if absent |
| Prompt.OverridingEntryShape | keep.go:157-158 | an entry counts only if it is "GPGPASSPHRASE=" followed by a value without "=" |
| Prompt.EnvPassphraseSource | keep.go:155-162 | the environment passphrase comes from the first entry that counts, and no earlier entry counts |
| Prompt.RunPrompt | keep.go:224-225 | with the corrected agent prompt: no key gives "Unable to find key"; otherwise it succeeds iff the strategy obtains a passphrase that unlocks the first key, and then returns exactly that passphrase and leaves the key unlocked; a failure returns the strategy's own error or the refusal and leaves the key as it was |
| Configs.Config.constructor | keep.go:183-190 | every path and key-ID field is copied from the profile, and the prompt function is the one given |
| Configs.NewConfig | keep.go:179-191 | a fresh configuration from the profile, or the default profile when none is given, with the prompt function `GuessPromptFunction` chooses |
| Configs.Config.EntitySigner | keep.go:213-236 | a key-ring error is passed on; a signer selection of any size other than one gives the count error; no decryption key gives "Unable to find key"; otherwise it succeeds iff the chosen strategy's passphrase unlocks the first decryption key and the signer's primary key, and then returns the single selected entity with its primary key unlocked; it changes no key but the signer's primary key and the first decryption key, and none at all on a key-ring, count or "Unable to find key" error |
| Configs.UnlockSigner | keep.go:224-235 | it succeeds iff the passphrase obtained unlocks the first decryption key and the signer's primary key, and then returns the signer unlocked; a prompt failure returns the prompt's error and changes neither key; a refusing primary key gives `WrongPassphrase` for it and stays locked |
| Accounts.Bytes | keep.go:366-368 | the text is password, newline, user name, newline, notes, with no trailing newline |
| Accounts.FromFileContent | keep.go:337-348 | it returns iff the text holds at least two newlines (otherwise indexing panics); the fields are newline-free, unsigned, named as given |
| Accounts.BytesRoundTrip | keep.go:337-368 | reading back `Bytes` gives the same three fields when none holds a newline |
| Accounts.ExtraLinesDropped | keep.go:341-345 | lines after the third are ignored |
| Accounts.NewlineInFieldBreaksRoundTrip | keep.go:341-345 | a password holding a newline comes back cut, and its second line takes the user name's place |
| Accounts.FromReader | keep.go:353-362 | a read error is returned; otherwise it returns iff parsing the text returns |
| Accounts.NewAccountFromFileAsWritten | keep.go:318-335 | decode errors pass through; a signed message with a signature error is refused; a signed message whose body cannot be read panics; on every other input the outcome is `ReadAsIntended`, as for the corrected member |
| Accounts.NewAccountFromFile | keep.go:318-335 | as written, but a body read error is returned; the account is named after the base name and marked signed, by the message's signer, exactly when the message is signed |
| Accounts.Drawable | keep.go:25-31 | the drawable bytes are the 76 first bytes of `validChars`, i.e. all but the last |
| Accounts.NewPassword | keep.go:29-39 | a successful result has exactly `length` bytes, each one of the drawable bytes |
| Accounts.DrawableBytes | keep.go:25-37 | byte AC of the euro sign is never drawn, while E2, 80 and C3 are, one byte at a time; no drawable byte is white space |
| Accounts.BytesAsText | keep.go:304 | the text has one character per byte, with the byte's value |
| Accounts.NewAccountFromConsole | keep.go:277-315 | a password read error is returned; "gen" is replaced by a generated ten-byte password; every field is trimmed of surrounding white space |
| Accounts.ListAccountFiles | keep.go:249-261 | a directory read error is passed on; otherwise the names kept are those containing the substring, ignoring case, in the order of the given listing |
| Accounts.ListedMembers | keep.go:255-257 | a name is listed iff it is a directory entry whose lower-case form contains the lower-case substring |
| Accounts.EmptySubstringListsAll | keep.go:249-261 | the empty substring lists every entry |
| Accounts.ListingIgnoresCase | keep.go:256 | upper-casing the substring does not change the listing |
| Geep.NewConfig | geep.go:112-127 | both key-ID lists are `GPGKEY`, the passphrase is `PASSPHRASE`, and the paths are the fixed locations under `$HOME` |
| Geep.DecryptSubkeys | geep.go:59-65 | with the primary unlocked, sub-keys are unlocked in order; success means all unlock; a failure names the first refusing sub-key, all earlier ones having unlocked and the refusing one and all later ones left as they were |
| Geep.DecryptPrivateKeyAsWritten | geep.go:49-66 | a primary key that refuses the passphrase gives success, with every key left as it was; when the primary unlocks, the sub-key outcomes are those of the corrected member: all unlock, or the first refusal is named and no later sub-key is touched |
| Geep.PrimaryRefusalExample | geep.go:54-57 | an entity whose primary key refuses the passphrase is reported unlocked while it is still locked |
| Geep.DecryptPrivateKey | geep.go:49-66 | a refusing primary key is reported; success means the primary and every sub-key unlocked; otherwise the error names the first refusing sub-key, and no sub-key after it is touched |
| Geep.DecryptedEntityList | geep.go:138-151 | with the corrected `decryptPrivateKey`: a key-ring error is passed on; an empty selection panics and changes nothing; a non-empty one returns, and succeeds iff the first entity's primary key and every sub-key unlock with the configured passphrase; success returns the selection with that entity fully unlocked; an error names a locked key of that entity; no key outside that entity changes |
| Geep.Content | geep.go:181-183 | the text ends in a newline, and with newline-free fields it splits on newlines into password, user name, notes and an empty last part |
| Geep.ContentAndBytes | geep.go:181-183 | `Content` is keep.go's `Bytes` plus a final newline, so the two never coincide, and keep.go's reader takes a geep file back unchanged |
| Geep.ScanWord | geep.go:170-173 | a `%s` verb reads a non-empty run of non-space characters |
| Geep.ScanThree | geep.go:170-173 | all three fields read are non-empty and free of white space |
| Geep.NewAccountFromString | geep.go:168-179 | an account read has the given name and three white-space-free, non-empty fields; a scan failure gives no account |
| Geep.ScanWordOf | geep.go:172 | a word followed by white space or the end is read back exactly |
| Geep.ScanNextOf | geep.go:172 | a newline then such a word is read back exactly |
| Geep.ThreeWords | geep.go:170-173 | three words on three lines, followed by white space or nothing, scan back to the same words |
| Geep.ContentRoundTrip | geep.go:168-183 | `NewAccountFromString` inverts `Content` for non-empty, white-space-free fields, and also reads the layout without the final newline |
| Geep.SpaceInFieldFails | geep.go:168-183 | a field holding a space does not survive: the scan fails |
| Geep.EmptyFieldFails | geep.go:168-183 | an empty field does not survive: the scan fails |
| Profiles.DefaultProfile | profile_store.go:22-36 | the name is "default", recipients and signer are both `GPGKEY`, and the paths are the default locations |
| Profiles.GetConfigPaths | profile_store.go:42-45 | the second path is the account directory; the first is named "keep.conf" and lies in the account directory's parent |
| Profiles.ConfigBesideAccountDir | profile_store.go:44 | the configuration file's base is "keep.conf", and on a path without doubled separators its directory is the account directory's parent |
| Paths.Join | cmd/keep/main.go:192 | `filepath.Join` ignores an empty element (so an empty account name gives the account directory itself) and otherwise puts exactly one separator between directory and name |
| Paths.JoinThenSplit | profile_store.go:44 | `Dir` and `Base` take a joined path back apart |
| Profiles.FileSystem.MkdirAll | profile_store.go:54 | creating a directory succeeds iff it exists already or nothing is in its way, and otherwise reports the file in the way or the refusal; files are untouched |
| Profiles.FileSystem.WriteFile | profile_store.go:65 | writing succeeds iff the path is not a directory and not refused, and otherwise reports the refusal; it then sets that file only |
| Profiles.InitOutcome | profile_store.go:47-70 | when anything may be at the configuration path it refuses and changes nothing; a failed mkdir returns before writing and changes nothing; it succeeds iff the path is free, the account directory can be made, the default store encodes and the configuration path is not the account directory itself; success returns exactly the default profile, writes its encoding at the configuration path and adds the account directory; no error changes any file |
| Profiles.InitProfileStore | profile_store.go:47-70 | the result, files and directories are exactly `InitOutcome` of the starting file system |
| Profiles.LoadProfileStore | profile_store.go:73-89 | when the configuration file does not exist its outcome is exactly `InitOutcome`; otherwise it changes nothing and returns the decoded file or the read or decode error |
| Profiles.InitThenLoad | profile_store.go:47-89 | with a round-tripping codec, loading right after a successful initialisation reads back the same store |
| Cli.FirstNamedFound | cmd/keep/main.go:69-76 | the profile found by name is at some position, has the name, and no earlier profile has it |
| Cli.FirstNamedMissing | cmd/keep/main.go:69-80 | no profile is found iff no profile has the name |
| Cli.SelectProfile | cmd/keep/main.go:65-81 | an empty store panics; without `--profile` the first profile is used; with it, the first profile of that name, or exit status 1 |
| Cli.ApplyOverrides | cmd/keep/main.go:84-93 | `--dir` and `--recipients`, when given, replace the account directory and the recipients; all other fields are unchanged |
| Cli.SelectAccountFileAsWritten | cmd/keep/main.go:121-139 | one match is taken whatever the number; several matches with a number in range pick that file; a negative number panics; otherwise exit status 1 |
| Cli.NegativePositionExample | cmd/keep/main.go:126-129 | two matches and position -1 panic |
| Cli.SelectAccountFile | cmd/keep/main.go:121-139 | never panics; any file opened is one of the matches; it exits with status 1 iff there is no match, or several without a position inside the list |
| Cli.ListCommand | cmd/keep/main.go:174-182 | the listing is the case-insensitive filter of the directory by `<file>`, and every entry without it; a read error exits with status 1 |
| Cli.AddAccount | cmd/keep/main.go:192-199 | when anything may be at `AccountDir/Name` (for an empty name, the account directory itself) the run exits with status 1 and nothing is written; otherwise the content is written there; no existing file is ever changed |
| Text.SplitJoin | keep.go:341 | splitting a join of separator-free parts gives the parts back |
| Text.SplitCount | keep.go:157 | `strings.Split` gives one more part than there are separators |

## Left out

- The OpenPGP engine is an oracle and not part of this model:
  - key-ring parsing (`getKeyRing`), armor, `ReadMessage` and `decodeFile`;
  - `Account.Encrypt` in both files;
  - the RFC 4880 message format.

  Unlocking a key is the `opens` predicate of `KeyRing.Key`, and a decoded
  message is the `Accounts.Message` record.
- The gpg-agent socket protocol and connection setup: whether a connection
  opened is the parameter `agent`, and pinentry's answer is `pinentry`.
- `crypto/rand`: draws are nondeterministic choices. A failing draw is a
  nondeterministic flag. Nothing is claimed about the distribution.
- Terminal, `bufio` and `fmt` output, `docopt` argument parsing, and the
  clipboard copy with its timed restore (a deferred goroutine sleep). The
  values read are parameters. The `<number>` argument arrives already parsed;
  a failed `strconv.Atoi` exits with status 1 before any listing, and that
  step is not modelled.
- cmd/keep-tui/main.go, cmd/keep.go and cmd/geep.go are not part of this
  model.
- The package's default path constants for keep.go are not part of this
  model. They are the `Defaults` parameter, already expanded.
- `os.ExpandEnv` is modelled only where geep.go expands `$HOME` (`Geep.NewConfig`, with the value as the parameter `home`); keep.go's expanded defaults arrive as the `Defaults` parameter.
- `Text.ToLower`: case mapping covers ASCII letters only, not Unicode
  `strings.ToLower`.
- Paths are taken as clean: `Paths` does not model `filepath.Clean`.
- `Profiles.FileSystem` does not track parent directories or permissions
  beyond a fixed set of refused paths.
- `json.MarshalIndent` and `json.Unmarshal` are the opaque `Codec` pair.
- The signature error of a message is taken as it stands before the body is
  read. The OpenPGP library only settles it once the body has been read to
  the end, and that interleaving is not modelled. The consequence in the
  source: keep.go:322 checks the signature error before the body is read,
  when it is still nil, so a signed message with a tampered signature is
  not refused there, and keep.go:329-331 then marks the account as signed
  by the claimed signer. The model's `NewAccountFromFile` refuses such a
  message only when the error is already present in its `Message` input.
- Accounts.ListAccountFiles: the listing is taken in the order given.
  `ioutil.ReadDir` returns entries sorted by file name; that sorting is part
  of the directory oracle and not modelled.
- Prompt.RunPrompt: it dispatches to the corrected `PromptGpgAgent`. With
  the agent prompt as written, a key that refuses its cached passphrase
  gives success with an empty passphrase and the key still locked
  (keep.go:114-121), so "success leaves the first key unlocked" does not hold
  of the source there.
- Configs.Config.EntitySigner: it uses the corrected agent prompt. In the
  source, when the signer's primary key is already unlocked and its first
  decryption sub-key refuses the agent's cached passphrase, the prompt
  returns an empty passphrase without error, the primary key's `Decrypt`
  succeeds, and the signer is returned; the model reports the refusal.
- Geep.DecryptedEntityList: it uses the corrected `DecryptPrivateKey`. In the
  source, when the first entity's primary key refuses the passphrase,
  geep.go:145-151 returns the selection and no error with that key still
  locked; the model reports the refusal.
- When the environment overrides the prompt, the agent connection opened by
  `GuessPromptFunction` is dropped without being closed. The model does not
  track that leak.
- `read` opens the selected bare file name relative to the working
  directory. The model stops at the name chosen.
- Accounts.NewPassword: the length is a `nat`. A negative Go `length` (which
  makes `make` panic) is not modelled.
- Accounts.NewAccountFromConsole: `TrimSpace` is applied to the generated
  password byte by byte. Go first decodes it as UTF-8, so a generated
  password that starts or ends with E2 80 80 (U+2000, a space) would be
  trimmed to fewer than ten bytes in Go, while the model keeps all ten.
- Geep.ScanThree: Go's `Sscanf` decodes its input as UTF-8 runes. The
  model works on characters, so bytes that are not valid UTF-8 are not
  modelled.

## Findings

| source | as written | input that shows it | evidently intended | confidence | as-written member | corrected member |
|---|---|---|---|---|---|---|
| keep.go:114-121 | the eviction branch declares a new `err` and returns it, so after a successful eviction the prompt returns no error and an empty passphrase | a key whose cached passphrase it refuses | return the unlock error after evicting | not executed | Prompt.AgentShadowingExample | Prompt.PromptGpgAgent |
| geep.go:54-57 | a primary key that refuses the passphrase makes `decryptPrivateKey` return nil | an entity whose primary key refuses the passphrase | return the unlock error | not executed | Geep.PrimaryRefusalExample | Geep.DecryptPrivateKey |
| cmd/keep/main.go:126 | the guard bounds the position from above only | two matching files and `<number>` -1 | accept only `0 <= p < l` | not executed | Cli.NegativePositionExample | Cli.SelectAccountFile |
| keep.go:327-331 | the signature fields are set on the returned account even when reading failed and the account is nil | a signed message, without a signature error, whose body cannot be read | copy provenance only onto an account that was read | not executed | Accounts.NewAccountFromFileAsWritten | Accounts.NewAccountFromFile |
