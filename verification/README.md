# KeyMaster Avatar: a verified model

KeyMaster Avatar lets desktop tools use keys that stay on a phone. A tool talks to a
service avatar (km-nostr-sa, km-gpg-sa, km-ssh-sa, or a PKCS#11 module), the service avatar
talks to the avatar daemon over a local socket, and the daemon exchanges encrypted events
with the phone over a relay that may lose, delay, repeat and reorder them. This project
models that chain in Dafny and proves what each part promises the next.

| file | what it models |
|---|---|
| `LocalApi.dfy` | the daemon's connection tasks, the pending-reply map, answers by anybody (a state machine over every interleaving) |
| `LocalReplies.dfy` | what the daemon answers of its own, and which lines it publishes, from the lines alone |
| `SerialBridge.dfy` | km-nostr-sa: many clients, one daemon connection, replies matched by order alone |
| `SharedConnection.dfy` | km-gpg-sa: many shims sharing one daemon connection under two mutexes |
| `Sessions.dfy` | the session manager and the attach and detach handlers, as classes |
| `Translation.dfy`, `Encodings.dfy` | hex and Base64, and the per-method translation between typed client and phone |
| `Certificate.dfy` | the PKCS#11 module's DER certificate encoder, against an independent DER reader |
| `Identities.dfy` | the filter on the phone's key list |
| `Pkcs11.dfy`, `Pkcs11Attributes.dfy` | the token: sessions, object search, signing, attribute reads into caller memory |
| `CanonicalJson.dfy` | the canonical text of a connector, against an independent JSON reader |
| `Assuan.dfy`, `AssuanCommands.dfy` | the smart-card shim: text, hex, percent encoding, the command loop |
| `KeySexp.dfy` | the key text of READKEY, against an independent writer of canonical S-expressions |
| `SshAgent.dfy` | the SSH agent messages and connection loop of km-ssh-sa |
| `Common.dfy`, `JsonValues.dfy` | Option, bytes, JSON values in memory |

How to read it. Code that updates state in place is a class or a method with loops, proved
equal to a specification function (`Sessions.Daemon.HandleAttach`,
`Pkcs11.Cryptoki.C_FindObjects`, `AssuanCommands.Shim.Serve`, ...); the theorems are lemmas
about those functions. Concurrent code is a state machine: a step is a point where a task
can be interrupted, a step that is not enabled changes nothing, and a run is any sequence of
steps. History that only theorems read (`published`, `answers`, `took`, `origin`, `inits`, `listed`)
is kept beside the state. Event ids are fresh, key derivation and hashes are parameters.

Some results say where the code does less than one might expect. Each comes with a failing
input and the exact condition:

- An error answered without an `id` reaches the client as a success
  (`LocalApi.ErrorsSurfaceIffAnswersHaveIds`, `SerialBridge.AnswersReachTheClient`; a whole
  run in `SerialBridge.ErrorWithoutIdBecomesSuccess`).
- Nobody looks at the author of an answer, so replies are the phone's if and only if nobody
  else's answer is delivered while the waiter listens (`LocalApi.AnswersAreThePhonesIff`,
  `LocalApi.AnyoneCanAnswer`).
- The fast re-attach looks at neither the service list nor the identity; the session it
  keeps is the one the slow path would build just when the request asks for the same
  identity, the same types, the same seq numbers in force, and a listener if there is one
  (`Sessions.FastReattachAgreesWithSlow`, for a derivation that keeps seq numbers apart;
  `Sessions.ReattachMayOverstate`, `Sessions.ReattachMayKeepTheIdentity`).
- The smart-card shim panics, answering nothing, on a SETDATA argument whose octets pair up
  and whose first pair that is not one of hex digits ends inside a character
  (`Assuan.AbortIff`, `AssuanCommands.EveryLineIsAnsweredIff`,
  `AssuanCommands.SplitCharacterAborts`).
- The PKCS#11 module panics only if C_Finalize comes between another call's check and its
  lock, and whenever it does the caught call can (`Pkcs11.PanicNeedsFinalizeInBetween`,
  `Pkcs11.FinalizeInBetweenPanics`).
- The certificate reads back exactly for labels up to 32662 octets
  (`Certificate.CertificateReadsBack`).

`dafny verify dfyconfig.toml` checks the whole project.

## Model

| member | source | states |
|---|---|---|
| LocalApi.RepliesFollowRequests | crates/avatar/src/local_api.rs:143-258 | in every interleaving a connection answers its request lines one by one in order without gaps; each reply is the daemon's own error or connect acknowledgement under the line's id, or the one answer, by whatever author, taken for the event published for that very line |
| LocalApi.StepKeepsInv | crates/avatar/src/local_api.rs:265-372 | every step of any task, any answerer and the relay keeps the agreement between task states, pending map and publication record, and history only grows |
| LocalApi.PendingConservation | crates/avatar/src/local_api.rs:323-371 | over every run each pending entry belongs to a live waiter for that event and each listening waiter has its entry; without active waiters the map is empty; a waiter is handed at most one answer, and only one tagged with its event |
| LocalApi.PublishedOncePerLine | crates/avatar/src/local_api.rs:309-330 | no line is published as two events |
| LocalApi.RepliesAlign | crates/avatar/src/local_api.rs:143-258 | when every line is a request, the j-th reply is for the j-th line (what peers that match by order rely on) |
| LocalApi.AnswersAreForwarded | crates/avatar/src/local_api.rs:333-358 | over every run, a reply made from an answer with an `id` carries that `id`, the answer's result, and an error exactly when the answer has one, with its code and message; an answer without one is wrapped whole under the id of the connection's request line |
| LocalReplies.OwnRepliesAreRight | crates/avatar/src/local_api.rs:155-257 | over every run, a reply of the daemon's own is the acknowledgement of a connect line, or the error its line calls for, under that line's id |
| LocalReplies.OnlyBoundRequestsArePublished | crates/avatar/src/local_api.rs:155-257 | over every run, a connection is bound to the service of its latest connect line, and events are published only for requests, not connects, that come after one |
| LocalApi.ErrorsSurfaceIffAnswersHaveIds | crates/avatar/src/local_api.rs:333-358 | over every run, a reply made from an answer reports an error exactly when the answer carries an error and an `id`; otherwise an error becomes the result of a success |
| LocalApi.TookIffHeard | crates/avatar/src/main.rs:461-493 | an event's waiter takes exactly the answer delivered while it listens |
| LocalApi.AnswersAreThePhonesIff | crates/avatar/src/main.rs:362-493 | all answers taken, and so all answers replied, are by the key their event is addressed to if and only if no other author's answer is delivered while the waiter listens |
| LocalApi.AnyoneCanAnswer | crates/avatar/src/main.rs:362-493 | from every reachable state with a listening waiter, any response by any author can become the reply |
| SerialBridge.RepliesAreTheClientsOwn | crates/km-nostr-sa/src/main.rs:384-436 | with any number of clients, lost connections, any relay and any answerers, the j-th reply of a client carries its j-th message's id and, unless an error, is the translated result of the one answer taken for the event published for that message |
| SerialBridge.DaemonIsALocalApiRun | crates/km-nostr-sa/src/main.rs:345-437 | the daemon under the bridge makes a run of the local API, so everything proved over those runs holds here |
| SerialBridge.AnswersReachTheClient | crates/km-nostr-sa/src/main.rs:405-421 | a client's reply made from an answer is an error exactly when the answer carries an error and an `id`, and the answer is the one delivered while its event's waiter listened |
| SerialBridge.ResultsReachTheClient | crates/km-nostr-sa/src/main.rs:404-421 | over every run, the client hears what the answer says: its result translated for the method of the client's message, the code and message of its error, under that message's id; an answer without an `id` arrives whole as a result |
| SerialBridge.AnyAnswerReachesTheClient | crates/km-nostr-sa/src/main.rs:345-437 | for every message and every response by any author, a run of 16 steps in which the client's reply is that response, translated |
| SerialBridge.ErrorWithoutIdBecomesSuccess | crates/avatar/src/local_api.rs:333-358 | in that run, an error without an `id` is a success to the client |
| SerialBridge.PublishedIsTheMessage | crates/km-nostr-sa/src/main.rs:392-401 | what was published for a client's message is that message: prefixed method, translated parameters |
| SerialBridge.PublishedAtMostOnce | crates/km-nostr-sa/src/main.rs:384-436 | a client's message is published at most once across reconnections |
| SerialBridge.WaitingClientsAreHeld | crates/km-nostr-sa/src/main.rs:181-255 | a waiting client's call is on the queue or in flight, never forgotten |
| SerialBridge.StepKeepsInv | crates/km-nostr-sa/src/main.rs:345-437 | lock-step use of the connection and abandonment after any error are kept by every step |
| SharedConnection.RepliesAreTheShimsOwn | crates/km-gpg-sa/src/main.rs:467-506 | any number of shims share one stream and each reply is an error, a connect acknowledgement or the one answer taken for the shim's own request, although the stream is kept after errors |
| SharedConnection.ResultsReachTheShim | crates/km-gpg-sa/src/main.rs:485-500 | over every run, a shim's reply made from an answer with an `id` is that answer: its id, result, error code and message |
| SharedConnection.OneExchangeAtATime | crates/km-gpg-sa/src/main.rs:485-497 | at most one shim is between its write and its read |
| SharedConnection.LocksDoNotDeadlock | crates/km-gpg-sa/src/main.rs:485-497 | whenever a shim waits for a mutex some shim can proceed |
| Sessions.SessionManager.FindSessionByKmPubkey | crates/avatar/src/session.rs:106-111 | finds a session of the phone exactly when there is one |
| Sessions.SessionManager.RealmXpubMatches | crates/avatar/src/session.rs:117-126 | tells whether the phone's session has this realm_xpub, None when it has no session |
| Sessions.SessionManager.RemoveSession | crates/avatar/src/session.rs:129-148 | the session leaves the map and both its shutdown channels are signalled, nothing else |
| Sessions.SessionManager.AddServiceChannel | crates/avatar/src/session.rs:81-104 | the channel is filed under its type in that session only |
| Sessions.SessionManager.FindServiceChannel | crates/avatar/src/session.rs:151-184 | returns a channel of that type, of that identity when one is given, exactly when there is one |
| Sessions.Daemon.RegisterChannels | crates/avatar/src/main.rs:723-761 | the derivation loop, stopping at the first failure with the prefix registered |
| Sessions.Daemon.HandleAttach | crates/avatar/src/main.rs:495-816 | from the message's parameters: services, identity, connector checks with their refusals and the one unanswered failure, then attach, as one transition of the daemon's state |
| Sessions.AttachMessageIsRead | crates/avatar/src/main.rs:515-555 | an attach message as a phone writes it is read as the services meant (entries without a type skipped, a missing or unsuitable seq number read as zero), its identity and its realm_xpub, given as an object or as the first element of a list |
| Sessions.Daemon.AttachVerified | crates/avatar/src/main.rs:646-816 | allowlist, fast re-attach, and evict, create, derive, listen, as one transition |
| Sessions.IdentitiesAreSignedFor | crates/avatar/src/main.rs:560-645 | with connector and signature, an attach passes the checks exactly when the connector does not name another daemon and the identity attached under is a 32-byte key that signed the connector's canonical text; without a signature nothing is verified |
| Sessions.Daemon.HandleDetach | crates/avatar/src/main.rs:818-846 | removes and signals exactly the phone's session |
| Sessions.RunKeepsInv | crates/avatar/src/main.rs:362-459 | every sequence of handled events keeps the session invariant |
| Sessions.SessionsAreFiled | crates/avatar/src/session.rs:45-104 | at most one session per phone, filed under its own event id; each channel under its own type with the realm key of its session's phone |
| Sessions.SessionsAreAdmitted | crates/avatar/src/main.rs:646-720 | over every run, with an allowlist only listed identities have a session, and every session stems from an attach with its event id, sender, identity and realm_xpub that passed the connector checks |
| Sessions.NoOrphanListener | crates/avatar/src/main.rs:763-789 | every listener ever started is signalled and owned by no session, or unsignalled and owned by exactly one, whose identity it serves |
| Sessions.ChangedXpubIsDetachThenAttach | crates/avatar/src/main.rs:698-789 | an attach with a changed realm_xpub leaves the same sessions and signalled listeners as a detach followed by that attach |
| Sessions.OtherPhonesUntouched | crates/avatar/src/main.rs:698-720 | no attach or detach changes another phone's session or signals its listener |
| Sessions.RefusedOrReattachChangesNothing | crates/avatar/src/main.rs:640-693 | an attach changes nothing exactly when it is refused or re-attaches with the same realm_xpub |
| Sessions.ChannelsAreInForce | crates/avatar/src/main.rs:723-761 | the channel map holds for each type the channel of the last seq number before derivation stops |
| Sessions.ChannelsHoldDerivedKeys | crates/avatar/src/main.rs:723-761 | in every reachable state, a session has a channel for exactly the types mentioned before the first service that cannot be derived, and each holds the avatar keys derived for its type and the seq number of its last mention, the phone key derived from the realm_xpub for the same two, or the phone's own key without one |
| Sessions.LastSeqsIsLast | crates/avatar/src/session.rs:81-104 | a repeated service type is ruled by its last mention |
| Sessions.FastReattachAgreesWithSlow | crates/avatar/src/main.rs:666-789 | in every reachable state the session kept and the one the slow path would build agree in identity, types, channels and listener when the request asks for the same identity, types, seq numbers in force and listener, and only then, as long as distinct seq numbers yield distinct avatar keys |
| Sessions.ReattachMayKeepTheIdentity | crates/avatar/src/main.rs:666-693 | without realm_xpub, a phone attached as alice that re-attaches as bob is accepted while session and listener stay alice's |
| Sessions.ReattachMayOverstate | crates/avatar/src/main.rs:666-693 | a re-attach that asks for more services is told they are accepted and has no channel for them |
| Sessions.Connection.Serve | crates/avatar/src/local_api.rs:155-257 | what an open connection does with a line under the current sessions |
| Sessions.OrphanedConnectionIsRefused | crates/avatar/src/local_api.rs:265-295 | once an identity's last session is gone, every request on its bound open connections is answered NO_SESSION until a new attach |
| Encodings.HexDecodeIff | crates/km-nostr-sa/src/main.rs:91-98 | hex text decodes to these bytes exactly when, in lower case, it is their encoding |
| Encodings.Base64DecodeIff | crates/km-nostr-sa/src/main.rs:100-107 | Base64 text decodes to these bytes exactly when it is their encoding |
| Encodings.HexRoundTrip | crates/km-nostr-client/src/lib.rs:323-336 | decoding undoes hex encoding |
| Encodings.Base64RoundTrip | crates/km-nostr-sa/src/main.rs:100-107 | decoding undoes Base64 encoding |
| Encodings.HexIsTable5 | crates/km-nostr-sa/src/main.rs:91-98 | each byte is written as its high and its low digit (section 8 of RFC 4648) |
| Encodings.Base64IsTable1 | crates/km-nostr-sa/src/main.rs:100-107 | the alphabet of section 4 of RFC 4648 |
| Encodings.GroupsAreSixBits | crates/km-nostr-sa/src/main.rs:100-107 | three bytes are four groups of six bits, most significant first; a shorter last group is filled up with zero bits and padded |
| Translation.Slot.TranslateRequestParams | crates/km-nostr-sa/src/main.rs:109-145 | the in-place rewriting recodes exactly the byte fields of the method |
| Translation.Slot.TranslateResponseResult | crates/km-nostr-sa/src/main.rs:147-175 | the same for results, including the list of keys |
| Translation.RequestBytesArrive | crates/km-nostr-client/src/lib.rs:78-266 | for every client method, each byte field written in hex reaches the phone as Base64 of the same bytes, every other field unchanged |
| Translation.CallsArrive | crates/km-nostr-client/src/lib.rs:78-266 | a phone that reads the method name and, under the names the method gives them, keys and data in Base64 gets back exactly the call the client made, for every call |
| Translation.ResultBytesArrive | crates/km-nostr-client/src/lib.rs:78-266 | every byte result in Base64 is read by the client as the same bytes; texts and indices unchanged |
| Certificate.DerSeq | crates/pkcs11-gpg/src/module.rs:121-127 | the appending loop yields the tagged concatenation |
| Certificate.CreateSelfSignedCert | crates/pkcs11-gpg/src/module.rs:102-178 | the bytes built step by step are the encoding of the certificate tree, and a DER reader finds in them a certificate of this key and label exactly for labels up to 32662 octets |
| Certificate.WriteReads | crates/pkcs11-gpg/src/module.rs:104-119 | any tree whose contents fit two length octets reads back, followed by anything, under a DER reader that insists on minimal lengths |
| Certificate.CertificateReadsBack | crates/pkcs11-gpg/src/module.rs:102-178 | the certificate reads back as the intended tree, label in issuer and subject, exactly for labels up to 32662 octets |
| Certificate.CertificateSays | crates/pkcs11-gpg/src/module.rs:102-178 | what the DER reader finds, position by position: version, serial number, Ed25519 identifiers, the label as common name of issuer and subject, the two times, the key after a zero octet, a signature of zeros; exactly for labels up to 32662 octets |
| Certificate.DerLenSays | crates/pkcs11-gpg/src/module.rs:104-112 | the octets of a length (section 8.1.3 of X.690) |
| Certificate.OversizeUnreadable | crates/pkcs11-gpg/src/module.rs:104-112 | a longer content is never readable |
| Identities.IndicesSurviveFiltering | crates/scd-shim/src/main.rs:611-633 | kept identities hold the decoded key of the raw entry at their index, in order, and every usable entry is kept |
| Identities.UsableIff | crates/scd-shim/src/main.rs:611-633 | the usable entries are the Ed25519 keys of 32 bytes in Base64 |
| Pkcs11.HandleDecodesIff | crates/pkcs11-gpg/src/module.rs:77-95 | handles and pairs of index and kind determine each other |
| Pkcs11.MatchingHandlesExact | crates/pkcs11-gpg/src/module.rs:677-695 | a search lists exactly the handles of existing objects of the wanted class, once each, increasing |
| Pkcs11.FindReturnsEachOnce | crates/pkcs11-gpg/src/module.rs:723-734 | whatever the caller's counts, the outputs together are the next handles in order, then nothing more |
| Pkcs11.LastClassDecides | crates/pkcs11-gpg/src/module.rs:661-675 | the last class attribute with a value of the right size decides the class searched for; without one every class is |
| Pkcs11.SearchFindsTheObjects | crates/pkcs11-gpg/src/module.rs:649-737 | from C_FindObjectsInit on, any number of C_FindObjects calls hand out handles of existing objects of the class asked for, increasing, and all of them once the counts allow it |
| Pkcs11.FinalEndsTheSearch | crates/pkcs11-gpg/src/module.rs:739-750 | after C_FindObjectsFinal nothing is handed out |
| Pkcs11.OperationsEnd | crates/pkcs11-gpg/src/module.rs:538-595 | a signature is begun at most once for each C_SignInit; closing a session ends its operations and a new session starts with none; C_Finalize undoes C_Initialize |
| Pkcs11.Cryptoki.C_Initialize | crates/pkcs11-gpg/src/module.rs:182-295 | the identity list becomes the kept identities with their certificates |
| Pkcs11.Cryptoki.C_OpenSession | crates/pkcs11-gpg/src/module.rs:538-563 | opening and its error cases |
| Pkcs11.Cryptoki.C_CloseSession | crates/pkcs11-gpg/src/module.rs:565-579 | closing drops pending operations |
| Pkcs11.Cryptoki.C_Finalize | crates/pkcs11-gpg/src/module.rs:364-371 | the state is dropped |
| Pkcs11.Cryptoki.C_FindObjectsInit | crates/pkcs11-gpg/src/module.rs:649-703 | the template loop and the handle loop yield the search list of the last class criterion |
| Pkcs11.Cryptoki.C_FindObjects | crates/pkcs11-gpg/src/module.rs:705-737 | the caller's array receives the next handles and nothing beyond them |
| Pkcs11.Cryptoki.C_SignInit | crates/pkcs11-gpg/src/module.rs:897-936 | a sign operation starts only for an existing private key and EdDSA, with the code's order of errors |
| Pkcs11.Cryptoki.C_Sign | crates/pkcs11-gpg/src/module.rs:938-1031 | the operation is consumed even by a size query or a short buffer; the phone is asked exactly when the buffer suffices; the buffer changes only on success, in its first 64 bytes |
| Pkcs11.DoKeepsValid | crates/pkcs11-gpg/src/module.rs:538-936 | what a call does under the lock keeps: pending operations imply an open session, a pending signature an existing private key, a search list existing objects |
| Pkcs11.SigningFollowsSignInit | crates/pkcs11-gpg/src/module.rs:938-1031 | in every interleaving, with each call split between its check and its lock and C_Sign also at its lock release, each signing RPC carries its own C_Sign's data and the index and key chosen by the C_SignInit whose operation that consumed, a matching pair of the phone's list, and RPCs never outnumber successful C_SignInit calls |
| Pkcs11.ListedIsLatest | crates/pkcs11-gpg/src/module.rs:182-295 | over every run, the module works on the list given to the latest C_Initialize that succeeded |
| Pkcs11.ChosenFromTheLatestList | crates/pkcs11-gpg/src/module.rs:897-936 | the list from which a C_SignInit chooses its index and key is that list |
| Pkcs11.PanicNeedsFinalizeInBetween | crates/pkcs11-gpg/src/module.rs:60-75 | the module panics in no interleaving in which C_Finalize never comes between another call's check and its lock |
| Pkcs11.FinalizeInBetweenPanics | crates/pkcs11-gpg/src/module.rs:60-75 | from every reachable state with a call in between, C_Finalize and then that call's lock make the module panic |
| Pkcs11.PanicIsReachable | crates/pkcs11-gpg/src/module.rs:364-371 | four steps that do so |
| Pkcs11Attributes.C_GetAttributeValue | crates/pkcs11-gpg/src/module.rs:752-895 | the in-place loop over the template: error cases, new lengths, memory and return value |
| Pkcs11Attributes.OnlyStatedBuffersChange | crates/pkcs11-gpg/src/module.rs:873-890 | for any template no byte outside the stated buffers changes |
| Pkcs11Attributes.ValueArrives | crates/pkcs11-gpg/src/module.rs:873-890 | an entry with room for its value gets it exactly, whatever the other entries ask for and however they fail |
| Pkcs11Attributes.OkIffAllAnswered | crates/pkcs11-gpg/src/module.rs:777-893 | CKR_OK exactly when every entry is answered |
| Pkcs11Attributes.TwoPassesAreExact | crates/pkcs11-gpg/src/module.rs:779-893 | a pass with null pointers and one with buffers of the reported sizes: CKR_OK exactly when every type is supported, with every value exact (section 5.2 of PKCS#11 v2.40) |
| Pkcs11Attributes.AttributesDescribeTheObject | crates/pkcs11-gpg/src/module.rs:783-861 | an object reports the class it is found under, the key and label of its entry in the phone's list, its certificate; two objects share CKA_ID exactly when their positions agree modulo 256 |
| Pkcs11Attributes.HandlesFollowTheList | crates/pkcs11-gpg/src/module.rs:77-95 | handles 3i + 1, 3i + 2 and 3i + 3 name the private key, public key and certificate of the i-th kept entry of the phone's list, and no other handle names anything |
| Pkcs11Attributes.SigningUsesTheNamedKey | crates/pkcs11-gpg/src/module.rs:897-936 | C_SignInit accepts exactly the objects that say they sign, and the key signed with is the EC_POINT of the object named |
| Pkcs11Attributes.AttributesFitTheCertificate | crates/pkcs11-gpg/src/module.rs:783-861 | serial number and curve attributes are the DER of the certificate's serial number and key algorithm |
| CanonicalJson.PrintParses | crates/avatar/src/main.rs:894-899 | compact printing reads back, for every value with well-formed numbers |
| CanonicalJson.CanonicalReadsBack | crates/avatar/src/main.rs:882-901 | the canonical text parses as the same value with its keys in order |
| CanonicalJson.CanonicalIffSameMeaning | crates/avatar/src/main.rs:880-901 | two values canonicalise alike exactly when they differ only in the order of keys at object levels reached through objects |
| CanonicalJson.LessIsLexicographic | crates/avatar/src/main.rs:884-885 | keys are ordered by the first difference, a proper prefix first |
| Assuan.SkipOptions | crates/scd-shim/src/main.rs:331-344 | the loop drops leading options |
| Assuan.OptionsAreSkipped | crates/scd-shim/src/main.rs:331-344 | any number of leading options is skipped and nothing of what follows |
| Assuan.HexDecode | crates/scd-shim/src/main.rs:266-278 | the loop over pairs of octets: bytes, an error for odd lengths and bad digits, or a panic |
| Assuan.AbortIff | crates/scd-shim/src/main.rs:266-278 | the panic occurs exactly when the octets pair up and the first pair that is not one of digits ends inside a character |
| Assuan.SplitsIffNoBoundary | crates/scd-shim/src/main.rs:273 | a pair ends inside a character exactly when no character starts, and the text does not end, at its end |
| Assuan.DataOfEncoding | crates/scd-shim/src/main.rs:399-410 | SETDATA undoes hex encoding in either case with white space anywhere |
| Assuan.DataOfSpacedHex | crates/scd-shim/src/main.rs:399-410 | any words joined by any runs of white space, which together are a hex text in either case, stand for the bytes encoded |
| Assuan.DataLineRoundTrip | crates/scd-shim/src/main.rs:300-312 | a data line percent-decodes to the original bytes and holds no raw CR or LF |
| AssuanCommands.Shim.SendData | crates/scd-shim/src/main.rs:300-312 | the byte loop writes the percent encoding as one data line |
| AssuanCommands.Shim.HandleSetData | crates/scd-shim/src/main.rs:399-410 | stores decoded data, or keeps the register and reports an error, or aborts without a word |
| AssuanCommands.SetDataStoresTheBytes | crates/scd-shim/src/main.rs:399-410 | after any session, a SETDATA line with a hex text in either case and white space anywhere leaves exactly the encoded bytes in the register, and is answered with one OK |
| AssuanCommands.Shim.HandlePkSign | crates/scd-shim/src/main.rs:438-487 | key lookup, empty register, signature, wrong length and failure, with what each leaves stored |
| AssuanCommands.Shim.Serve | crates/scd-shim/src/main.rs:662-723 | the loop handles every line up to the first that ends the session, by BYE or by a panic; register, output and signing requests are those of the session |
| AssuanCommands.StripUndoesWrapping | crates/scd-shim/src/main.rs:412-436 | stripping undoes the DigestInfo wrapping of 32-byte and 64-byte hashes and touches nothing else |
| AssuanCommands.StrippedIsDigestInfo | crates/scd-shim/src/main.rs:412-436 | the prefixes stripped are those a DER reader finds around a 32-byte SHA-256 or 64-byte SHA-512 hash in a DigestInfo |
| AssuanCommands.ReadKeyShowsTheNamedKey | crates/scd-shim/src/main.rs:380-397 | READKEY answers with the first key of that keygrip or keyref, as a data line that decodes to its S-expression, and then OK; with an error when there is none |
| KeySexp.SexpIsTheKeys | crates/scd-shim/src/main.rs:172-179 | the text around the key is the canonical S-expression public-key, ecc, curve Ed25519, flags eddsa, q with 0x40 before the key, every length right |
| AssuanCommands.EveryLineIsAnsweredIff | crates/scd-shim/src/main.rs:673-723 | over every session, every non-blank line gets exactly one OK or ERR, last in its own output, and as many are written as there are such lines, if and only if no SETDATA argument splits a character |
| AssuanCommands.SplitCharacterAborts | crates/scd-shim/src/main.rs:266-278 | the line `SETDATA aé1` gets no answer |
| AssuanCommands.SignedDataIsLatestSetData | crates/scd-shim/src/main.rs:399-487 | after any session, a line asks for a signature exactly when it is a PKSIGN whose key is found and a successful SETDATA is not since cleared, over that data stripped; a signature of the wrong length does not clear it |
| AssuanCommands.SignatureReachesTheClient | crates/scd-shim/src/main.rs:470-484 | a signing request's 64-byte signature reaches the client as one data line that decodes to it, then OK; any other answer is an error |
| AssuanCommands.SigningKeyMatchesThePhone | crates/scd-shim/src/main.rs:438-452 | a signing request names a matching index and key of the phone's list: the first identity with that keygrip or keyref, else the second kept one |
| SshAgent.ReadString | crates/km-ssh-sa/src/ssh_agent.rs:247-259 | the advancing offset, in bounds for every buffer |
| SshAgent.StringAtIff | crates/km-ssh-sa/src/ssh_agent.rs:247-259 | a string is read exactly when its encoding stands at the offset, and the new offset is its end (section 5 of RFC 4251) |
| SshAgent.ParseSignRequest | crates/km-ssh-sa/src/ssh_agent.rs:155-176 | key, data and flags of a request body, or failure |
| SshAgent.SignRequestIff | crates/km-ssh-sa/src/ssh_agent.rs:155-176 | parsing undoes the encoding and accepts nothing else; missing or cut flags are zero |
| SshAgent.BuildIdentitiesAnswer | crates/km-ssh-sa/src/ssh_agent.rs:207-226 | the appending loop yields the answer's encoding |
| SshAgent.IdentitiesAnswerReadsBack | crates/km-ssh-sa/src/ssh_agent.rs:207-226 | a client recovers every key and comment in order with nothing left over exactly when the count and all lengths fit 32 bits |
| SshAgent.BuildSignResponse | crates/km-ssh-sa/src/ssh_agent.rs:228-245 | the appended bytes are the nested strings |
| SshAgent.SignResponseReadsBack | crates/km-ssh-sa/src/ssh_agent.rs:228-245 | algorithm and signature come back exactly when the inner blob's length fits 32 bits |
| SshAgent.HandleConnection | crates/km-ssh-sa/src/ssh_agent.rs:75-131 | the frame loop: one response per acceptable frame up to the first write that fails, requests to the bridge in order |
| SshAgent.ResponsesSay | crates/km-ssh-sa/src/ssh_agent.rs:106-205 | an identities request is answered by bytes that read as the bridge's keys, a well-formed sign request by bytes that read as its algorithm and signature, exactly when they fit; everything else, and a bridge without an answer, by failure; and what the bridge is asked for each |
| SshAgent.U32IsBigEndian | crates/km-ssh-sa/src/ssh_agent.rs:207-226 | lengths and counts are written most significant octet first |
| SshAgent.FramesOfEncoding | crates/km-ssh-sa/src/ssh_agent.rs:80-104 | well-formed messages are all read up to the first frame that is cut short, empty or over 256 KiB |
| SshAgent.EveryMessageIsAnsweredInOrder | crates/km-ssh-sa/src/ssh_agent.rs:75-131 | a client reads back one response per message in order up to the first write that fails, and all of them exactly when none does |

## Left out

- Assuan.HexDecode: a leading plus sign in a digit pair is accepted, as by the integer parser.
- LocalApi.RepliesFollowRequests: says nothing about delivery: the request is published before its waiter is registered, so a very fast answer can be dropped and the request ends in a timeout. The branch for a dropped reply channel is unreachable here, because removing an entry and using its sender is one step.
- SerialBridge.RepliesAreTheClientsOwn: messages are abstract values; the 4-byte frames towards clients, the capacity 32 of the queue and the doubling reconnection delay are not modelled.
- SharedConnection.RepliesAreTheShimsOwn: starts with the daemon connection already bound to gpg; starting it, GNUPGHOME and the gpg subprocess are not modelled.
- Sessions.Daemon.HandleAttach: canonical text, Schnorr verification and xpub parsing are parameters; the error texts and the reply's transmission are not modelled.
- Sessions.NoOrphanListener: ownership and signalling only; the socket file of a user can be removed by the old listener's clean-up after a re-attach bound it again.
- Certificate.CertificateReadsBack: the value of the signature is 64 zero octets and is not verified by anyone.
- Pkcs11.SigningFollowsSignInit: raw pointers and null checks become arrays and options; C_GetAttributeValue, which changes no state, is not among the interleaved calls.
- Pkcs11Attributes.C_GetAttributeValue: machine words are little-endian and eight octets wide; the caller's buffers lie in one memory and their stated lengths are true.
- CanonicalJson.CanonicalReadsBack: numbers are taken as the text serde prints for them; the reader handles no white space and no surrogate pairs, which the printer never emits.
- AssuanCommands.EveryLineIsAnsweredIff: the texts after OK and ERR are dropped, so an error text that embeds a remote message is taken to hold no line feed.
- AssuanCommands.Shim.Serve: upper-casing and the keygrip hash are parameters, and what asking for a signature comes to is given with each line; standard input errors end a session like its end.
- The keygrip's hash input: a constant text around the key.
- The bridge loop of km-ssh-sa: the same lock-step discipline as km-nostr-sa, with errors turned into an empty key list or no signature; its key filter drops undecodable entries and keeps no index.
- nostr events, NIP-44, Schnorr, SHA and BIP-32 derivation: deterministic parameters.
- local_client.rs of the PKCS#11 module: an opaque signing call.
- PKCS#11 information calls, login, mechanism lists and unsupported stubs: constant answers.
- CLI and configuration, user map and allowlist files, QR display, sleep and wake handling: plumbing without a protocol.
