# The zero-trust decision path, modelled and proved in Dafny

The model covers the path from an HTTP request at a policy enforcement point (PEP) to its outcome: the L0/L1/revocation/L2
ladder, the decision-token fast path that may answer instead of the policy decision point (PDP), the PDP pipeline over the
framework policy, the JSON and protobuf wires between the two, the token codec, the CAEP revocation loop, the bubbling up
of a step-up through a chain of sidecars, and the relationship engine's mapping.

The main results:

- **The fast path is a cache of the PDP.** `Runs.FastPathRefinesPlainLadder`: in every run of the step system, whatever any
  PEP allows, the same ladder without the fast path allows too. The hypotheses are `System.Sane` (domain verdicts read only
  what a token binds and are monotone in the AAL rank; route resource types are colon pairs; the profile is one of the
  three; the attestor accepts only `spiffe://` ids), no forged signature, one minter and a fixed policy. Module `Witnesses`
  drops each hypothesis in turn, keeps the rest, and exhibits a hit the PDP would deny;
  `Refinement.HitAgreesIff` gives the exact condition under which a hit and the PDP agree.
  `Runs.FastPathIsTransparent` adds the converse: the two ladders differ in nothing but which allow they report.
  `Refinement.AcctIsBoundAndMonotone` shows a concrete domain that meets the verdict conditions.
- **Every allow is accounted for, whatever the policy.** `Runs.EveryAllowIsBacked`: by the check's own call to the PDP, whose
  token it hands out, or by a live token with the claims of an earlier PDP allow for the same tuple at no higher level. It
  assumes `System.Coherent`, sound primitives that are the same for the PDP and the PEPs, and that nobody forges a signature.
- **Revocation under interleaving, in any world.** `Revocation.RevokedIsNeverAllowed` and
  `Revocation.EveryAllowSawItsSubjectUnrevoked`, with each check split into atomic steps. For a subject that is named they
  assume nothing of policy, configuration or cryptography, forged tokens included; a request that names none is not
  screened, and needs what the accounting needs (`Revocation.Screens`). A revoke that arrives while a check runs may come
  too late: `Revocation.LateRevokeIff` says exactly when, and `Episodes.LateRevoke` is such a run.
  `Rollout.CleanRevokeHoldsEverywhere` takes the guarantee back to the transmitter's Emit. All of it holds until the next
  restore, and a receiver accepts an old restore again (`Caep.OldRestoreLiftsRevoke`).
- **From end to end.** `Outcomes.VerdictReachesTheCaller` takes every verdict of a domain through gates, engine, PDP and wire to
  the outcome; `Outcomes.SettlementOutcome` is the `acct` domain's table; `Outcomes.AllowedCallerCanReplay` follows a token
  from the PDP into the caller's response and back into the fast path.
- **Exact conditions where the obvious law fails.** A replayed token misses over JSON exactly when the lifted properties are
  empty (`Journey.ReplayHitsIff`, with a concrete miss in `Episodes.EmptyReplay`); a token is ever accepted exactly when its
  lifetime crosses a whole second (`Token.EverAcceptedIff`); the first refusal challenges the user exactly when it is a
  step-up of the edge's own or one that names a level (`BubbleUp.RefusalReachesTheUser`); two receivers agree exactly when
  the events that reached them give every subject the same last word (`Replicas.ReplicasAgreeIff`). The text of a signature
  is never unique, since the decoder skips line breaks (`Sealed.SignatureTextNotUnique`); line breaks aside, it is unique
  exactly when the MAC fills whole base64 triples (`Sealed.SealedTextUniqueIff`).

Layout: `Values`, `Text`, `Base64Url` and `Rego` are the vocabulary; `Sealed`, `Token`, `Contract`, `Policy`, `Acct`,
`Engine`, `Pdp`, `Transport`, `Caep`, `Pep`, `BubbleUp` and `Rebac` each model one component; `Refinement`, `Journey`,
`System`, `Runs`, `Traces`, `Revocation`, `Replicas`, `Rollout`, `Outcomes`, `Witnesses` and `Episodes` hold the theorems
that span components. `dafny verify dfyconfig.toml` checks everything.

Assumptions, all explicit in the statements that use them: HMAC and SHA-256 are uninterpreted function values;
`Token.Primitives.Sound` says that JSON decodes the claims it encodes and that no two property maps share a digest;
`Sealed.Authentic` says that a presented text carries a valid signature only over a body that was signed, and
`Runs.IsUnforgedRun` that this holds of every token a client presents in a run. Times are whole
nanoseconds on one clock shared by the PDP and the PEPs, and the clock never runs backwards in a run.

Where code and documentation disagree the model follows the code: docs/architecture/specs/06-decision-token.md line 47 asks
for a token level at least the request's, while authz/pep/enforce.go line 197 asks for a request level at least the token's.

## Model

| member | source | states |
|---|---|---|
| Base64Url.DecodeEncode | authz/token/token.go:99-119 | decoding returns the octets that were encoded, unpadded base64url (sections 5 and 3.2 of RFC 4648) |
| Base64Url.EncodeDigits | authz/token/token.go:119-119 | the encoded text uses only the alphabet, so never a dot |
| Base64Url.DigitsAreTheAlphabet | authz/token/token.go:119-119 | the digits are those of table 2 of RFC 4648, section 5 |
| Base64Url.GroupOfThree | authz/token/token.go:119-119 | three octets and the four digits they are written with are the same number of 24 bits |
| Base64Url.GroupOfOneOrTwo | authz/token/token.go:119-119 | one or two octets that are left over are padded with zero bits |
| Base64Url.GroupAt | authz/token/token.go:119-119 | a text is its octets' groups of three, in order |
| Base64Url.LastGroup | authz/token/token.go:119-119 | and after them the one or two octets left over |
| Base64Url.AcceptedTexts | authz/token/token.go:90-99 | the texts the decoder takes for some octets are exactly their spellings, in the unused bits of the last digit, with line breaks anywhere |
| Base64Url.CanonicalTextIffWholeTriples | authz/token/token.go:90-93 | among texts without line breaks, octets have only the encoder's exactly when they fill whole triples |
| Text.CutIsFirst | authz/token/token.go:86-86 | the cut is at the first separator and loses nothing |
| Text.JoinInjective | authz/pep/enforce.go:193-193 | joining with a separator the left part lacks can be undone in only one way |
| Sealed.OpenSeal | authz/token/token.go:80-102 | a sealed payload opens to itself, through the first-dot cut and both decodings |
| Sealed.OpensExactly | authz/token/token.go:85-102 | a text opens to a payload if and only if it is a body, the first dot, and an encoding of the MAC of that body's text, and the body decodes to the payload |
| Sealed.OpenOnlySigned | authz/token/token.go:85-102 | a text that opens has as its body exactly the text of a signed payload |
| Sealed.SealIsAuthentic | authz/token/token.go:76-81 | a sealed text meets the no-forgery hypothesis once its payload is counted as signed, so that hypothesis excludes no genuine text |
| Sealed.SignatureTextNotUnique | signals/caep/caep.go:60-72 | a line break at any place in the signature gives another text that opens to the same payload, whatever the MAC |
| Sealed.SealedTextUniqueIff | authz/token/token.go:85-102 | without line breaks and forgery, the sealed text is the only one that opens to its payload if and only if the MAC length is a multiple of three |
| Token.VerifyIssued | authz/token/token.go:71-111 | an issued token verifies to its claims with only iat and exp stamped, exactly until the second of its expiry, and is expired from then on |
| Token.ExpiryBounds | authz/token/token.go:71-109 | in nanoseconds: rejected from minting plus ttl on, accepted up to one second before that |
| Token.EverAcceptedIff | authz/token/token.go:72-109 | some moment accepts the token if and only if its lifetime crosses a whole second |
| Token.SubSecondTokenIsNeverAccepted | authz/token/token.go:62-109 | a half-second ttl can give a token no moment accepts |
| Token.TtlIsWholeSeconds | authz/token/token.go:66-67 | the lifetime told to the caller is the whole seconds of the real one |
| Token.DigestInjective | authz/token/token.go:45-52 | digests agree exactly when the property maps do, nil and empty told apart |
| Token.AcceptedTokenWasIssued | authz/token/token.go:85-111 | any accepted string carries unexpired claims some Issue stamped, and its body is the text that Issue produced |
| Contract.ColonPairParts | authz/authzen/validate.go:88-103 | a colon pair is two names around its only colon, and has no slash |
| Contract.ColonPairIsTheRegex | policies/global/schema.rego:8-8 | split-and-match accepts exactly the language of the single policy regex |
| Contract.NoIssuesIffValid | authz/authzen/validate.go:30-86 | a request has no issue if and only if it is contract-valid |
| Contract.Validate | authz/authzen/validate.go:30-86 | the step-by-step validator collects exactly the issues of the request, in field order, and none if and only if it is valid |
| Contract.WhichIssues | authz/authzen/validate.go:30-86 | an issue is named exactly when what it says of the request is so |
| Contract.IssuesInOrder | authz/authzen/validate.go:30-86 | fields in turn, at most one issue for each |
| Policy.DecisionIsSingleValued | policies/main.rego:31-62 | exactly one of the three definitions or the default supplies the decision for every input, data and verdict; it fails only when the gates pass and the domain's own verdict conflicts |
| Policy.AllowsIff | policies/main.rego:22-62 | the decision allows if and only if gates 1 to 3 are empty and the domain verdict, complete, allows |
| Policy.DecisionSays | policies/main.rego:22-62 | the decision document, member by member: the framework's own refusals with their reasons, or the domain's three members as they are |
| Policy.Gate3Says | policies/profiles/profiles.rego:15-41 | on any input, gate 3 is clear if and only if each profile's context is there |
| Policy.RankOrder | policies/lib/lib.rego:9-15 | AAL3 over AAL2 over AAL1 over anything else |
| Acct.AcctAllowsIff | internal/testsupport/policyfixture/policyfixture.go:16-39 | the acct rules never conflict; allowed exactly at AAL3, or at AAL2 within the limit; the step-up verdict exactly for a high amount below AAL3 |
| Acct.HighSays | internal/testsupport/policyfixture/policyfixture.go:21-37 | what counts as a high amount: more than five million, or text, a list or an object |
| Acct.StepUpSays | internal/testsupport/policyfixture/policyfixture.go:29-33 | a high settlement below AAL3 is told to step up to AAL3, as its first obligation |
| Acct.ReasonSays | internal/testsupport/policyfixture/policyfixture.go:21-37 | the reason of each verdict |
| Engine.ParseDecision | authz/engine/opa.go:86-104 | the obligations are exactly the objects of the `obligations` array in document order, none without such an array; allow only the boolean true, the reason only a string |
| Engine.AllowsOnlyTrue | authz/engine/opa.go:69-104 | the engine allows exactly when a decision document is defined and its allow is the boolean true |
| Engine.FailsOrDenies | authz/engine/opa.go:69-84 | the engine fails exactly on a conflict or a document that is no object, and denies with a reason of its own where nothing is defined |
| Pdp.InputView | authz/pdp/pdp.go:112-122 | what the policy sees of each field after the JSON round trip, absent members included |
| Pdp.CollectObligations | authz/pdp/pdp.go:92-108 | the loop maps each raw obligation, in order, with an empty type or nil details where they are missing or of another type |
| Pdp.Assemble | authz/pdp/pdp.go:64-89 | the response carries a token minted for this request exactly on allow |
| Pdp.MintedCarries | authz/pdp/pdp.go:70-79 | a minted token opens to the request's tuple, level and correlation id, and the whole seconds of its minting and expiry |
| Pdp.AnswerSays | authz/pdp/pdp.go:42-89 | an error exactly for an invalid request or a policy without a document; with an allow, the token minted then and its lifetime |
| Pdp.FrontDoorAgreesWithSchemaGate | policies/global/schema.rego:10-35 | Validate succeeds if and only if the schema gate is empty, the subject id is non-empty and the profile is one of the three |
| Pdp.Gate2Says | policies/lib/lib.rego:45-49 | gate 2 is clear if and only if the request supplies, with something other than false, all that `required_attributes` lists for its action |
| Pdp.MissingAttributeDenies | policies/lib/lib.rego:45-49 | a request that lacks a listed attribute is not allowed, whatever its domain says |
| Pdp.AllowsIff | authz/pdp/pdp.go:42-60 | the PDP allows if and only if the request is valid, gates 2 and 3 are empty and the domain verdict allows |
| Pdp.TokenIffAllow | authz/pdp/pdp.go:70-88 | the decision does not depend on the clock, and a token is attached exactly on allow |
| Transport.RequestFromProto | authz/grpcpdp/convert.go:41-54 | field-by-field decoding; absent messages give zero values, nil structs give empty maps |
| Transport.ResponseToProto | authz/grpcpdp/convert.go:57-74 | the encoding loop keeps obligations in order and narrows the lifetime to 32 bits |
| Transport.ResponseFromProto | authz/grpcpdp/convert.go:77-86 | the decoding loop keeps obligations in order and always yields a context |
| Transport.RequestArrives | authz/grpcpdp/convert.go:15-54 | a request arrives with all its entries on either wire; each of its four maps, when empty, arrives nil over JSON and empty over protobuf, and is otherwise unchanged |
| Transport.ResponseArrives | authz/grpcpdp/convert.go:57-94 | a response returns with decision, reason, obligation entries and token; the lifetime field survives protobuf exactly when it fits 32 bits |
| Transport.SameInputOnEveryWire | authz/pdp/pdp.go:110-122 | the engine input, the contract issues, the level and the correlation id are the same on every wire |
| Transport.AnswerOnEveryWire | authz/grpcpdp/server.go:30-40 | the PDP's answer differs between wires in the token alone, and only when empty properties changed between nil and empty |
| Transport.RemoteAllowsIff | authz/grpcpdp/client.go:26-36 | a PEP hears an allow exactly when the PDP would allow the request as built |
| Caep.RevocationCache.Apply | signals/caep/cache.go:19-28 | the new contents are the old ones with the event applied, and the log grows by the event |
| Caep.RevocationCache.IsRevoked | signals/caep/cache.go:32-36 | true if and only if the last recognised event about the subject, in arrival order, was a revoke |
| Caep.ReplayIsTheLastWord | signals/caep/cache.go:19-36 | the contents after any log are the subjects whose last word was a revoke |
| Caep.ShuffleAcrossSubjects | signals/caep/cache.go:19-36 | logs with equal per-subject subsequences give equal caches |
| Caep.AcceptedSetWasSigned | signals/caep/caep.go:60-81 | only an event signed under the shared secret is ever accepted |
| Caep.SignedSetArrives | signals/caep/caep.go:49-81 | trimming leaves a signed event alone and the receiver recovers it, stamped |
| Caep.OldRestoreLiftsRevoke | signals/caep/caep.go:60-81 | a receiver accepts an event whatever its age, so a restore delivered again lifts any later revoke |
| Caep.EndpointSays | signals/caep/http.go:29-44 | a text that does not verify is refused with 401 and changes nothing; one that does is accepted and its event applied |
| Caep.TrimmedEnds | signals/caep/http.go:37-37 | trimming takes white space off both ends and nothing else |
| Caep.Receiver.Handle | signals/caep/http.go:29-44 | 400 exactly for an unreadable body, 401 exactly for a text that does not verify, otherwise 202 with the log grown by the verified event |
| Caep.Transmitter.Emit | signals/caep/http.go:69-97 | every subscriber is tried once, in order, whatever failed before; nil if and only if every push got through to a receiver whose signer verifies the text |
| Caep.ResultSays | signals/caep/http.go:69-97 | otherwise the error of the first push that failed: not built, not answered, or refused with 401 |
| Caep.AttemptsSay | signals/caep/http.go:74-86 | every subscriber whose URL is usable is tried exactly once, in its place |
| Caep.EarliestIsTheFirst | signals/caep/http.go:69-97 | Emit's result is nil if and only if no push failed, and otherwise the error of the first push that did |
| Replicas.CleanEmit | signals/caep/http.go:69-97 | an Emit that returned nil applied the event at exactly the subscribers, however often each is listed |
| Replicas.ReplicasAgree | signals/caep/http.go:69-97 | receivers sharing the signer that start equal stay equal through any sequence of Emits that all return nil |
| Replicas.EmitIsItsLoop | signals/caep/http.go:73-95 | an Emit leaves the receivers as its pushes do, one after the other |
| Replicas.SiteIsItsLog | signals/caep/http.go:29-44 | after any pushes, a receiver's cache is the replay of what it held and of the events that reached it |
| Replicas.ReplicasAgreeIff | signals/caep/http.go:69-97 | after any pushes, in turn or interleaved, lost or not, two receivers agree exactly when the events that reached them give every subject the same last word |
| Replicas.LostRequestSplitsReplicas | signals/caep/http.go:84-90 | one lost request, reported as an error, leaves two replicas different |
| Replicas.ConcurrentEmitsSplitReplicas | signals/caep/http.go:69-97 | the subscriber loops of two Emits can interleave so that every push is accepted and yet two replicas differ |
| Pep.MatchRoute | authz/pep/enforce.go:222-229 | the first route with this method and exact path, or none has them |
| Pep.Enforcer.ResourceProps | authz/pep/enforce.go:273-296 | each configured key with the body's own value for it, and nothing else; an error exactly for a body that is unreadable, no JSON, or neither object nor null; the body is put back |
| Pep.Enforcer.BuildRequest | authz/pep/enforce.go:233-269 | the request built step by step, per profile; the body is put back |
| Refinement.BuiltFields | authz/pep/enforce.go:239-268 | the subject, action, resource, correlation id and PEP of the request, field by field |
| Refinement.BuiltFromBody | authz/pep/enforce.go:283-295 | the lifted properties of a built request are the body's own members under the configured keys |
| Refinement.NotBuiltIff | authz/pep/enforce.go:273-288 | no request is built exactly when there is something to lift and nothing to lift it from |
| Pep.Enforcer.TryDecisionToken | authz/pep/enforce.go:179-201 | the test-by-test trial of a presented token is the fast path: a reuse exactly for a live token that binds the request |
| Pep.Enforcer.Check | authz/pep/enforce.go:80-136 | the outcome of the ladder; the PDP is asked once, with the built request, exactly when L0, L1, revocation, building and a fast-path miss are passed, and never otherwise; the body is as before |
| Refinement.Gate3Iff | policies/profiles/profiles.rego:15-41 | a PEP-built request clears gate 3 if and only if, on the east-west hop, its caller is a spiffe:// id |
| Refinement.BuiltRequestsPassGate3 | cmd/zta-pep/main.go:242-244 | with an attestor that accepts only spiffe:// ids, every request past L0 clears gate 3 under every profile |
| Refinement.Gate2Iff | policies/lib/lib.rego:45-49 | a PEP-built request clears gate 2 if and only if the body supplies, under the configured keys and with something other than false, all that `required_attributes` lists for the route's action |
| Refinement.ActorIsTheAttestedPeer | authz/pep/enforce.go:89-99 | the east-west actor is attested; it is the certificate's id when there is one and a header's only in dev mode |
| Refinement.BoundTuple | authz/pep/enforce.go:191-199 | matching claims bind subject, action, resource type, resource id, properties and a level no higher |
| Refinement.HitAgreesIff | authz/pep/enforce.go:179-201 | when the claims the PDP minted for one request bind another a PEP built, the PDP allows the latter exactly if the route is a colon pair, the profile is known, an east-west caller is a spiffe:// id and the domain allows |
| Refinement.HitRefinesPdp | authz/pep/enforce.go:179-201 | so under the hypotheses a request bound by claims minted for another is one the PDP allows, over any wire and at any time |
| Refinement.AcctIsBoundAndMonotone | internal/testsupport/policyfixture/policyfixture.go:16-39 | the acct verdict reads only bound fields and is monotone in the level |
| Journey.AllowIff | authz/pep/enforce.go:80-136 | a check allows exactly when everything before the PDP is passed and either the token hits or the PDP allows |
| Pep.CorrelationIdOf | authz/pep/enforce.go:81-84 | the caller's own id is kept, and a new one made only where there is none |
| Journey.OutcomeKeepsItsId | authz/pep/enforce.go:80-136 | every outcome carries the correlation id of its check |
| Journey.ClassifyCommutes | authz/pep/enforce.go:139-168 | any response, one with a nil context included, is classified the same after either wire |
| Journey.WireIndependence | authz/pep/enforce.go:128-135 | a check gives the same kind, reason and required level on every wire, and the same token unless the lifted properties are empty |
| Journey.FreshAllowHandsOutItsToken | authz/pep/enforce.go:140-151 | once the PDP is asked, the outcome is an allow exactly when the PDP allows, and carries the very token it minted |
| Journey.MintedTokenHitsIff | authz/pep/enforce.go:179-201 | a minted token opens any PEP's fast path exactly while it lives and for exactly the requests with the same tuple at no lower level |
| Journey.ReplayHitsIff | authz/pep/enforce.go:273-276 | replaying the identical request hits exactly while the token lives and, over JSON, the lifted properties are not empty |
| Journey.LiveReplaySkipsPdp | authz/pep/enforce.go:107-126 | a live replay by an unrevoked subject is answered before the PDP |
| Journey.PipelineKeepsTheFirst | authz/engine/opa.go:96-102 | the filter, the map and the search compose to the first step_up object of the document |
| Journey.ObligationPipeline | authz/pep/enforce.go:153-167 | for a document that does not allow, the outcome is a step-up exactly when an object obligation asks for one, with the level of the first in document order, and the reason is the document's |
| Outcomes.DropsAndUnknownRoutes | authz/pep/enforce.go:89-105 | whoever fails L0 or L1 is told which, whatever else is wrong |
| Outcomes.ServedRequests | authz/pep/enforce.go:107-135 | on a served route: revoked, not buildable, token honoured, or the PDP's word, in this order |
| Outcomes.VerdictReachesTheCaller | policies/main.rego:22-62 | every case of the framework policy and of a domain's verdict, through the PDP and any wire, down to kind, reason and level of the outcome |
| Outcomes.PolicyReachesTheCaller | authz/pdp/pdp.go:42-60 | the same for any policy: its document as it stands, and a denial when there is none |
| Outcomes.SettlementOutcome | internal/testsupport/policyfixture/policyfixture.go:16-60 | a settlement that reaches the PDP, by its attributes, amount and level: a high one below AAL3 is challenged for AAL3 |
| Outcomes.AllowedCallerCanReplay | authz/pep/middleware.go:25-37 | an allowed caller reads in its response the very token that then opens the fast path for the same request while it lives |
| System.VerifiedClaimsWereMinted | authz/pep/enforce.go:187-190 | claims any PEP accepts are those of a token the PDP minted less than one ttl ago |
| System.HitIsBacked | authz/pep/enforce.go:187-200 | whatever the policy, a hit in a reachable state is backed by a mint for the same subject, action, joined resource name (type and id apart on a colon-pair route) and properties, at no higher level |
| System.CheckStaysOnLadder | authz/pep/enforce.go:80-136 | in any world, every step leaves every check where the ladder puts it, and a finished one with the ladder's outcome |
| System.StepKeepsInv | authz/pep/enforce.go:80-136 | whatever the policy, every step of every check, call, event and tick keeps the system invariant |
| Runs.RunKeepsInv | authz/pep/enforce.go:80-136 | the invariant holds in every state of every run |
| Runs.EveryAllowIsBacked | authz/pep/enforce.go:89-135 | whatever the policy, every allow answers a request of a non-empty subject for the tuple of a mint at no higher level: the one its own PDP call made, whose token it hands out, or one made before its token was tried, whose claims that token has and which is less than one ttl old; the minted request is contract-valid, and the answered one exactly on a colon-pair route under a known profile |
| Runs.FastPathRefinesPlainLadder | authz/pep/enforce.go:122-128 | whatever any PEP allows in any run, the same ladder without the fast path allows, whenever the PDP is asked |
| Runs.HitAgreesWithPdpNow | authz/pep/enforce.go:179-201 | in any reachable state, a token that would be honoured is one the PDP still agrees with |
| Runs.FastPathIsTransparent | authz/pep/enforce.go:122-135 | in any reachable state and for any cache contents, the ladder with and without the fast path, over the live PDP, gives the same kind and required level, and the very same outcome unless it is an allow |
| Traces.CheckArrived | authz/pep/enforce.go:80-85 | every check of a run arrived at an earlier step, with the request it still has |
| Traces.StepsAreOnceAndInOrder | authz/pep/enforce.go:80-136 | a check arrives, passes the guard and the screen, tries its token, asks and concludes at most once each, and in this order |
| Traces.SeenStays | authz/pep/enforce.go:110-114 | what a check read of the cache at its screen it holds to the end; it never reads it again |
| Traces.OutcomeIsTheLadders | authz/pep/enforce.go:80-136 | in any world, a check interleaved step by step reports what the uninterrupted ladder gives for the cache as it was at its screen, the clock at the trial of its token and the PDP's answer to its call |
| Revocation.EveryAllowSawItsSubjectUnrevoked | authz/pep/enforce.go:107-114 | every allow has an instant between arrival and end at which its cache read did not find the subject |
| Revocation.RevokedIsNeverAllowed | signals/caep/cache.go:19-36 | a check arriving after a revoke was applied and seen before any restore is not an allow, whatever its token |
| Revocation.LateRevokeIff | authz/pep/enforce.go:107-135 | a check whose subject is revoked while it runs is allowed if and only if it read the cache, without finding the subject, before that revoke and everything else on its ladder, token or PDP, allows |
| Revocation.RevokeAfterScreenIsNotSeen | authz/pep/enforce.go:107-126 | step by step: a revoke applied after the read does not stop a token that then hits |
| Revocation.RevokeBeforePdpIsNotSeen | authz/pep/enforce.go:128-135 | nor a request the PDP then allows |
| Episodes.LateRevoke | authz/pep/enforce.go:107-126 | a run from the initial state in which exactly that happens, and in which every hypothesis of the theorems on runs holds |
| Episodes.EmptyReplay | authz/authzen/types.go:53 | an allowed request without lifted properties whose token hits when minted over protobuf and misses when minted over JSON |
| Rollout.PushIsASignal | signals/caep/http.go:29-44 | a push changes the PEPs' caches as the arrival of its event does, and not at all if it is lost or does not verify |
| Rollout.CleanRevokeHoldsEverywhere | signals/caep/http.go:69-97 | once an Emit of a revoke returned nil, no check arriving later at a subscribed PEP is allowed for the subject until a restore, whatever happens between the pushes |
| Witnesses.UnboundFieldBreaksIt | authz/pep/enforce.go:173-179 | a verdict that reads the profile lets an edge token through on the partner hop |
| Witnesses.NonMonotoneBreaksIt | authz/pep/enforce.go:197-199 | a verdict that takes AAL2 only lets an AAL3 caller ride on an AAL2 token |
| Witnesses.SpelledLevelBreaksIt | authz/pep/enforce.go:171-171 | a verdict that takes one level by its spelling lets any other level of no lower rank ride on its token; all levels outside the three rank alike |
| Witnesses.SlashedRouteBreaksIt | authz/pdp/pdp.go:74-74 | a route type with a slash moves the boundary of the joined resource name |
| Witnesses.LaxAttestorBreaksIt | authz/pep/enforce.go:95-98 | an attestor that accepts any caller lets a request past that gate 3 denies |
| Witnesses.UnknownProfileBreaksIt | cmd/zta-pep/main.go:219-223 | a PEP under another profile name honours tokens for requests the PDP calls invalid |
| Witnesses.PolicyChangeBreaksIt | authz/pep/enforce.go:122-126 | a live token outlasts the policy it was minted under |
| Witnesses.SecondMinterBreaksIt | authz/token/token.go:54-63 | another holder of the secret can mint for a request the PDP denies |
| BubbleUp.Exchange.Middleware | authz/pep/middleware.go:19-68 | on an allow the caller gets the correlation id and the token, unless the protected handler overrides them, and the handler gets both; a refusal has its status, headers and body per outcome and profile |
| BubbleUp.Exchange.ModifyResponse | cmd/zta-pep/main.go:143-158 | the edge rewrites a response with a non-empty step-up header into a 401 challenge and leaves any other alone |
| BubbleUp.RefusalReachesTheUser | cmd/zta-pep/main.go:143-158 | the first refusal, at the edge or at any depth of a chain of any length, is a 401 challenge for the very level exactly when it is a step-up that is the edge's own or names a level, and a 403 otherwise |
| Rebac.TupleOfRequest | authz/rebac/rebac.go:48-58 | the user, relation and object of a validated request |
| Rebac.MappedIff | authz/rebac/rebac.go:48-68 | on a validated request the engine says unmapped if and only if no resource instance is named; otherwise it allows exactly what OpenFGA grants and fails exactly when OpenFGA does |
| Rebac.SameCheckIff | authz/rebac/rebac.go:109-134 | two requests share a check exactly when they share subject, verb, entity and instance, so within a domain the check determines the whole tuple |
| Rebac.DomainsCollide | authz/rebac/rebac.go:108-124 | across domains it does not: the same settlement in any two domains asks the same question |

## Left out

- Pep.Enforcer.Check: the PDP client is a function of the request at one instant and remembers what it was asked; timeouts, loggers and the random correlation id are parameters or absent.
- Caep.Transmitter.Emit: what the network does to each push is a parameter, one fault per subscriber; signing never fails, since the event always marshals.
- Caep.RevocationCache.Apply: the read-write lock is not modelled; each call is one atomic step.
- BubbleUp.Exchange.Middleware: the protected handler is a function of the request headers and of the response headers already set; of several values of one response header only the first is kept, and Content-Length is absent.
- Token.TtlSeconds: the float64 of a lifetime of 2^24 seconds (about 194 days) or more may round up to the next whole second; the model always rounds toward zero.
- Token.VerifyIssued: 64-bit overflow of times far outside the calendar is not modelled.
- JSON text, UTF-8 repair, negative zero and rounding while reading numbers: values are trees, strings are sequences of characters, and a number is the whole multiple of 2^-1074 a finite float64 is.
- Conversion of single values to and from protobuf values: taken as the identity on JSON-shaped values.
- The `violations` array of a denying decision document: the engine drops it, so only the emptiness of the set is modelled.
- The Rego evaluator and OPA compilation: the shipped rules are functions, and errors inside a domain's own rules are one value, Conflict.
- Clock skew between the PDP and the PEPs, and a clock that is set back.
- SPIFFE certificates and TLS: L0 is an optional verified id and an attestor function.
- The OpenFGA call: a function that may fail.
- The S3 bundle store, the command-line tools, YAML parsing and the HTTP and gRPC servers: input, output and wiring.
