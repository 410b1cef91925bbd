/** Why each hypothesis of the refinement is there: drop one, keep the others, and a token hit stands in for a decision
    the PDP would not make. Every witness is a token minted and presented at time 0. */
module Witnesses {
  import opened Values
  import opened Contract
  import opened Pep
  import opened Refinement
  import Base64Url
  import Journey
  import Pdp
  import Policy
  import Rego
  import Text
  import Token

  const LIFETIME: int := 300 * Token.SECOND

  function ServiceOf(domains: Policy.Domains, prims: Token.Primitives, secret: Base64Url.Bytes): Pdp.Service {
    Pdp.Service((i: Json) => Policy.Decision(Null, domains, i), Token.Issuer(secret, LIFETIME), prims)
  }

  /** A PEP with one route, no lifted fields, and the header fallback for the caller. */
  function Guarding(profile: string, kind: string, attest: string -> Result<bool, ()>, prims: Token.Primitives,
                    secret: Base64Url.Bytes): Config {
    Config(profile, "pep", [Route("POST", "/pay", "acct:settle", kind, [])], attest, false,
           Some(Token.Issuer(secret, LIFETIME)), prims)
  }

  function Presenting(aal: string, caller: string, id: string, tok: string): Http {
    Http("POST", "/pay", Headers("u-1", aal, caller, id, "p-1", "cid", tok), None, "10.0.0.1", Readable(Empty))
  }

  /** The request the token is minted for: an edge request for the same tuple. */
  function Original(aal: string, kind: string, id: string): Request {
    Request(Subject("user", "u-1", Props(map["auth_assurance_level" := Str(aal)])), Action("acct:settle", NilMap),
            Resource(kind, id, Props(map[])),
            Props(map["authz_profile" := Str(EDGE), "source_ip" := Str("10.0.0.1")]))
  }

  function SpiffeOnly(id: string): Result<bool, ()> {
    Ok(Text.HasPrefix(id, "spiffe://"))
  }

  function AnyPeer(id: string): Result<bool, ()> {
    Ok(true)
  }

  function Answer(allow: bool): Rego.Eval {
    Rego.Value(Policy.Verdict(allow, [], ""))
  }

  function Everything(d: string, i: Json): Rego.Eval {
    Answer(true)
  }

  function Nothing(d: string, i: Json): Rego.Eval {
    Answer(false)
  }

  /** Reads a field no token binds. */
  function EdgeOnly(d: string, i: Json): Rego.Eval {
    Answer(At2(i, "context", "authz_profile") == Some(Str(EDGE)))
  }

  /** Prefers the weaker level. */
  function ExactlyAal2(d: string, i: Json): Rego.Eval {
    Answer(Policy.InputRank(i) == 2)
  }

  /** Takes one level by its very name. */
  function OnlyLevel(level: string): Policy.Domains {
    (d: string, i: Json) => Answer(Policy.SubjectAal(i) == Some(Str(level)))
  }

  lemma AnswerAllows(allow: bool)
    ensures Policy.Allowing(Answer(allow)) <==> allow
  {
    Policy.VerdictFields(allow, [], "");
  }

  lemma SettleIsAPair()
    ensures IsColonPair("acct:settle") && DomainOf("acct:settle") == Some("acct")
  {
    PairOf("acct", "settle");
    assert "acct:settle" == "acct" + ":" + "settle";
  }

  lemma WalletIsAPair()
    ensures IsColonPair("acct:wallet") && DomainOf("acct:wallet") == Some("acct")
  {
    PairOf("acct", "wallet");
    assert "acct:wallet" == "acct" + ":" + "wallet";
  }

  lemma Names()
    ensures IsColonPair("acct:settle") && DomainOf("acct:settle") == Some("acct")
    ensures IsColonPair("acct:wallet") && DomainOf("acct:wallet") == Some("acct")
  {
    SettleIsAPair();
    WalletIsAPair();
  }

  lemma OriginalContext(aal: string, kind: string, id: string)
    ensures var m := Original(aal, kind, id);
            && m.context.Get("authz_profile") == Some(Str(EDGE)) && m.context.Get("source_ip") == Some(Str("10.0.0.1"))
            && m.subject.properties.Get("act") == None && m.subject.Aal() == aal && m.Profile() == EDGE
  {
    assert "authz_profile" != "source_ip" && "auth_assurance_level" != "act";
  }

  lemma OriginalIsValid(aal: string, id: string)
    ensures ContractValid(Original(aal, "acct:wallet", id))
  {
    Names();
    OriginalContext(aal, "acct:wallet", id);
  }

  lemma NothingRequired(i: Json)
    ensures Policy.MissingRequired(Null, i) == {}
  {}

  /** The original request clears everything up to the domain. */
  lemma OriginalReachesDomain(domains: Policy.Domains, prims: Token.Primitives, secret: Base64Url.Bytes, aal: string,
                              id: string)
    ensures var m := Original(aal, "acct:wallet", id);
            Pdp.Allows(ServiceOf(domains, prims, secret), 0, m) <==>
            Policy.Allowing(domains("acct", Pdp.ToInput(m)))
  {
    var m := Original(aal, "acct:wallet", id);
    OriginalIsValid(aal, id);
    OriginalContext(aal, "acct:wallet", id);
    Reaches(domains, prims, secret, m, Pdp.ToInput(m));
  }

  lemma Reaches(domains: Policy.Domains, prims: Token.Primitives, secret: Base64Url.Bytes, m: Request, i: Json)
    requires ContractValid(m) && m.resource.kind == "acct:wallet" && i == Pdp.ToInput(m)
    requires m.context.Get("authz_profile") == Some(Str(EDGE)) && m.subject.properties.Get("act") == None
    requires m.context.Get("source_ip") == Some(Str("10.0.0.1"))
    ensures Pdp.Allows(ServiceOf(domains, prims, secret), 0, m) <==> Policy.Allowing(domains("acct", i))
  {
    Pdp.InputView(m);
    assert At2(i, "context", "authz_profile") == m.context.Get("authz_profile");
    assert At2(i, "context", "source_ip") == m.context.Get("source_ip");
    assert At3(i, "subject", "properties", "act") == m.subject.properties.Get("act");
    Gate3Of(i, EDGE, "");
    NothingRequired(i);
    Names();
    assert Policy.FirstPart(At2(i, "resource", "type")) == Some("acct");
    Pdp.AllowsIff(ServiceOf(domains, prims, secret), Null, domains, 0, m);
  }

  /** What the PEP builds, and that the original's token hits for it. */
  lemma Hits(prims: Token.Primitives, secret: Base64Url.Bytes, svc: Pdp.Service, cfg: Config, h: Http, m: Request)
      returns (p: Passed, r: Request)
    requires prims.Sound() && svc.prims == prims && svc.issuer == Token.Issuer(secret, LIFETIME)
    requires |cfg.routes| == 1 && cfg.routes[0].verb == h.verb && cfg.routes[0].path == h.path
    requires cfg.routes[0].resourceProps == []
    requires cfg.prims == prims && cfg.verifier == Some(Token.Issuer(secret, LIFETIME))
    requires cfg.profile == EAST_WEST ==>
               PeerIdentity(cfg, h).Some? && cfg.attest(PeerIdentity(cfg, h).value) == Ok(true)
    requires h.headers.decisionToken == Pdp.Minted(svc, 0, m) && h.headers.decisionToken != ""
    requires m.subject.id == h.headers.subjectId && m.action.name == cfg.routes[0].action
    requires m.resource.kind + "/" + m.resource.id == cfg.routes[0].resourceType + "/" + h.headers.resourceId
    requires m.resource.properties == Props(map[])
    requires Policy.AalRank(h.headers.aal) >= Policy.AalRank(m.subject.Aal())
    ensures Guarded(cfg, h, "cid") == Ok(p) && RequestFor(cfg, h, "cid", p) == Ok(r)
    ensures p.route == cfg.routes[0] && (PeerIdentity(cfg, h).Some? ==> p.caller == PeerIdentity(cfg, h).value)
    ensures FastPath(cfg, 0, h, r) && r.resource.properties == Props(map[])
  {
    Token.VerifyIssued(prims, svc.issuer, cfg.verifier.value, 0, 0, Pdp.ClaimsFor(prims, m));
    p := Guarded(cfg, h, "cid").value;
    r := RequestFor(cfg, h, "cid", p).value;
    BuiltView(cfg, h, "cid", p, r);
    assert r.subject.Aal() == h.headers.aal;
  }

  lemma MintedNotEmpty(svc: Pdp.Service, m: Request)
    ensures Pdp.Minted(svc, 0, m) != ""
  {
    Journey.TokenHasADot(svc, 0, m);
  }

  lemma AllowAllIsBoundAndMonotone()
    ensures BoundAndMonotone(Everything)
  {
    AnswerAllows(true);
  }

  lemma EverythingAllows(i: Json)
    ensures Policy.Allowing(Everything("acct", i))
  {
    AnswerAllows(true);
  }

  lemma EdgeOnlyAllows(d: string, r: Request)
    ensures Policy.Allowing(EdgeOnly(d, Pdp.ToInput(r))) <==> r.context.Get("authz_profile") == Some(Str(EDGE))
  {
    Pdp.InputView(r);
    var i := Pdp.ToInput(r);
    assert At2(i, "context", "authz_profile") == r.context.Get("authz_profile");
    AnswerAllows(At2(i, "context", "authz_profile") == Some(Str(EDGE)));
  }

  lemma ExactlyAal2Allows(d: string, r: Request)
    ensures Policy.Allowing(ExactlyAal2(d, Pdp.ToInput(r))) <==> Policy.AalRank(r.subject.Aal()) == 2
  {
    RankView(r);
    AnswerAllows(Policy.InputRank(Pdp.ToInput(r)) == 2);
  }

  /** A token minted by one service for request m, and a request r that carries it to a PEP of another, usually the
      same, service. */
  datatype Case = Case(
    svc: Pdp.Service, domains: Policy.Domains, mintedBy: Pdp.Service, m: Request,
    cfg: Config, h: Http, p: Passed, r: Request)
  {
    /** What every witness has in common; Setting and the hypotheses it keeps are those of HitRefinesPdp. */
    ghost predicate Setting() {
      && Pdp.Framework(svc, Null, domains) && svc.prims.Sound() && cfg.prims == svc.prims
      && mintedBy.issuer == svc.issuer && mintedBy.prims == svc.prims
      && Guarded(cfg, h, "cid") == Ok(p) && RequestFor(cfg, h, "cid", p) == Ok(r)
      && h.headers.decisionToken == Pdp.Minted(mintedBy, 0, m)
    }

    ghost predicate PdpMinted() {
      mintedBy == svc && Pdp.Allows(svc, 0, m)
    }

    ghost predicate RoutesAreColonPairs() {
      forall route :: route in cfg.routes ==> IsColonPair(route.resourceType)
    }

    /** The token is honoured and the PDP would deny. */
    ghost predicate Fooled() {
      FastPath(cfg, 0, h, r) && !Pdp.Allows(svc, 0, r)
    }
  }

  /** The bound fields and the rank determine the verdict, though not monotonically. */
  ghost predicate BoundOnly(domains: Policy.Domains) {
    forall d, i, j ::
      (SameBinding(i, j) && Policy.InputRank(i) == Policy.InputRank(j) && Policy.Allowing(domains(d, i)))
      ==> Policy.Allowing(domains(d, j))
  }

  /** The original resource with this id, and a resource of this kind and id, join to the same text. */
  predicate SameJoin(id: string, kind: string, at: string) {
    "acct:wallet" + "/" + id == kind + "/" + at
  }

  lemma Ranks()
    ensures Policy.AalRank("AAL2") == 2 && Policy.AalRank("AAL3") == 3
  {}

  /** The request names this level. */
  predicate Says(r: Request, level: string) {
    r.subject.properties.Get("auth_assurance_level") == Some(Str(level)) && r.subject.Aal() == level
  }

  lemma BuiltLooks(cfg: Config, h: Http, p: Passed, r: Request)
    requires RequestFor(cfg, h, "cid", p) == Ok(r)
    ensures r.Profile() == cfg.profile && r.context.Get("authz_profile") == Some(Str(cfg.profile))
    ensures Says(r, h.headers.aal) && r.resource.kind == p.route.resourceType
  {
    BuiltView(cfg, h, "cid", p, r);
  }

  /** One of the PEPs above under one policy, presented with the token minted for the original request under another or
      the same. */
  lemma Stage(prims: Token.Primitives, secret: Base64Url.Bytes, domains: Policy.Domains, mintDomains: Policy.Domains,
              minted: string, id: string, profile: string, kind: string, attest: string -> Result<bool, ()>,
              aal: string, caller: string, at: string) returns (x: Case)
    requires prims.Sound()
    requires SameJoin(id, kind, at) && Policy.AalRank(aal) >= Policy.AalRank(minted)
    requires profile == EAST_WEST ==> caller != "" && attest(caller) == Ok(true)
    ensures x.Setting() && x.domains == domains && (mintDomains == domains ==> x.mintedBy == x.svc)
    ensures Pdp.Allows(x.mintedBy, 0, x.m) <==> Policy.Allowing(mintDomains("acct", Pdp.ToInput(x.m)))
    ensures x.m.context.Get("authz_profile") == Some(Str(EDGE)) && Says(x.m, minted) && Says(x.r, aal)
    ensures x.cfg.profile == profile && x.cfg.attest == attest && x.cfg.verifier == Some(x.svc.issuer)
    ensures x.svc.issuer.ttl == LIFETIME && x.r.resource.properties == Props(map[])
    ensures forall route :: route in x.cfg.routes ==> route.resourceType == kind
    ensures FastPath(x.cfg, 0, x.h, x.r) && (caller != "" ==> x.p.caller == caller)
    ensures x.r.Profile() == profile && x.r.context.Get("authz_profile") == Some(Str(profile))
    ensures x.r.resource.kind == kind
  {
    var svc, mintedBy := ServiceOf(domains, prims, secret), ServiceOf(mintDomains, prims, secret);
    var cfg := Guarding(profile, kind, attest, prims, secret);
    var m := Original(minted, "acct:wallet", id);
    OriginalContext(minted, "acct:wallet", id);
    OriginalReachesDomain(mintDomains, prims, secret, minted, id);
    MintedNotEmpty(mintedBy, m);
    var h := Presenting(aal, caller, at, Pdp.Minted(mintedBy, 0, m));
    var p, r := Hits(prims, secret, mintedBy, cfg, h, m);
    BuiltLooks(cfg, h, p, r);
    x := Case(svc, domains, mintedBy, m, cfg, h, p, r);
  }

  lemma KindIsAColonPair()
    ensures IsColonPair("acct:wallet")
  {
    Names();
  }

  lemma DomainDenies(svc: Pdp.Service, domains: Policy.Domains, r: Request)
    requires Pdp.Framework(svc, Null, domains)
    requires forall d :: !Policy.Allowing(domains(d, Pdp.ToInput(r)))
    ensures !Pdp.Allows(svc, 0, r)
  {
    Pdp.AllowsIff(svc, Null, domains, 0, r);
  }

  lemma PartnerIsDenied(svc: Pdp.Service, r: Request)
    requires Pdp.Framework(svc, Null, EdgeOnly) && r.context.Get("authz_profile") == Some(Str(PARTNER))
    ensures !Pdp.Allows(svc, 0, r)
  {
    forall d {
      EdgeOnlyAllows(d, r);
    }
    DomainDenies(svc, EdgeOnly, r);
  }

  lemma Aal3IsDenied(svc: Pdp.Service, r: Request)
    requires Pdp.Framework(svc, Null, ExactlyAal2) && r.subject.Aal() == "AAL3"
    ensures !Pdp.Allows(svc, 0, r)
  {
    forall d {
      ExactlyAal2Allows(d, r);
    }
    DomainDenies(svc, ExactlyAal2, r);
  }

  lemma ExactlyAal2IsBound()
    ensures BoundOnly(ExactlyAal2)
  {
    AnswerAllows(true);
    AnswerAllows(false);
  }

  lemma NothingAllows()
    ensures BoundAndMonotone(Nothing) && forall d, i :: !Policy.Allowing(Nothing(d, i))
  {
    AnswerAllows(false);
  }

  lemma InvalidIsDenied(svc: Pdp.Service, r: Request)
    requires !IsColonPair(r.resource.kind) || !KnownProfile(r.Profile())
    ensures !Pdp.Allows(svc, 0, r)
  {}

  /** The same joined name, cut at another slash. */
  lemma SlashMoves(kind: string, head: string, tail: string)
    ensures kind + "/" + (head + "/" + tail) == (kind + "/" + head) + "/" + tail
    ensures !IsColonPair(kind + "/" + head)
  {
    ColonPairParts(kind + "/" + head);
    assert (kind + "/" + head)[|kind|] == '/';
  }

  lemma SlashedNames() returns (kind: string, id: string, at: string)
    ensures SameJoin(id, kind, at) && !IsColonPair(kind)
  {
    var head: string;
    head, at := "x", "y";
    SlashMoves("acct:wallet", head, at);
    kind, id := "acct:wallet" + "/" + head, head + "/" + at;
  }

  lemma Stranger() returns (caller: string)
    ensures caller != "" && !Text.HasPrefix(caller, "spiffe://")
  {
    caller := "batch";
  }

  lemma OtherProfile() returns (profile: string)
    ensures !KnownProfile(profile)
  {
    profile := "mesh";
  }

  lemma StrangerIsDenied(x: Case)
    requires x.Setting() && x.cfg.profile == EAST_WEST && !Text.HasPrefix(x.p.caller, "spiffe://")
    ensures !Pdp.Allows(x.svc, 0, x.r)
  {
    Gate3Iff(x.cfg, x.h, "cid", x.p, x.r);
    Pdp.AllowsIff(x.svc, Null, x.domains, 0, x.r);
  }

  /** The verdict may read only bound fields. Here it reads the profile, which a token does not bind: minted for the
      edge hop, honoured on the partner hop. */
  lemma UnboundFieldBreaksIt(prims: Token.Primitives, secret: Base64Url.Bytes) returns (x: Case)
    requires prims.Sound()
    ensures x.Setting() && x.PdpMinted() && WellConfigured(x.cfg) && x.domains == EdgeOnly && x.Fooled()
  {
    Ranks();
    x := Stage(prims, secret, EdgeOnly, EdgeOnly, "AAL2", "1", PARTNER, "acct:wallet", SpiffeOnly, "AAL2", "", "1");
    KindIsAColonPair();
    EdgeOnlyAllows("acct", x.m);
    PartnerIsDenied(x.svc, x.r);
  }

  /** The verdict must be monotone in the level. Here it takes AAL2 only, and an AAL3 caller rides on an AAL2 token. */
  lemma NonMonotoneBreaksIt(prims: Token.Primitives, secret: Base64Url.Bytes) returns (x: Case)
    requires prims.Sound()
    ensures x.Setting() && x.PdpMinted() && WellConfigured(x.cfg) && BoundOnly(x.domains) && x.Fooled()
  {
    Ranks();
    x := Stage(prims, secret, ExactlyAal2, ExactlyAal2, "AAL2", "1", EDGE, "acct:wallet", SpiffeOnly, "AAL3", "", "1");
    KindIsAColonPair();
    ExactlyAal2IsBound();
    ExactlyAal2Allows("acct", x.m);
    Aal3IsDenied(x.svc, x.r);
  }

  /** The verdict reads the bound fields and the level as it is spelled. */
  ghost predicate BoundToSpelling(domains: Policy.Domains) {
    forall d, i, j ::
      (SameBinding(i, j) && Policy.SubjectAal(i) == Policy.SubjectAal(j) && Policy.Allowing(domains(d, i)))
      ==> Policy.Allowing(domains(d, j))
  }

  lemma OnlyLevelAllows(level: string, said: string, d: string, r: Request)
    requires Says(r, said)
    ensures Policy.Allowing(OnlyLevel(level)(d, Pdp.ToInput(r))) <==> said == level
  {
    Pdp.InputView(r);
    var i := Pdp.ToInput(r);
    assert Policy.SubjectAal(i) == r.subject.properties.Get("auth_assurance_level");
    AnswerAllows(Policy.SubjectAal(i) == Some(Str(level)));
  }

  lemma OnlyLevelIsBoundToSpelling(level: string)
    ensures BoundToSpelling(OnlyLevel(level))
  {
    AnswerAllows(true);
    AnswerAllows(false);
  }

  lemma OtherLevelIsDenied(svc: Pdp.Service, level: string, said: string, r: Request)
    requires Pdp.Framework(svc, Null, OnlyLevel(level)) && Says(r, said) && said != level
    ensures !Pdp.Allows(svc, 0, r)
  {
    forall d {
      OnlyLevelAllows(level, said, d, r);
    }
    DomainDenies(svc, OnlyLevel(level), r);
  }

  /** The verdict may read the rank of the level only, not its spelling. A token minted at any level admits any other of
      no lower rank, and all that are not one of the three rank alike, "AAL4" and no level at all among them. */
  lemma SpelledLevelBreaksIt(prims: Token.Primitives, secret: Base64Url.Bytes, minted: string, presented: string)
      returns (x: Case)
    requires prims.Sound() && minted != presented && Policy.AalRank(presented) >= Policy.AalRank(minted)
    ensures x.Setting() && x.PdpMinted() && WellConfigured(x.cfg) && BoundToSpelling(x.domains) && x.Fooled()
  {
    var domains := OnlyLevel(minted);
    x := Stage(prims, secret, domains, domains, minted, "1", EDGE, "acct:wallet", SpiffeOnly, presented, "", "1");
    KindIsAColonPair();
    OnlyLevelIsBoundToSpelling(minted);
    OnlyLevelAllows(minted, minted, "acct", x.m);
    OtherLevelIsDenied(x.svc, minted, presented, x.r);
  }

  /** The stage under the policy that allows everything, which meets the verdict conditions. */
  lemma OpenStage(prims: Token.Primitives, secret: Base64Url.Bytes, id: string, profile: string, kind: string,
                  attest: string -> Result<bool, ()>, caller: string, at: string) returns (x: Case)
    requires prims.Sound() && SameJoin(id, kind, at)
    requires profile == EAST_WEST ==> caller != "" && attest(caller) == Ok(true)
    ensures x.Setting() && x.PdpMinted() && BoundAndMonotone(x.domains) && FastPath(x.cfg, 0, x.h, x.r)
    ensures x.cfg.profile == profile && x.cfg.attest == attest && x.cfg.verifier == Some(x.svc.issuer)
    ensures x.svc.issuer.ttl == LIFETIME && x.r.resource.properties == Props(map[])
    ensures forall route :: route in x.cfg.routes ==> route.resourceType == kind
    ensures caller != "" ==> x.p.caller == caller
    ensures x.r.Profile() == profile && x.r.resource.kind == kind
  {
    AllowAllIsBoundAndMonotone();
    Ranks();
    x := Stage(prims, secret, Everything, Everything, "AAL2", id, profile, kind, attest, "AAL2", caller, at);
    EverythingAllows(Pdp.ToInput(x.m));
  }

  /** Route resource types must be colon pairs. A slash in one moves the boundary of the joined resource name. */
  lemma SlashedRouteBreaksIt(prims: Token.Primitives, secret: Base64Url.Bytes) returns (x: Case)
    requires prims.Sound()
    ensures x.Setting() && x.PdpMinted() && BoundAndMonotone(x.domains)
            && AttestsSpiffeOnly(x.cfg) && KnownProfile(x.cfg.profile) && x.Fooled()
  {
    var kind, id, at := SlashedNames();
    x := OpenStage(prims, secret, id, EDGE, kind, SpiffeOnly, "", at);
    InvalidIsDenied(x.svc, x.r);
  }

  /** The attestor must accept spiffe:// ids only. One that accepts any caller lets a request past that gate 3
      denies. */
  lemma LaxAttestorBreaksIt(prims: Token.Primitives, secret: Base64Url.Bytes) returns (x: Case)
    requires prims.Sound()
    ensures x.Setting() && x.PdpMinted() && BoundAndMonotone(x.domains)
            && x.RoutesAreColonPairs() && KnownProfile(x.cfg.profile) && x.Fooled()
  {
    KindIsAColonPair();
    var caller := Stranger();
    x := OpenStage(prims, secret, "1", EAST_WEST, "acct:wallet", AnyPeer, caller, "1");
    StrangerIsDenied(x);
  }

  /** The profile must be one of the three. A PEP embedded under another name takes tokens for requests the PDP calls
      invalid. */
  lemma UnknownProfileBreaksIt(prims: Token.Primitives, secret: Base64Url.Bytes) returns (x: Case)
    requires prims.Sound()
    ensures x.Setting() && x.PdpMinted() && BoundAndMonotone(x.domains)
            && x.RoutesAreColonPairs() && AttestsSpiffeOnly(x.cfg) && x.Fooled()
  {
    KindIsAColonPair();
    var profile := OtherProfile();
    x := OpenStage(prims, secret, "1", profile, "acct:wallet", SpiffeOnly, "", "1");
    InvalidIsDenied(x.svc, x.r);
  }

  /** The policy must not change under a live token: minted under one that allows, presented under one that denies. */
  lemma PolicyChangeBreaksIt(prims: Token.Primitives, secret: Base64Url.Bytes) returns (x: Case)
    requires prims.Sound()
    ensures x.Setting() && Pdp.Allows(x.mintedBy, 0, x.m) && BoundAndMonotone(x.domains)
            && WellConfigured(x.cfg) && x.Fooled()
  {
    AllowAllIsBoundAndMonotone();
    NothingAllows();
    Ranks();
    x := Stage(prims, secret, Nothing, Everything, "AAL2", "1", EDGE, "acct:wallet", SpiffeOnly, "AAL2", "", "1");
    EverythingAllows(Pdp.ToInput(x.m));
    KindIsAColonPair();
    DomainDenies(x.svc, Nothing, x.r);
  }

  /** The PDP must be the only minter: anyone else holding the secret can mint for a request the PDP denies. */
  lemma SecondMinterBreaksIt(prims: Token.Primitives, secret: Base64Url.Bytes) returns (x: Case)
    requires prims.Sound()
    ensures x.Setting() && x.mintedBy == x.svc && BoundAndMonotone(x.domains) && WellConfigured(x.cfg) && x.Fooled()
  {
    NothingAllows();
    Ranks();
    x := Stage(prims, secret, Nothing, Nothing, "AAL2", "1", EDGE, "acct:wallet", SpiffeOnly, "AAL2", "", "1");
    KindIsAColonPair();
    DomainDenies(x.svc, Nothing, x.r);
  }
}
