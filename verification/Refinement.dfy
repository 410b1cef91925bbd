/** The decision-token fast path as a cache of the PDP: what a hit proves about the decision it stands in for. */
module Refinement {
  import opened Values
  import opened Contract
  import opened Pep
  import opened Transport
  import Policy
  import Pdp
  import Token
  import Text
  import Acct
  import Rego

  // ----- The hypotheses -----

  /** Two inputs that agree on everything a token binds, levels aside. */
  ghost predicate SameBinding(i: Json, j: Json) {
    && At2(i, "subject", "id") == At2(j, "subject", "id")
    && At2(i, "action", "name") == At2(j, "action", "name")
    && At2(i, "resource", "type") == At2(j, "resource", "type")
    && At2(i, "resource", "id") == At2(j, "resource", "id")
    && At2(i, "resource", "properties") == At2(j, "resource", "properties")
  }

  /** Whether a domain allows depends on the bound fields and the rank of the level only, and a higher rank never
      turns an allow into a denial. */
  ghost predicate BoundAndMonotone(domains: Policy.Domains) {
    forall d, i, j ::
      (SameBinding(i, j) && Policy.InputRank(i) <= Policy.InputRank(j) && Policy.Allowing(domains(d, i)))
      ==> Policy.Allowing(domains(d, j))
  }

  ghost predicate AttestsSpiffeOnly(cfg: Config) {
    forall id :: cfg.attest(id) == Ok(true) ==> Text.HasPrefix(id, "spiffe://")
  }

  ghost predicate WellConfigured(cfg: Config) {
    && KnownProfile(cfg.profile)
    && (forall route :: route in cfg.routes ==> IsColonPair(route.resourceType))
    && AttestsSpiffeOnly(cfg)
  }

  // ----- What a PEP-built request looks like to the policy -----

  lemma BuiltView(cfg: Config, h: Http, cid: string, p: Passed, r: Request)
    requires RequestFor(cfg, h, cid, p) == Ok(r)
    ensures r.subject.properties.Get("auth_assurance_level") == Some(Str(h.headers.aal))
    ensures r.subject.properties.Get("act") ==
            if cfg.profile == EAST_WEST && p.caller != "" then Some(ActorEntry(p.caller)) else None
    ensures r.context.Get("authz_profile") == Some(Str(cfg.profile))
    ensures cfg.profile == EDGE ==> r.context.Get("source_ip") == Some(Str(h.clientIp))
    ensures cfg.profile == PARTNER ==> r.context.Get("partner_id") == Some(Str(h.headers.partnerId))
  {
    assert "auth_assurance_level" != "act";
    assert "authz_profile" != "correlation_id" && "authz_profile" != "pep" && "authz_profile" != "source_ip";
    assert "authz_profile" != "partner_id";
  }

  /** The rest of the request, field by field. */
  lemma BuiltFields(cfg: Config, h: Http, cid: string, p: Passed, r: Request)
    requires RequestFor(cfg, h, cid, p) == Ok(r)
    ensures r.subject.kind == "user" && r.subject.id == h.headers.subjectId && r.subject.Aal() == h.headers.aal
    ensures r.action.name == p.route.action && r.action.properties.Get("method") == Some(Str(h.verb))
    ensures r.resource.kind == p.route.resourceType && r.resource.id == h.headers.resourceId
    ensures r.CorrelationId() == cid && r.context.Get("pep") == Some(Obj(map["id" := Str(cfg.pepId)]))
  {
    BuiltView(cfg, h, cid, p, r);
    assert "correlation_id" != "pep" && "correlation_id" != "source_ip" && "correlation_id" != "partner_id";
    assert "pep" != "source_ip" && "pep" != "partner_id";
  }

  function ActorEntry(caller: string): Json {
    Obj(map["type" := Str("workload"), "id" := Str(caller)])
  }

  lemma ActorIsValidIff(caller: string)
    ensures Policy.ValidWorkloadActor(ActorEntry(caller)) <==> Text.HasPrefix(caller, "spiffe://")
  {}

  /** Gate 3 over any input that carries what a PEP puts there. */
  lemma Gate3Of(i: Json, profile: string, caller: string)
    requires At2(i, "context", "authz_profile") == Some(Str(profile))
    requires At3(i, "subject", "properties", "act") ==
             if profile == EAST_WEST && caller != "" then Some(ActorEntry(caller)) else None
    requires profile == EDGE ==> Rego.Holds(At2(i, "context", "source_ip"))
    requires profile == PARTNER ==> Rego.Holds(At2(i, "context", "partner_id"))
    ensures Policy.ProfileViolations(i) == {} <==> (profile == EAST_WEST ==> Text.HasPrefix(caller, "spiffe://"))
  {
    ActorIsValidIff(caller);
    assert profile == EAST_WEST && caller != "" && !Text.HasPrefix(caller, "spiffe://") ==>
           Policy.BadActor in Policy.ProfileViolations(i);
    assert profile == EAST_WEST && caller == "" ==> Policy.NoActor in Policy.ProfileViolations(i);
  }

  /** A PEP-built request clears gate 3 exactly when, on the east-west hop, its caller is a spiffe:// id. */
  lemma Gate3Iff(cfg: Config, h: Http, cid: string, p: Passed, r: Request)
    requires RequestFor(cfg, h, cid, p) == Ok(r)
    ensures Policy.ProfileViolations(Pdp.ToInput(r)) == {} <==>
            (cfg.profile == EAST_WEST ==> Text.HasPrefix(p.caller, "spiffe://"))
  {
    BuiltView(cfg, h, cid, p, r);
    Pdp.InputView(r);
    Gate3Of(Pdp.ToInput(r), cfg.profile, p.caller);
  }

  /** With an attestor that accepts only spiffe:// ids, every request past L0 clears gate 3, whatever the profile. */
  lemma BuiltRequestsPassGate3(cfg: Config, h: Http, cid: string, p: Passed, r: Request)
    requires Guarded(cfg, h, cid) == Ok(p) && RequestFor(cfg, h, cid, p) == Ok(r)
    requires AttestsSpiffeOnly(cfg)
    ensures Policy.ProfileViolations(Pdp.ToInput(r)) == {}
  {
    Gate3Iff(cfg, h, cid, p, r);
  }

  lemma LiftedSays(body: map<string, Json>, keys: seq<string>)
    ensures forall k :: Props(Lifted(body, keys)).Get(k) == if k in keys then Member(Some(Obj(body)), k) else None
  {}

  /** What a request lifts: of a JSON object the configured members, each with its own value; of no other body
      anything. */
  lemma BuiltFromBody(cfg: Config, h: Http, cid: string, p: Passed, r: Request)
    requires RequestFor(cfg, h, cid, p) == Ok(r)
    ensures r.action.name == p.route.action && r.resource.properties.Props?
    ensures forall k :: r.resource.properties.Get(k) ==
              if h.body.Readable? && h.body.text.Document? && k in p.route.resourceProps
              then Member(Some(h.body.text.v), k) else None
  {
    if h.body.Readable? && h.body.text.Document? && h.body.text.v.Obj? {
      LiftedSays(h.body.text.v.fields, p.route.resourceProps);
    }
  }

  /** No request is built exactly when there is something to lift and the body is unreadable, no JSON, or neither an
      object nor null. */
  lemma NotBuiltIff(cfg: Config, h: Http, cid: string, p: Passed)
    ensures RequestFor(cfg, h, cid, p).Err? <==>
            p.route.resourceProps != []
            && match h.body
               case Unreadable => true
               case Readable(Empty) => false
               case Readable(Malformed) => true
               case Readable(Document(v)) => !v.Obj? && !v.Null?
  {}

  /** Whether the body supplies this attribute under one of the configured keys, with something other than false. */
  predicate BodySupplies(body: Body, keys: seq<string>, attribute: Json) {
    && body.Readable? && body.text.Document?
    && attribute.Str? && attribute.s in keys
    && Member(Some(body.text.v), attribute.s).Some? && Member(Some(body.text.v), attribute.s) != Some(Bool(false))
  }

  /** Gate 2 for a PEP-built request: clear exactly when the body so supplies all that the data lists for the action. */
  lemma Gate2Iff(cfg: Config, h: Http, cid: string, p: Passed, r: Request, data: Json)
    requires RequestFor(cfg, h, cid, p) == Ok(r)
    ensures var listed := At2(data, "required_attributes", p.route.action);
            Policy.MissingRequired(data, Pdp.ToInput(r)) == {} <==>
            forall a :: Pdp.Lists(listed, a) ==> BodySupplies(h.body, p.route.resourceProps, a)
  {
    BuiltFromBody(cfg, h, cid, p, r);
    Pdp.Gate2Says(data, r);
    forall a
      ensures Pdp.Supplies(r, a) <==> BodySupplies(h.body, p.route.resourceProps, a)
    {
    }
  }

  /** On the east-west hop the delegation actor named to the policy is the verified certificate's id when there is one,
      and can be a header's word only in dev mode; either way the attestor accepted it. */
  lemma ActorIsTheAttestedPeer(cfg: Config, h: Http, cid: string, p: Passed, r: Request)
    requires cfg.profile == EAST_WEST && Guarded(cfg, h, cid) == Ok(p) && RequestFor(cfg, h, cid, p) == Ok(r)
    ensures cfg.attest(p.caller) == Ok(true)
    ensures p.caller != "" ==> r.subject.properties.Get("act") == Some(ActorEntry(p.caller))
    ensures h.peer.Some? ==> p.caller == h.peer.value
    ensures h.peer.None? ==> !cfg.requirePeerSvid && p.caller == h.headers.callerSpiffe != ""
  {
    BuiltView(cfg, h, cid, p, r);
  }

  // ----- The refinement -----

  /** The claims bind the whole tuple: the joined resource name splits only one way, since a colon pair has no slash. */
  lemma BoundTuple(prims: Token.Primitives, c: Token.Claims, m: Request, r: Request)
    requires prims.Sound() && IsColonPair(m.resource.kind) && IsColonPair(r.resource.kind)
    requires c == Pdp.ClaimsFor(prims, m).(issuedAt := c.issuedAt, expiresAt := c.expiresAt)
    requires Binds(prims, c, r)
    ensures m.subject.id == r.subject.id && m.action.name == r.action.name
    ensures m.resource.kind == r.resource.kind && m.resource.id == r.resource.id
    ensures m.resource.properties == r.resource.properties
    ensures Policy.AalRank(m.subject.Aal()) <= Policy.AalRank(r.subject.Aal())
  {
    ColonPairParts(m.resource.kind);
    ColonPairParts(r.resource.kind);
    Text.JoinInjective(m.resource.kind, m.resource.id, '/', r.resource.kind, r.resource.id);
    Token.DigestInjective(prims, m.resource.properties, r.resource.properties);
  }

  lemma RankOfView(i: Json, s: Subject)
    requires Policy.SubjectAal(i) == s.properties.Get("auth_assurance_level")
    ensures Policy.InputRank(i) == Policy.AalRank(s.Aal())
  {}

  lemma RankView(r: Request)
    ensures Policy.InputRank(Pdp.ToInput(r)) == Policy.AalRank(r.subject.Aal())
  {
    var i := Pdp.ToInput(r);
    Pdp.InputView(r);
    assert At3(i, "subject", "properties", "auth_assurance_level") == r.subject.properties.Get("auth_assurance_level");
    RankOfView(i, r.subject);
  }

  /** Gates 1 and 2 and the binding see only the tuple. */
  lemma SameTupleSameView(m: Request, r: Request)
    requires m.subject.id == r.subject.id && m.action.name == r.action.name
    requires m.resource.kind == r.resource.kind && m.resource.id == r.resource.id
    requires m.resource.properties.Entries() == r.resource.properties.Entries()
    ensures SameBinding(Pdp.ToInput(m), Pdp.ToInput(r))
    ensures forall data :: Policy.MissingRequired(data, Pdp.ToInput(m)) == Policy.MissingRequired(data, Pdp.ToInput(r))
    ensures At2(Pdp.ToInput(m), "resource", "type") == Some(Str(m.resource.kind))
    ensures At2(Pdp.ToInput(r), "resource", "type") == Some(Str(m.resource.kind))
  {
    Pdp.InputView(m);
    Pdp.InputView(r);
  }

  /** Only the tuple's level and context are left to compare. */
  lemma AllowCarriesOver(svc: Pdp.Service, data: Json, domains: Policy.Domains, m: Request, r: Request,
                         mintedAt: int, now: int)
    requires Pdp.Framework(svc, data, domains) && BoundAndMonotone(domains)
    requires Pdp.Allows(svc, mintedAt, m)
    requires m.subject.id == r.subject.id && m.action.name == r.action.name
    requires m.resource.kind == r.resource.kind && m.resource.id == r.resource.id
    requires m.resource.properties.Entries() == r.resource.properties.Entries()
    requires Policy.AalRank(m.subject.Aal()) <= Policy.AalRank(r.subject.Aal())
    requires ContractValid(r) && Policy.ProfileViolations(Pdp.ToInput(r)) == {}
    ensures Pdp.Allows(svc, now, r)
  {
    Pdp.AllowsIff(svc, data, domains, mintedAt, m);
    Pdp.AllowsIff(svc, data, domains, now, r);
    SameTupleSameView(m, r);
    BoundVerdict(domains, m, r);
  }

  lemma VerdictCarriesOver(domains: Policy.Domains, i: Json, j: Json)
    requires BoundAndMonotone(domains) && SameBinding(i, j) && Policy.InputRank(i) <= Policy.InputRank(j)
    requires Policy.Allowing(Policy.DomainVerdict(domains, i))
    ensures Policy.Allowing(Policy.DomainVerdict(domains, j))
  {}

  /** A PEP-built request with the subject, action and resource type of a valid one is valid exactly when the PEP's
      profile is. */
  lemma BuiltIsValidIff(cfg: Config, h: Http, cid: string, p: Passed, r: Request, m: Request)
    requires RequestFor(cfg, h, cid, p) == Ok(r)
    requires ContractValid(m) && m.subject.id == r.subject.id
    requires m.action.name == r.action.name && m.resource.kind == r.resource.kind
    ensures ContractValid(r) <==> KnownProfile(cfg.profile)
  {
    BuiltView(cfg, h, cid, p, r);
  }

  /** If the PDP allowed request m, and r is built by a PEP and bound by the claims minted for m, then the PDP allows r
      exactly when the route names a colon pair, the profile is known, an east-west caller is a spiffe:// id, and the
      domain allows r. These are the hypotheses of HitRefinesPdp, one by one. */
  lemma HitAgreesIff(svc: Pdp.Service, data: Json, domains: Policy.Domains, cfg: Config, h: Http, cid: string,
                     p: Passed, r: Request, m: Request, c: Token.Claims, mintedAt: int, now: int)
    requires Pdp.Framework(svc, data, domains) && svc.prims.Sound()
    requires RequestFor(cfg, h, cid, p) == Ok(r) && Pdp.Allows(svc, mintedAt, m)
    requires c == Pdp.ClaimsFor(svc.prims, m).(issuedAt := c.issuedAt, expiresAt := c.expiresAt)
    requires Binds(svc.prims, c, r)
    ensures Pdp.Allows(svc, now, r) <==>
            && IsColonPair(p.route.resourceType)
            && KnownProfile(cfg.profile)
            && (cfg.profile == EAST_WEST ==> Text.HasPrefix(p.caller, "spiffe://"))
            && Policy.Allowing(Policy.DomainVerdict(domains, Pdp.ToInput(r)))
  {
    Pdp.AllowsIff(svc, data, domains, mintedAt, m);
    Pdp.AllowsIff(svc, data, domains, now, r);
    if IsColonPair(r.resource.kind) {
      BoundTuple(svc.prims, c, m, r);
      SameTupleSameView(m, r);
      BuiltIsValidIff(cfg, h, cid, p, r, m);
      Gate3Iff(cfg, h, cid, p, r);
    }
  }

  /** So under the hypotheses on the routes, the profile, the attestor and the domains, a hit stands in for a decision
      the PDP would make too, over any wire and at any time. */
  lemma HitRefinesPdp(svc: Pdp.Service, data: Json, domains: Policy.Domains, cfg: Config, h: Http, cid: string,
                      p: Passed, r: Request, m: Request, c: Token.Claims, w: Wire, mintedAt: int, now: int)
    requires Pdp.Framework(svc, data, domains) && BoundAndMonotone(domains) && svc.prims.Sound()
    requires WellConfigured(cfg) && Guarded(cfg, h, cid) == Ok(p) && RequestFor(cfg, h, cid, p) == Ok(r)
    requires Pdp.Allows(svc, mintedAt, m)
    requires c == Pdp.ClaimsFor(svc.prims, m).(issuedAt := c.issuedAt, expiresAt := c.expiresAt)
    requires Binds(svc.prims, c, r)
    ensures Pdp.Allows(svc, now, Received(w, r))
  {
    RemoteAllowsIff(w, svc, now, r);
    PassedConfiguration(cfg, h, cid, p);
    HitAgreesIff(svc, data, domains, cfg, h, cid, p, r, m, c, mintedAt, now);
    BoundAllowing(svc, data, domains, m, c, r, mintedAt);
  }

  lemma PassedConfiguration(cfg: Config, h: Http, cid: string, p: Passed)
    requires WellConfigured(cfg) && Guarded(cfg, h, cid) == Ok(p)
    ensures IsColonPair(p.route.resourceType) && KnownProfile(cfg.profile)
    ensures cfg.profile == EAST_WEST ==> Text.HasPrefix(p.caller, "spiffe://")
  {}

  lemma BoundAllowing(svc: Pdp.Service, data: Json, domains: Policy.Domains, m: Request, c: Token.Claims, r: Request,
                      mintedAt: int)
    requires Pdp.Framework(svc, data, domains) && BoundAndMonotone(domains) && svc.prims.Sound()
    requires Pdp.Allows(svc, mintedAt, m) && IsColonPair(r.resource.kind)
    requires c == Pdp.ClaimsFor(svc.prims, m).(issuedAt := c.issuedAt, expiresAt := c.expiresAt)
    requires Binds(svc.prims, c, r)
    ensures Policy.Allowing(Policy.DomainVerdict(domains, Pdp.ToInput(r)))
  {
    Pdp.AllowsIff(svc, data, domains, mintedAt, m);
    BoundTuple(svc.prims, c, m, r);
    BoundVerdict(domains, m, r);
  }

  lemma BoundVerdict(domains: Policy.Domains, m: Request, r: Request)
    requires BoundAndMonotone(domains) && Policy.Allowing(Policy.DomainVerdict(domains, Pdp.ToInput(m)))
    requires m.subject.id == r.subject.id && m.action.name == r.action.name
    requires m.resource.kind == r.resource.kind && m.resource.id == r.resource.id
    requires m.resource.properties.Entries() == r.resource.properties.Entries()
    requires Policy.AalRank(m.subject.Aal()) <= Policy.AalRank(r.subject.Aal())
    ensures Policy.Allowing(Policy.DomainVerdict(domains, Pdp.ToInput(r)))
  {
    SameTupleSameView(m, r);
    RankView(m);
    RankView(r);
    VerdictCarriesOver(domains, Pdp.ToInput(m), Pdp.ToInput(r));
  }

  /** The `acct` domain meets the hypothesis. */
  lemma AcctIsBoundAndMonotone()
    ensures BoundAndMonotone(Acct.AcctDomains)
  {
    forall d, i, j | SameBinding(i, j) && Policy.InputRank(i) <= Policy.InputRank(j)
                     && Policy.Allowing(Acct.AcctDomains(d, i))
      ensures Policy.Allowing(Acct.AcctDomains(d, j))
    {
      Acct.AcctAllowsIff(i);
      Acct.AcctAllowsIff(j);
      Acct.LevelsAreRanks(Policy.SubjectAal(i));
      Acct.LevelsAreRanks(Policy.SubjectAal(j));
      assert Acct.Amount(i) == Acct.Amount(j);
    }
  }
}
