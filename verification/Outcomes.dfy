/** What a caller gets to see, spelled out from the request, the configuration and the policy document. */
module Outcomes {
  import opened Values
  import opened Contract
  import opened Pep
  import opened Transport
  import Acct
  import BubbleUp
  import Engine
  import Journey
  import Pdp
  import Policy
  import Refinement
  import Rego
  import Token
  import Witnesses

  /** A refusal without a step-up: this kind, this reason, nothing else. */
  predicate Refuses(out: Outcome, kind: Kind, reason: string) {
    out.kind == kind && out.reasonCode == reason && out.requiredAcr == "" && out.token == ""
  }

  // ----- Up to the PDP -----

  predicate Anonymous(cfg: Config, h: Http) {
    h.peer.None? && (cfg.requirePeerSvid || h.headers.callerSpiffe == "")
  }

  function CallerOf(cfg: Config, h: Http): string {
    if h.peer.Some? then h.peer.value else if cfg.requirePeerSvid then "" else h.headers.callerSpiffe
  }

  /** Nobody but an attested peer gets past the east-west L0. */
  predicate ClearsL0(cfg: Config, h: Http) {
    cfg.profile == "east_west" ==> !Anonymous(cfg, h) && cfg.attest(CallerOf(cfg, h)) == Ok(true)
  }

  predicate Serves(route: Route, h: Http) {
    route.verb == h.verb && route.path == h.path
  }

  /** Whoever fails L0 or L1 learns which, whatever else is wrong with the request. */
  lemma DropsAndUnknownRoutes(cfg: Config, h: Http, cid: string, revoked: set<string>, now: int, pdp: Decider)
    ensures var out := Checked(cfg, h, cid, revoked, now, pdp);
            && (!ClearsL0(cfg, h) ==>
                  Refuses(out, DropL0, if Anonymous(cfg, h) then "l0_no_peer_svid" else "l0_peer_not_attested"))
            && (ClearsL0(cfg, h) && (forall route :: route in cfg.routes ==> !Serves(route, h)) ==>
                  Refuses(out, DenyRoute, "l1_route_not_permitted"))
  {
    var route := MatchRoute(cfg.routes, h.verb, h.path);
    assert route.Some? ==> route.value in cfg.routes && Serves(route.value, h);
  }

  /** The k-th route is the first to serve the request. */
  predicate ServedBy(cfg: Config, h: Http, k: nat) {
    k < |cfg.routes| && Serves(cfg.routes[k], h) && forall i :: 0 <= i < k ==> !Serves(cfg.routes[i], h)
  }

  lemma GuardSays(cfg: Config, h: Http, cid: string, k: nat)
    requires ClearsL0(cfg, h) && ServedBy(cfg, h, k)
    ensures Guarded(cfg, h, cid) == Ok(Passed(CallerOf(cfg, h), cfg.routes[k]))
  {
    RouteSays(cfg.routes, h, k);
  }

  lemma {:induction false} RouteSays(routes: seq<Route>, h: Http, k: nat)
    requires k < |routes| && Serves(routes[k], h) && forall i :: 0 <= i < k ==> !Serves(routes[i], h)
    ensures MatchRoute(routes, h.verb, h.path) == Some(routes[k])
  {
    if k > 0 {
      assert !Serves(routes[0], h);
      forall i | 0 <= i < k - 1
        ensures !Serves(routes[1..][i], h)
      {
        assert routes[1..][i] == routes[i + 1];
      }
      RouteSays(routes[1..], h, k - 1);
    } else {
      assert Serves(routes[0], h);
    }
  }

  /** The token the request carries is live and made for this very tuple, at no higher level. */
  predicate Honoured(cfg: Config, now: int, h: Http, route: Route, properties: GoMap) {
    && cfg.verifier.Some? && h.headers.decisionToken != ""
    && var claims := Token.Verify(cfg.prims, cfg.verifier.value, now, h.headers.decisionToken);
       && claims.Ok?
       && claims.value.subject == h.headers.subjectId
       && claims.value.action == route.action
       && claims.value.resource == route.resourceType + "/" + h.headers.resourceId
       && claims.value.resDigest == Token.ResourceDigest(cfg.prims, properties)
       && Policy.AalRank(claims.value.aal) <= Policy.AalRank(h.headers.aal)
  }

  lemma HonouredIff(cfg: Config, now: int, h: Http, cid: string, p: Passed, r: Request)
    requires RequestFor(cfg, h, cid, p) == Ok(r)
    ensures FastPath(cfg, now, h, r) <==> Honoured(cfg, now, h, p.route, r.resource.properties)
  {
    Refinement.BuiltFields(cfg, h, cid, p, r);
  }

  /** What becomes of a request that a route serves, in this order: a revoked subject is refused, a body that cannot be
      lifted is refused, a token that is honoured is handed back, and otherwise the PDP's word is passed on. */
  lemma ServedRequests(cfg: Config, h: Http, cid: string, revoked: set<string>, now: int, pdp: Decider, k: nat)
    requires ClearsL0(cfg, h) && ServedBy(cfg, h, k)
    ensures var p := Passed(CallerOf(cfg, h), cfg.routes[k]);
            var (out, r) := (Checked(cfg, h, cid, revoked, now, pdp), RequestFor(cfg, h, cid, p));
            var isRevoked := h.headers.subjectId != "" && h.headers.subjectId in revoked;
            && (isRevoked ==> Refuses(out, DenyForbidden, "session_revoked"))
            && (!isRevoked && r.Err? ==> Refuses(out, DenyForbidden, "l2_request_build_failed"))
            && (!isRevoked && r.Ok? ==>
                  if Honoured(cfg, now, h, cfg.routes[k], r.value.resource.properties)
                  then out == Outcome(Allow, "decision_token_reuse", "", cid, h.headers.decisionToken)
                  else out == Answered(pdp(r.value), cid))
  {
    GuardSays(cfg, h, cid, k);
    var p := Passed(CallerOf(cfg, h), cfg.routes[k]);
    if RequestFor(cfg, h, cid, p).Ok? {
      HonouredIff(cfg, now, h, cid, p, RequestFor(cfg, h, cid, p).value);
    }
  }

  // ----- From the policy document to the outcome -----

  predicate IsStepUp(item: Json) {
    Member(Some(item), "type") == Some(Str("step_up"))
  }

  /** The k-th item is the first step-up of the list. */
  predicate FirstStepUpAt(items: seq<Json>, k: nat) {
    k < |items| && IsStepUp(items[k]) && forall i :: 0 <= i < k ==> !IsStepUp(items[i])
  }

  function TextOf(v: Option<Json>): string {
    if v.Some? && v.value.Str? then v.value.s else ""
  }

  /** The items of the document's obligations; none unless they are an array. */
  function Listed(v: Option<Json>): seq<Json> {
    if v.Some? && v.value.Arr? then v.value.items else []
  }

  /** The outcome this decision document stands for, member by member. */
  ghost predicate Reports(out: Outcome, doc: Json) {
    var items := Listed(Member(Some(doc), "obligations"));
    var reason := TextOf(Member(Some(doc), "reason_code"));
    if Member(Some(doc), "allow") == Some(Bool(true)) then
      out.kind == Allow && out.reasonCode == reason && out.requiredAcr == ""
    else
      && (forall k: nat :: FirstStepUpAt(items, k) ==>
            && out.kind == DenyStepUp && out.reasonCode == reason && out.token == ""
            && out.requiredAcr == TextOf(At2(items[k], "details", "required_acr")))
      && ((forall i :: 0 <= i < |items| ==> !IsStepUp(items[i])) ==>
            Refuses(out, DenyForbidden, if reason == "" then "forbidden" else reason))
  }

  lemma FirstAskingSays(items: seq<Json>, k: nat)
    requires FirstStepUpAt(items, k)
    ensures Journey.FirstAsking(items) == Some(items[k])
  {
    var first := Journey.FirstAsking(items);
    assert Journey.AsksStepUp(items[k]);
    var i :| 0 <= i < |items| && items[i] == first.value && Journey.AsksStepUp(items[i])
             && forall j :: 0 <= j < i ==> !Journey.AsksStepUp(items[j]);
    assert IsStepUp(items[i]);
    assert i == k;
  }

  lemma DocumentReports(w: Wire, svc: Pdp.Service, now: int, r: Request, doc: map<string, Json>, cid: string)
    ensures Reports(Classify(Returned(w, Pdp.Assembled(svc, now, r, Engine.Parsed(doc))), cid), Obj(doc))
  {
    var resp := Pdp.Assembled(svc, now, r, Engine.Parsed(doc));
    Journey.ClassifyCommutes(w, resp, cid);
    var items := Listed(Member(Some(Obj(doc)), "obligations"));
    if Member(Some(Obj(doc)), "allow") != Some(Bool(true)) {
      Journey.ObligationPipeline(w, svc, now, r, doc, cid);
      forall k: nat | FirstStepUpAt(items, k)
        ensures Journey.FirstAsking(items) == Some(items[k])
      {
        FirstAskingSays(items, k);
      }
      if forall i :: 0 <= i < |items| ==> !IsStepUp(items[i]) {
        assert forall i :: 0 <= i < |items| ==> !Journey.AsksStepUp(items[i]);
      }
    }
  }

  /** Gates 2 and 3, which a valid request still has to clear. */
  predicate Clear(data: Json, r: Request) {
    Policy.MissingRequired(data, Pdp.ToInput(r)) == {} && Policy.ProfileViolations(Pdp.ToInput(r)) == {}
  }

  predicate Complete(v: Json) {
    forall k :: k in {"allow", "obligations", "reason_code"} ==> Member(Some(v), k).Some?
  }

  /** What the framework policy and a domain's verdict come to, over any wire: every case. */
  lemma VerdictReachesTheCaller(w: Wire, svc: Pdp.Service, data: Json, domains: Policy.Domains, now: int, r: Request,
                                cid: string)
    requires Pdp.Framework(svc, data, domains)
    ensures var out := Answered(Remote(w, svc, now, r), cid);
            var verdict := Policy.DomainVerdict(domains, Pdp.ToInput(r));
            && (!ContractValid(r) ==> Refuses(out, DenyForbidden, "l2_pdp_unavailable"))
            && (ContractValid(r) && !Clear(data, r) ==> Refuses(out, DenyForbidden, "request_invalid"))
            && (ContractValid(r) && Clear(data, r) ==>
                  && (verdict.Conflict? ==> Refuses(out, DenyForbidden, "l2_pdp_unavailable"))
                  && (verdict.Undefined? || verdict == Rego.Value(Bool(false)) ==>
                        Refuses(out, DenyForbidden, "unknown_domain"))
                  && (verdict.Value? && verdict.v != Bool(false) && !Complete(verdict.v) ==>
                        Refuses(out, DenyForbidden, "default_deny"))
                  && (verdict.Value? && verdict.v != Bool(false) && Complete(verdict.v) ==> Reports(out, verdict.v)))
  {
    var out := Answered(Remote(w, svc, now, r), cid);
    var input := Pdp.ToInput(r);
    var (verdict, decision) := (Policy.DomainVerdict(domains, input), Policy.Decision(data, domains, input));
    PolicyReachesTheCaller(w, svc, now, r, cid);
    if ContractValid(r) {
      Pdp.FrontDoorAgreesWithSchemaGate(r);
      Policy.DecisionSays(data, domains, input);
      DecisionIsAnObject(data, domains, input);
      if decision.Value? {
        RefusalReports(out, decision);
        if Clear(data, r) && verdict.Value? && verdict.v != Bool(false) && Complete(verdict.v) {
          ReportsTheSame(out, decision.v, verdict.v);
        }
      }
    }
  }

  /** The same for any policy: its decision document, or none. */
  lemma PolicyReachesTheCaller(w: Wire, svc: Pdp.Service, now: int, r: Request, cid: string)
    ensures var (out, decision) := (Answered(Remote(w, svc, now, r), cid), svc.policy(Pdp.ToInput(r)));
            && (!ContractValid(r) || decision.Conflict? ==> Refuses(out, DenyForbidden, "l2_pdp_unavailable"))
            && (ContractValid(r) && decision.Value? && decision.v.Obj? ==> Reports(out, decision.v))
  {
    SameInputOnEveryWire(w, r);
    var input := Pdp.ToInput(r);
    Engine.FailsOrDenies(svc.policy, input);
    if ContractValid(r) && svc.policy(input).Value? && svc.policy(input).v.Obj? {
      DocumentReports(w, svc, now, Received(w, r), svc.policy(input).v.fields, cid);
    }
  }

  lemma ReportsTheSame(out: Outcome, a: Json, b: Json)
    requires Reports(out, a)
    requires forall k :: k in {"allow", "obligations", "reason_code"} ==> Member(Some(a), k) == Member(Some(b), k)
    ensures Reports(out, b)
  {
    assert Member(Some(a), "allow") == Member(Some(b), "allow");
    assert Member(Some(a), "obligations") == Member(Some(b), "obligations");
    assert Member(Some(a), "reason_code") == Member(Some(b), "reason_code");
  }

  lemma DecisionIsAnObject(data: Json, domains: Policy.Domains, input: Json)
    ensures Policy.Decision(data, domains, input).Value? ==> Policy.Decision(data, domains, input).v.Obj?
    ensures !Policy.Decision(data, domains, input).Undefined?
  {
    Policy.DecisionIsSingleValued(data, domains, input);
  }

  lemma RefusalReports(out: Outcome, decision: Rego.Eval)
    requires decision.Value? && Reports(out, decision.v)
    ensures forall reason, logged :: Policy.RefusesFor(decision, reason, logged) && reason != "" ==>
              Refuses(out, DenyForbidden, reason)
  {
    assert "log" != "step_up";
  }

  // ----- The acct domain, from amount and level to the outcome -----

  /** More than five million, or an amount that is no number but text, a list or an object. */
  predicate IsBig(amount: Json) {
    match amount
    case Num(units) => units > 5_000_000 * ONE
    case Str(_) => true
    case Arr(_) => true
    case Obj(_) => true
    case _ => false
  }

  lemma SettlementDomain(r: Request)
    requires ContractValid(r) && r.action.name == "acct:settle"
    ensures Policy.DomainVerdict(Acct.AcctDomains, Pdp.ToInput(r)) == Acct.AcctVerdict(Pdp.ToInput(r))
  {
    Pdp.InputView(r);
    Witnesses.SettleIsAPair();
    var i := Pdp.ToInput(r);
    assert Policy.FirstPart(At2(i, "resource", "type")) == DomainOf(r.resource.kind);
  }

  lemma BigIsHigh(i: Json, amount: Json)
    requires At2(i, "action", "name") == Some(Str("acct:settle"))
    requires At3(i, "resource", "properties", "amount") == Some(amount)
    ensures Acct.High(i) <==> IsBig(amount)
  {
    Acct.HighSays(i);
  }

  /** The settlement with its attributes, as the policy sees it. */
  lemma SettlementView(r: Request, amount: Json)
    requires r.action.name == "acct:settle" && r.resource.properties.Get("amount") == Some(amount)
    ensures Acct.High(Pdp.ToInput(r)) <==> IsBig(amount)
  {
    Pdp.InputView(r);
    var i := Pdp.ToInput(r);
    assert At3(i, "resource", "properties", "amount") == r.resource.properties.Get("amount");
    BigIsHigh(i, amount);
  }

  lemma TwoListed(x: Json, y: Json)
    ensures forall a :: Pdp.Lists(Some(Arr([x, y])), a) <==> a == x || a == y
  {}

  lemma SettlementIsClear(r: Request)
    requires r.action.name == "acct:settle"
    ensures Policy.MissingRequired(Acct.SETTLE_DATA, Pdp.ToInput(r)) == {} <==>
            Pdp.Supplies(r, Str("amount")) && Pdp.Supplies(r, Str("currency"))
  {
    Acct.SettleDataSays();
    Pdp.Gate2Says(Acct.SETTLE_DATA, r);
    TwoListed(Str("amount"), Str("currency"));
  }

  /** A domain's own verdict, on a request that clears the gates. */
  lemma AcctReports(w: Wire, svc: Pdp.Service, now: int, r: Request, cid: string)
    requires Pdp.Framework(svc, Acct.SETTLE_DATA, Acct.AcctDomains)
    requires ContractValid(r) && r.action.name == "acct:settle" && Clear(Acct.SETTLE_DATA, r)
    ensures Acct.AcctVerdict(Pdp.ToInput(r)).Value?
    ensures Reports(Answered(Remote(w, svc, now, r), cid), Acct.AcctVerdict(Pdp.ToInput(r)).v)
  {
    SettlementDomain(r);
    Acct.VerdictIsComplete(Pdp.ToInput(r));
    VerdictReachesTheCaller(w, svc, Acct.SETTLE_DATA, Acct.AcctDomains, now, r, cid);
  }

  lemma StepUpReported(out: Outcome, input: Json)
    requires Acct.High(input) && !Acct.AtLevel(input, "AAL3")
    requires Acct.AcctVerdict(input).Value? && Reports(out, Acct.AcctVerdict(input).v)
    ensures out.kind == DenyStepUp && out.requiredAcr == "AAL3" && out.reasonCode == "step_up_required"
  {
    Acct.StepUpSays(input);
    var items := Listed(Member(Some(Acct.AcctVerdict(input).v), "obligations"));
    assert FirstStepUpAt(items, 0);
  }

  lemma OthersReported(out: Outcome, input: Json)
    requires !(Acct.High(input) && !Acct.AtLevel(input, "AAL3"))
    requires Acct.AcctVerdict(input).Value? && Reports(out, Acct.AcctVerdict(input).v)
    ensures Policy.Allowing(Acct.AcctVerdict(input)) ==>
              && out.kind == Allow
              && out.reasonCode == if Acct.High(input) then "acct_settle_ok" else "acct_settle_standard"
    ensures !Policy.Allowing(Acct.AcctVerdict(input)) ==> Refuses(out, DenyForbidden, "acct_denied")
  {
    Acct.AcctAllowsIff(input);
    Acct.ReasonSays(input);
    Acct.VerdictIsComplete(input);
    Policy.ForwardedSays(Acct.AcctVerdict(input).v);
  }

  /** What a settlement comes to, by its amount and level. */
  predicate SettlesAs(out: Outcome, big: bool, level: Option<Json>) {
    if big
    then if level == Some(Str("AAL3")) then out.kind == Allow && out.reasonCode == "acct_settle_ok"
         else out.kind == DenyStepUp && out.requiredAcr == "AAL3" && out.reasonCode == "step_up_required"
    else if level == Some(Str("AAL2")) || level == Some(Str("AAL3"))
    then out.kind == Allow && out.reasonCode == "acct_settle_standard"
    else Refuses(out, DenyForbidden, "acct_denied")
  }

  lemma VerdictSettles(out: Outcome, input: Json, big: bool, level: Option<Json>)
    requires Acct.AcctVerdict(input).Value? && Reports(out, Acct.AcctVerdict(input).v)
    requires Acct.Settles(input) && (Acct.High(input) <==> big) && Policy.SubjectAal(input) == level
    ensures SettlesAs(out, big, level)
  {
    Acct.AcctAllowsIff(input);
    if big && !Acct.AtLevel(input, "AAL3") {
      StepUpReported(out, input);
    } else {
      OthersReported(out, input);
    }
  }

  lemma SettlementIsOne(r: Request)
    requires r.action.name == "acct:settle" && r.resource.properties.Get("amount").Some?
    ensures Acct.Settles(Pdp.ToInput(r))
    ensures Policy.SubjectAal(Pdp.ToInput(r)) == r.subject.properties.Get("auth_assurance_level")
  {
    Pdp.InputView(r);
    var i := Pdp.ToInput(r);
    assert At3(i, "resource", "properties", "amount") == r.resource.properties.Get("amount");
  }

  /** A settlement that gets as far as the PDP, over any wire: what it must say, and what its amount and level come
      to. */
  lemma SettlementOutcome(w: Wire, svc: Pdp.Service, now: int, r: Request, cid: string)
    requires Pdp.Framework(svc, Acct.SETTLE_DATA, Acct.AcctDomains)
    requires ContractValid(r) && r.action.name == "acct:settle" && Policy.ProfileViolations(Pdp.ToInput(r)) == {}
    ensures var out := Answered(Remote(w, svc, now, r), cid);
            if !Pdp.Supplies(r, Str("amount")) || !Pdp.Supplies(r, Str("currency"))
            then Refuses(out, DenyForbidden, "request_invalid")
            else SettlesAs(out, IsBig(r.resource.properties.Get("amount").value),
                           r.subject.properties.Get("auth_assurance_level"))
  {
    SettlementIsClear(r);
    if Clear(Acct.SETTLE_DATA, r) {
      var amount := r.resource.properties.Get("amount").value;
      AcctReports(w, svc, now, r, cid);
      SettlementView(r, amount);
      SettlementIsOne(r);
      VerdictSettles(Answered(Remote(w, svc, now, r), cid), Pdp.ToInput(r), IsBig(amount),
                     r.subject.properties.Get("auth_assurance_level"));
    } else {
      VerdictReachesTheCaller(w, svc, Acct.SETTLE_DATA, Acct.AcctDomains, now, r, cid);
    }
  }

  // ----- The token, from the PDP to the caller and back -----

  /** Behind a proxy, an allowed caller reads in its response the token that the PDP minted for its request, whatever
      the upstream answers. Presented again with the same request, that token is honoured without the PDP while it
      lives and the subject is not revoked, over JSON unless the lifted properties are empty. */
  lemma AllowedCallerCanReplay(w: Wire, svc: Pdp.Service, cfg: Config, h: Http, cid: string, cid': string, p: Passed,
                               r: Request, revoked: set<string>, checkedAt: int, mintedAt: int,
                               upstream: BubbleUp.Reply)
    requires svc.prims.Sound() && cfg.prims == svc.prims
    requires cfg.verifier.Some? && cfg.verifier.value.secret == svc.issuer.secret
    requires Guarded(cfg, h, cid) == Ok(p) && BeforePdp(cfg, h, cid, revoked, checkedAt) == Ok(r)
    requires Pdp.Allows(svc, mintedAt, r)
    ensures var out := Checked(cfg, h, cid, revoked, checkedAt, (x: Request) => Remote(w, svc, mintedAt, x));
            var token := BubbleUp.Enforced(cfg.profile, out, BubbleUp.Proxied(upstream)).Get("X-Decision-Token");
            && token == Pdp.Minted(svc, mintedAt, Received(w, r))
            && forall now: int, later: set<string> ::
                 (Token.Unix(now) < Token.Unix(mintedAt + svc.issuer.ttl) && h.headers.subjectId !in later
                  && (w.JsonHttp? ==> !r.resource.properties.IsEmpty()))
                 ==> BeforePdp(cfg, Journey.WithToken(h, token), cid', later, now) ==
                     Err(Outcome(Allow, "decision_token_reuse", "", cid', token))
  {
    var out := Checked(cfg, h, cid, revoked, checkedAt, (x: Request) => Remote(w, svc, mintedAt, x));
    Journey.FreshAllowHandsOutItsToken(w, svc, cfg, h, cid, revoked, checkedAt, mintedAt);
    RemoteAllowsIff(w, svc, mintedAt, r);
    Journey.TokenHasADot(svc, mintedAt, Received(w, r));
    TokenInResponse(cfg.profile, out, upstream);
    forall now: int, later: set<string>
      | Token.Unix(now) < Token.Unix(mintedAt + svc.issuer.ttl) && h.headers.subjectId !in later
        && (w.JsonHttp? ==> !r.resource.properties.IsEmpty())
      ensures BeforePdp(cfg, Journey.WithToken(h, out.token), cid', later, now) ==
              Err(Outcome(Allow, "decision_token_reuse", "", cid', out.token))
    {
      Journey.LiveReplaySkipsPdp(w, svc, cfg, h, cid, cid', p, r, later, mintedAt, now);
    }
  }

  lemma TokenInResponse(profile: string, out: Outcome, upstream: BubbleUp.Reply)
    requires out.kind == Allow && out.token != ""
    ensures BubbleUp.Enforced(profile, out, BubbleUp.Proxied(upstream)).Get("X-Decision-Token") == out.token
  {
    BubbleUp.HeaderNamesDiffer();
  }
}
