/** The policy enforcement point: the L0, L1, revocation, L2 ladder, with the decision-token fast path before the
    PDP. */
module Pep {
  import opened Values
  import opened Contract
  import Caep
  import Token
  import Policy

  datatype Route = Route(verb: string, path: string, action: string, resourceType: string, resourceProps: seq<string>)

  /** `attest` answers Err when the attestor itself failed. `verifier` is None when the fast path is off. */
  datatype Config = Config(
    profile: string,
    pepId: string,
    routes: seq<Route>,
    attest: string -> Result<bool, ()>,
    requirePeerSvid: bool,
    verifier: Option<Token.Issuer>,
    prims: Token.Primitives)

  /** The propagation headers; an absent header reads as the empty string. */
  datatype Headers = Headers(
    subjectId: string,
    aal: string,
    callerSpiffe: string,
    resourceId: string,
    partnerId: string,
    correlationId: string,
    decisionToken: string)

  /** A request body: one that cannot be read, or its text as a JSON decoder sees it. */
  datatype Body = Unreadable | Readable(text: Content)
  datatype Content = Empty | Malformed | Document(v: Json)

  /** A snapshot of an HTTP request. `peer` is the SPIFFE id of the verified peer certificate, if there is one. */
  datatype Http = Http(
    verb: string, path: string, headers: Headers, peer: Option<string>, clientIp: string, body: Body)

  datatype Kind = Allow | DropL0 | DenyRoute | DenyForbidden | DenyStepUp

  datatype Outcome = Outcome(kind: Kind, reasonCode: string, requiredAcr: string, correlationId: string, token: string)

  function Refusal(kind: Kind, reason: string, cid: string): Outcome {
    Outcome(kind, reason, "", cid, "")
  }

  // ----- L0 and L1 -----

  /** A verified certificate wins; the header stands in for it only in dev mode. */
  function PeerIdentity(cfg: Config, h: Http): Option<string> {
    if h.peer.Some? then h.peer
    else if !cfg.requirePeerSvid && h.headers.callerSpiffe != "" then Some(h.headers.callerSpiffe)
    else None
  }

  /** The first route with this method and exact path. */
  function MatchRoute(routes: seq<Route>, verb: string, path: string): (r: Option<Route>)
    ensures r.None? ==> forall i :: 0 <= i < |routes| ==> routes[i].verb != verb || routes[i].path != path
    ensures r.Some? ==> exists i :: 0 <= i < |routes| && routes[i] == r.value
                          && r.value.verb == verb && r.value.path == path
                          && forall j :: 0 <= j < i ==> routes[j].verb != verb || routes[j].path != path
  {
    if routes == [] then None
    else if routes[0].verb == verb && routes[0].path == path then Some(routes[0])
    else
      var rest := MatchRoute(routes[1..], verb, path);
      assert rest.Some? ==> exists i :: 1 <= i < |routes| && routes[i] == rest.value
                              && forall j :: 1 <= j < i ==> routes[j].verb != verb || routes[j].path != path by {
        if rest.Some? {
          var i :| 0 <= i < |routes[1..]| && routes[1..][i] == rest.value
                   && forall j :: 0 <= j < i ==> routes[1..][j].verb != verb || routes[1..][j].path != path;
          assert routes[i + 1] == rest.value;
          assert forall j :: 1 <= j < i + 1 ==> routes[j] == routes[1..][j - 1];
        }
      }
      rest
  }

  /** What a request carries past L1. The caller is empty when there is none. */
  datatype Passed = Passed(caller: string, route: Route)

  function Guarded(cfg: Config, h: Http, cid: string): Result<Passed, Outcome> {
    var peer := PeerIdentity(cfg, h);
    if cfg.profile == EAST_WEST && peer.None? then Err(Refusal(DropL0, "l0_no_peer_svid", cid))
    else if cfg.profile == EAST_WEST && cfg.attest(peer.value) != Ok(true)
    then Err(Refusal(DropL0, "l0_peer_not_attested", cid))
    else match MatchRoute(cfg.routes, h.verb, h.path)
      case None => Err(Refusal(DenyRoute, "l1_route_not_permitted", cid))
      case Some(route) => Ok(Passed(if peer.Some? then peer.value else "", route))
  }

  // ----- Building the request -----

  /** Exactly the body restricted to the configured keys. */
  function Lifted(body: map<string, Json>, keys: seq<string>): map<string, Json> {
    map k | k in keys && k in body :: body[k]
  }

  /** Without configured keys the body is not even read. A JSON `null` body decodes to no fields. */
  function PropertiesFor(body: Body, keys: seq<string>): Result<GoMap, ()> {
    if keys == [] then Ok(Props(map[]))
    else match body
      case Unreadable => Err(())
      case Readable(Empty) => Ok(Props(map[]))
      case Readable(Malformed) => Err(())
      case Readable(Document(Obj(fields))) => Ok(Props(Lifted(fields, keys)))
      case Readable(Document(Null)) => Ok(Props(map[]))
      case Readable(Document(_)) => Err(())
  }

  function SubjectProperties(cfg: Config, h: Http, caller: string): map<string, Json> {
    map["auth_assurance_level" := Str(h.headers.aal)]
    + if cfg.profile == EAST_WEST && caller != ""
      then map["act" := Obj(map["type" := Str("workload"), "id" := Str(caller)])] else map[]
  }

  function ContextFor(cfg: Config, h: Http, cid: string): map<string, Json> {
    map["authz_profile" := Str(cfg.profile), "correlation_id" := Str(cid), "pep" := Obj(map["id" := Str(cfg.pepId)])]
    + (if cfg.profile == EDGE then map["source_ip" := Str(h.clientIp)]
       else if cfg.profile == PARTNER then map["partner_id" := Str(h.headers.partnerId)] else map[])
  }

  function RequestFor(cfg: Config, h: Http, cid: string, p: Passed): Result<Request, ()> {
    match PropertiesFor(h.body, p.route.resourceProps)
    case Err(_) => Err(())
    case Ok(props) =>
      Ok(Request(
           Subject("user", h.headers.subjectId, Props(SubjectProperties(cfg, h, p.caller))),
           Action(p.route.action, Props(map["method" := Str(h.verb)])),
           Resource(p.route.resourceType, h.headers.resourceId, props),
           Props(ContextFor(cfg, h, cid))))
  }

  // ----- L2 -----

  /** A token is honoured only for the identical tuple, at a level at least as strong as the token's. */
  predicate Binds(prims: Token.Primitives, c: Token.Claims, r: Request) {
    && c.subject == r.subject.id
    && c.action == r.action.name
    && c.resource == r.resource.kind + "/" + r.resource.id
    && c.resDigest == Token.ResourceDigest(prims, r.resource.properties)
    && Policy.AalRank(r.subject.Aal()) >= Policy.AalRank(c.aal)
  }

  predicate FastPath(cfg: Config, now: int, h: Http, r: Request) {
    && cfg.verifier.Some?
    && h.headers.decisionToken != ""
    && var claims := Token.Verify(cfg.prims, cfg.verifier.value, now, h.headers.decisionToken);
       claims.Ok? && Binds(cfg.prims, claims.value, r)
  }

  function Reused(h: Http, cid: string): Outcome {
    Outcome(Allow, "decision_token_reuse", "", cid, h.headers.decisionToken)
  }

  /** The first step-up obligation, if any. */
  function FirstStepUp(obligations: seq<Obligation>): (ob: Option<Obligation>)
    ensures ob.None? ==> forall i :: 0 <= i < |obligations| ==> obligations[i].kind != STEP_UP
    ensures ob.Some? ==> ob.value.kind == STEP_UP && ob.value in obligations
  {
    if obligations == [] then None
    else if obligations[0].kind == STEP_UP then Some(obligations[0])
    else FirstStepUp(obligations[1..])
  }

  function Classify(resp: Response, cid: string): Outcome {
    var rc := if resp.context.Some? then resp.context.value else ResponseContext(None, [], "");
    if resp.decision then
      Outcome(Allow, rc.reasonCode, "", cid, if rc.token.Some? then rc.token.value.value else "")
    else match FirstStepUp(rc.obligations)
      case Some(ob) => Outcome(DenyStepUp, rc.reasonCode, ob.details.GetString("required_acr"), cid, "")
      case None => Refusal(DenyForbidden, if rc.reasonCode != "" then rc.reasonCode else "forbidden", cid)
  }

  function Answered(reply: Result<Response, ()>, cid: string): Outcome {
    match reply
    case Err(_) => Refusal(DenyForbidden, "l2_pdp_unavailable", cid)
    case Ok(resp) => Classify(resp, cid)
  }

  // ----- The whole ladder -----

  type Decider = Request -> Result<Response, ()>

  /** How far a request gets before the PDP: a final outcome, or the request the PDP is asked about. */
  function BeforePdp(cfg: Config, h: Http, cid: string, revoked: set<string>, now: int): Result<Request, Outcome> {
    match Guarded(cfg, h, cid)
    case Err(out) => Err(out)
    case Ok(p) =>
      if h.headers.subjectId != "" && h.headers.subjectId in revoked
      then Err(Refusal(DenyForbidden, "session_revoked", cid))
      else match RequestFor(cfg, h, cid, p)
        case Err(_) => Err(Refusal(DenyForbidden, "l2_request_build_failed", cid))
        case Ok(r) => if FastPath(cfg, now, h, r) then Err(Reused(h, cid)) else Ok(r)
  }

  function Checked(cfg: Config, h: Http, cid: string, revoked: set<string>, now: int, pdp: Decider): Outcome {
    match BeforePdp(cfg, h, cid, revoked, now)
    case Err(out) => out
    case Ok(r) => Answered(pdp(r), cid)
  }

  /** The caller's own, and a new one only for a request that has none. */
  function CorrelationIdOf(h: Http, newCid: string): (cid: string)
    ensures cid in {h.headers.correlationId, newCid} && (cid == "" ==> newCid == "")
    ensures h.headers.correlationId != "" ==> cid == h.headers.correlationId
  {
    if h.headers.correlationId == "" then newCid else h.headers.correlationId
  }

  class HttpRequest {
    const verb: string
    const path: string
    const headers: Headers
    const peer: Option<string>
    const clientIp: string
    var body: Body

    constructor (h: Http)
      ensures Snapshot() == h
    {
      verb, path, headers, peer, clientIp, body := h.verb, h.path, h.headers, h.peer, h.clientIp, h.body;
    }

    function Snapshot(): Http
      reads this
    {
      Http(verb, path, headers, peer, clientIp, body)
    }

    /** `io.ReadAll`: a readable body is drained. */
    method ReadAll() returns (text: Option<Content>)
      modifies this
      ensures old(body).Unreadable? ==> text == None && body == old(body)
      ensures old(body).Readable? ==> text == Some(old(body).text) && body == Readable(Empty)
    {
      if body.Unreadable? {
        return None;
      }
      text := Some(body.text);
      body := Readable(Empty);
    }
  }

  /** A PDP client that remembers what it was asked. */
  class PdpClient {
    const decide: Decider
    var asked: seq<Request>

    constructor (decide: Decider)
      ensures this.decide == decide && asked == []
    {
      this.decide, asked := decide, [];
    }

    method Evaluate(r: Request) returns (reply: Result<Response, ()>)
      modifies this
      ensures reply == decide(r) && asked == old(asked) + [r]
    {
      asked := asked + [r];
      reply := decide(r);
    }
  }

  class Enforcer {
    const cfg: Config
    const pdp: PdpClient
    const revocations: Caep.RevocationCache?

    constructor (cfg: Config, pdp: PdpClient, revocations: Caep.RevocationCache?)
      ensures this.cfg == cfg && this.pdp == pdp && this.revocations == revocations
    {
      this.cfg, this.pdp, this.revocations := cfg, pdp, revocations;
    }

    ghost function Revoked(): set<string>
      reads revocations
    {
      if revocations == null then {} else revocations.Contents()
    }

    /** Lifts the configured fields and puts the body back for the protected handler. */
    method ResourceProps(r: HttpRequest, route: Route) returns (props: Result<GoMap, ()>)
      modifies r
      ensures props == PropertiesFor(old(r.body), route.resourceProps)
      ensures props.Err? <==>
              route.resourceProps != [] && (var body := old(r.body);
                body.Unreadable? || body.text.Malformed?
                || (body.text.Document? && !body.text.v.Obj? && !body.text.v.Null?))
      ensures props.Ok? ==> props.value.Props? && var body := old(r.body);
              forall k :: props.value.Get(k) ==
                if body.Readable? && body.text.Document? && k in route.resourceProps
                then Member(Some(body.text.v), k) else None
      ensures r.body == old(r.body)
    {
      if |route.resourceProps| == 0 {
        return Ok(Props(map[]));
      }
      var raw := r.ReadAll();
      if raw.None? {
        return Err(());
      }
      r.body := Readable(raw.value);
      var lifted: map<string, Json> := map[];
      if raw.value != Empty {
        if raw.value.Malformed? || !(raw.value.v.Obj? || raw.value.v.Null?) {
          return Err(());
        }
        var body := if raw.value.v.Obj? then raw.value.v.fields else map[];
        var keys := route.resourceProps;
        for i := 0 to |keys|
          invariant lifted == Lifted(body, keys[..i])
        {
          assert keys[..i + 1] == keys[..i] + [keys[i]];
          if keys[i] in body {
            lifted := lifted[keys[i] := body[keys[i]]];
          }
        }
        assert keys[..|keys|] == keys;
      }
      props := Ok(Props(lifted));
    }

    method BuildRequest(r: HttpRequest, p: Passed, cid: string) returns (req: Result<Request, ()>)
      modifies r
      ensures req == RequestFor(cfg, old(r.Snapshot()), cid, p)
      ensures r.body == old(r.body)
    {
      var props := ResourceProps(r, p.route);
      if props.Err? {
        return Err(());
      }
      var properties := map["auth_assurance_level" := Str(r.headers.aal)];
      if cfg.profile == EAST_WEST && p.caller != "" {
        properties := properties["act" := Obj(map["type" := Str("workload"), "id" := Str(p.caller)])];
      }
      var ctx := map["authz_profile" := Str(cfg.profile), "correlation_id" := Str(cid),
                     "pep" := Obj(map["id" := Str(cfg.pepId)])];
      if cfg.profile == EDGE {
        ctx := ctx["source_ip" := Str(r.clientIp)];
      } else if cfg.profile == PARTNER {
        ctx := ctx["partner_id" := Str(r.headers.partnerId)];
      }
      assert properties == SubjectProperties(cfg, r.Snapshot(), p.caller) && ctx == ContextFor(cfg, r.Snapshot(), cid);
      req := Ok(Request(
                  Subject("user", r.headers.subjectId, Props(properties)),
                  Action(p.route.action, Props(map["method" := Str(r.verb)])),
                  Resource(p.route.resourceType, r.headers.resourceId, props.value),
                  Props(ctx)));
    }

    /** L0 and L1. */
    method Admit(r: HttpRequest, cid: string) returns (passed: Result<Passed, Outcome>)
      ensures passed == Guarded(cfg, r.Snapshot(), cid)
    {
      var peer := PeerIdentity(cfg, r.Snapshot());
      if cfg.profile == EAST_WEST {
        if peer.None? {
          return Err(Refusal(DropL0, "l0_no_peer_svid", cid));
        }
        var attested := cfg.attest(peer.value);
        if attested != Ok(true) {
          return Err(Refusal(DropL0, "l0_peer_not_attested", cid));
        }
      }
      var route := MatchRoute(cfg.routes, r.verb, r.path);
      if route.None? {
        return Err(Refusal(DenyRoute, "l1_route_not_permitted", cid));
      }
      passed := Ok(Passed(if peer.Some? then peer.value else "", route.value));
    }

    /** Any mismatch, an expired token included, leaves the decision to the PDP. */
    method TryDecisionToken(r: HttpRequest, req: Request, cid: string, now: int) returns (out: Option<Outcome>)
      ensures out == if FastPath(cfg, now, r.Snapshot(), req) then Some(Reused(r.Snapshot(), cid)) else None
    {
      if cfg.verifier.None? {
        return None;
      }
      var raw := r.headers.decisionToken;
      if raw == "" {
        return None;
      }
      var claims := Token.Verify(cfg.prims, cfg.verifier.value, now, raw);
      if claims.Err? {
        return None;
      }
      var c := claims.value;
      if c.subject != req.subject.id || c.action != req.action.name
         || c.resource != req.resource.kind + "/" + req.resource.id
         || c.resDigest != Token.ResourceDigest(cfg.prims, req.resource.properties) {
        return None;
      }
      if Policy.AalRank(req.subject.Aal()) < Policy.AalRank(c.aal) {
        return None;
      }
      out := Some(Outcome(Allow, "decision_token_reuse", "", cid, raw));
    }

    /** One request through the ladder. The PDP is asked once when everything before it passed without an answer, and
        otherwise not at all; the body is left as it was. */
    method Check(r: HttpRequest, now: int, newCid: string) returns (out: Outcome)
      requires revocations != null ==> revocations.Valid()
      modifies r, pdp
      ensures var cid := CorrelationIdOf(old(r.Snapshot()), newCid);
              var before := BeforePdp(cfg, old(r.Snapshot()), cid, old(Revoked()), now);
              && out == Checked(cfg, old(r.Snapshot()), cid, old(Revoked()), now, pdp.decide)
              && pdp.asked == old(pdp.asked) + (if before.Ok? then [before.value] else [])
      ensures r.body == old(r.body)
    {
      var cid := if r.headers.correlationId == "" then newCid else r.headers.correlationId;
      var passed := Admit(r, cid);
      if passed.Err? {
        return passed.error;
      }
      if revocations != null && r.headers.subjectId != "" {
        var revoked := revocations.IsRevoked(r.headers.subjectId);
        if revoked {
          return Refusal(DenyForbidden, "session_revoked", cid);
        }
      }
      var req := BuildRequest(r, passed.value, cid);
      if req.Err? {
        return Refusal(DenyForbidden, "l2_request_build_failed", cid);
      }
      var reused := TryDecisionToken(r, req.value, cid, now);
      if reused.Some? {
        return reused.value;
      }
      var reply := pdp.Evaluate(req.value);
      out := Answered(reply, cid);
    }
  }
}
