/** From outcome to HTTP: each sidecar's response, the edge's translation of a bubbled-up step-up, and whole chains. */
module BubbleUp {
  import opened Values
  import opened Contract
  import opened Pep

  const CORRELATION := "X-Correlation-Id"
  const STEP_UP_REQUIRED := "X-Step-Up-Required"
  const DECISION_TOKEN := "X-Decision-Token"
  const CONTENT_TYPE := "Content-Type"

  datatype Payload =
    | Workload(text: string)
    | Challenge(acr: string)
    | StepUpRefusal(acr: string)
    | Refused(reason: string)

  /** A response; a header that is absent reads as the empty string. */
  datatype Reply = Reply(status: int, headers: map<string, string>, body: Payload) {
    function Get(name: string): string {
      if name in headers then headers[name] else ""
    }
  }

  /** The headers the protected handler sees. */
  function PassedOn(h: Headers, out: Outcome): Headers {
    h.(correlationId := out.correlationId,
       decisionToken := if out.token != "" then out.token else h.decisionToken)
  }

  function OwnHeaders(out: Outcome): map<string, string> {
    var base := map[CORRELATION := out.correlationId];
    if out.kind == Allow && out.token != "" then base[DECISION_TOKEN := out.token] else base
  }

  /** What a protected handler answers, given the response headers that are already set. It may override them; a
      reverse proxy adds its upstream's after them instead, so that the first value, the one set before, is read. */
  type Handler = map<string, string> -> Reply

  function Proxied(upstream: Reply): Handler {
    (own: map<string, string>) => upstream.(headers := upstream.headers + own)
  }

  /** What a PEP answers for an outcome, in front of a protected handler. Only the edge challenges. */
  function Enforced(profile: string, out: Outcome, handler: Handler): Reply {
    match out.kind
    case Allow => handler(OwnHeaders(out))
    case DenyStepUp =>
      var headers := OwnHeaders(out)[STEP_UP_REQUIRED := out.requiredAcr][CONTENT_TYPE := "application/json"];
      if profile == EDGE then Reply(401, headers, Challenge(out.requiredAcr))
      else Reply(403, headers, StepUpRefusal(out.requiredAcr))
    case _ => Reply(403, OwnHeaders(out)[CONTENT_TYPE := "application/json"], Refused(out.reasonCode))
  }

  /** The edge proxy's rewriting of an upstream response. */
  function Translated(resp: Reply): Reply {
    var acr := resp.Get(STEP_UP_REQUIRED);
    if acr == "" then resp
    else Reply(401, resp.headers[CONTENT_TYPE := "application/json"], Challenge(acr))
  }

  /** One exchange at a PEP: the request headers it may still set and the response it writes. */
  class Exchange {
    var request: Headers
    var status: int
    var headers: map<string, string>
    var body: Payload

    constructor (request: Headers)
      ensures this.request == request && headers == map[]
    {
      this.request, status, headers, body := request, 200, map[], Workload("");
    }

    function AsReply(): Reply
      reads this
    {
      Reply(status, headers, body)
    }

    method WriteJson(status: int, body: Payload)
      modifies this
      ensures AsReply() == Reply(status, old(headers)[CONTENT_TYPE := "application/json"], body)
      ensures request == old(request)
    {
      headers := headers[CONTENT_TYPE := "application/json"];
      this.status, this.body := status, body;
    }

    method Middleware(profile: string, out: Outcome, next: Headers -> Handler)
      requires headers == map[]
      modifies this
      ensures AsReply() == Enforced(profile, out, next(PassedOn(old(request), out)))
      ensures request == if out.kind == Allow then PassedOn(old(request), out) else old(request)
      ensures out.kind == Allow ==>
                && request.correlationId == out.correlationId
                && request.decisionToken == (if out.token != "" then out.token else old(request).decisionToken)
                && AsReply() == next(request)(
                     if out.token == "" then map["X-Correlation-Id" := out.correlationId]
                     else map["X-Correlation-Id" := out.correlationId, "X-Decision-Token" := out.token])
      ensures out.kind != Allow ==>
                && status == (if out.kind == DenyStepUp && profile == "edge" then 401 else 403)
                && body == (if out.kind != DenyStepUp then Refused(out.reasonCode)
                            else if profile == "edge" then Challenge(out.requiredAcr)
                            else StepUpRefusal(out.requiredAcr))
                && headers == map["X-Correlation-Id" := out.correlationId, "Content-Type" := "application/json"]
                              + if out.kind == DenyStepUp then map["X-Step-Up-Required" := out.requiredAcr] else map[]
    {
      HeaderNamesDiffer();
      headers := headers[CORRELATION := out.correlationId];
      match out.kind {
        case Allow =>
          request := request.(correlationId := out.correlationId);
          if out.token != "" {
            request := request.(decisionToken := out.token);
            headers := headers[DECISION_TOKEN := out.token];
          }
          var served := next(request)(headers);
          status, headers, body := served.status, served.headers, served.body;
        case DenyStepUp =>
          headers := headers[STEP_UP_REQUIRED := out.requiredAcr];
          if profile == EDGE {
            WriteJson(401, Challenge(out.requiredAcr));
          } else {
            WriteJson(403, StepUpRefusal(out.requiredAcr));
          }
        case DropL0 => WriteJson(403, Refused(out.reasonCode));
        case DenyRoute => WriteJson(403, Refused(out.reasonCode));
        case DenyForbidden => WriteJson(403, Refused(out.reasonCode));
      }
    }

    /** The edge proxy's hook, on a response it is about to copy. */
    method ModifyResponse()
      modifies this
      ensures AsReply() == Translated(old(AsReply()))
      ensures var acr := old(AsReply()).Get("X-Step-Up-Required");
              if acr == "" then AsReply() == old(AsReply())
              else status == 401 && body == Challenge(acr)
                   && headers == old(headers)["Content-Type" := "application/json"]
    {
      var acr := AsReply().Get(STEP_UP_REQUIRED);
      if acr == "" {
        return;
      }
      status, body := 401, Challenge(acr);
      headers := headers[CONTENT_TYPE := "application/json"];
    }
  }

  // ----- Chains -----

  /** A PEP with its outcome, and what its protected handler answers given the next hop's reply: a workload behind a
      sidecar, or one that embeds the PEP. */
  datatype Hop = Hop(profile: string, out: Outcome, handler: Reply -> Handler)

  /** A handler that relays a refusal's status and step-up header; anything else it may change. */
  ghost predicate Relays(handler: Reply -> Handler) {
    forall resp: Reply, own: map<string, string> :: resp.status == 403 && STEP_UP_REQUIRED !in own ==>
      handler(resp)(own).status == 403 && handler(resp)(own).Get(STEP_UP_REQUIRED) == resp.Get(STEP_UP_REQUIRED)
  }

  /** What the outermost of these PEPs answers; `leaf` is what the innermost handler would get from beyond. */
  function Surfaced(hops: seq<Hop>, leaf: Reply): Reply {
    if hops == [] then leaf
    else Enforced(hops[0].profile, hops[0].out, hops[0].handler(Surfaced(hops[1..], leaf)))
  }

  /** What the user sees: an edge sidecar in front of a workload that calls into the chain. */
  function AtEdge(out: Outcome, workload: Reply -> Handler, hops: seq<Hop>, leaf: Reply): Reply {
    Enforced(EDGE, out, Proxied(Translated(workload(Surfaced(hops, leaf))(map[]))))
  }

  /** The hop at depth k is the first to refuse, and no hop down to it is an edge. */
  ghost predicate FirstRefusal(hops: seq<Hop>, k: nat) {
    && k < |hops|
    && (forall i :: 0 <= i < k ==> hops[i].out.kind == Allow)
    && (forall i :: 0 <= i <= k ==> hops[i].profile != EDGE)
    && (forall i :: 0 <= i < k ==> Relays(hops[i].handler))
    && hops[k].out.kind != Allow
  }

  function AskedAcr(out: Outcome): string {
    if out.kind == DenyStepUp then out.requiredAcr else ""
  }

  lemma HeaderNamesDiffer()
    ensures STEP_UP_REQUIRED != CORRELATION && STEP_UP_REQUIRED != DECISION_TOKEN && STEP_UP_REQUIRED != CONTENT_TYPE
  {
    assert STEP_UP_REQUIRED[2] != CORRELATION[2] && STEP_UP_REQUIRED[2] != DECISION_TOKEN[2];
  }

  lemma OwnHeadersAskNothing(out: Outcome)
    ensures STEP_UP_REQUIRED !in OwnHeaders(out)
  {
    HeaderNamesDiffer();
  }

  /** Below the edge every refusal is a 403, with the step-up header exactly when a level is asked for. */
  lemma InnerRefusal(profile: string, out: Outcome, handler: Handler)
    requires out.kind != Allow && profile != EDGE
    ensures var seen := Enforced(profile, out, handler);
            Refusing(seen, AskedAcr(out))
  {
    HeaderNamesDiffer();
  }

  lemma TranslationKeepsAcr(resp: Reply)
    ensures Translated(resp).Get(STEP_UP_REQUIRED) == resp.Get(STEP_UP_REQUIRED)
  {
    HeaderNamesDiffer();
  }

  lemma RestRefuses(hops: seq<Hop>, k: nat)
    requires FirstRefusal(hops, k) && k > 0
    ensures FirstRefusal(hops[1..], k - 1) && hops[1..][k - 1] == hops[k]
    ensures hops[0].out.kind == Allow && Relays(hops[0].handler)
  {
    assert forall i :: 0 <= i < k ==> hops[1..][i] == hops[i + 1];
  }

  /** A refusal on its way up: 403, and the level in the header when one is asked for. */
  predicate Refusing(resp: Reply, acr: string) {
    resp.status == 403 && resp.Get(STEP_UP_REQUIRED) == acr
  }

  lemma PassesUp(hop: Hop, inner: Reply, acr: string)
    requires hop.out.kind == Allow && Relays(hop.handler) && Refusing(inner, acr)
    ensures Refusing(Enforced(hop.profile, hop.out, hop.handler(inner)), acr)
  {
    OwnHeadersAskNothing(hop.out);
  }

  lemma RefusesAtOnce(hop: Hop, hops: seq<Hop>, leaf: Reply)
    requires hops != [] && hop == hops[0] && hop.out.kind != Allow && hop.profile != EDGE
    ensures Refusing(Surfaced(hops, leaf), AskedAcr(hop.out))
  {
    InnerRefusal(hop.profile, hop.out, hop.handler(Surfaced(hops[1..], leaf)));
  }

  lemma {:induction false} RefusalSurfaces(hops: seq<Hop>, k: nat, leaf: Reply)
    requires FirstRefusal(hops, k)
    ensures Refusing(Surfaced(hops, leaf), AskedAcr(hops[k].out))
    decreases k
  {
    if k > 0 {
      RestRefuses(hops, k);
      RefusalSurfaces(hops[1..], k - 1, leaf);
      PassesUp(hops[0], Surfaced(hops[1..], leaf), AskedAcr(hops[k].out));
    } else {
      RefusesAtOnce(hops[0], hops, leaf);
    }
  }

  /** The outcome of the first PEP to refuse, the edge's own included. */
  function Refuser(out: Outcome, hops: seq<Hop>, k: nat): Outcome
    requires out.kind == Allow ==> k < |hops|
  {
    if out.kind == Allow then hops[k].out else out
  }

  /** The first refusal, at the edge or at any depth of a chain of any length, decides what the user sees. It is a 401
      challenge for the very level asked for exactly when it is a step-up that is the edge's own or names a level;
      otherwise, a step-up below the edge that names none included, it is a 403. */
  lemma RefusalReachesTheUser(out: Outcome, workload: Reply -> Handler, hops: seq<Hop>, k: nat, leaf: Reply)
    requires out.kind == Allow ==> Relays(workload) && FirstRefusal(hops, k)
    ensures var (seen, refusal) := (AtEdge(out, workload, hops, leaf), Refuser(out, hops, k));
            && seen.Get(STEP_UP_REQUIRED) == AskedAcr(refusal)
            && (seen.status == 401 <==> refusal.kind == DenyStepUp && (out.kind != Allow || refusal.requiredAcr != ""))
            && (seen.status == 401 ==> seen.body == Challenge(refusal.requiredAcr))
            && (seen.status != 401 ==> seen.status == 403)
  {
    HeaderNamesDiffer();
    if out.kind == Allow {
      RefusalSurfaces(hops, k, leaf);
      OwnHeadersAskNothing(out);
      TranslationKeepsAcr(workload(Surfaced(hops, leaf))(map[]));
    }
  }
}
