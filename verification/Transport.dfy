/** The two wire forms between a PEP and the PDP. Property maps travel as JSON objects that are left out when empty,
    or as protobuf structs that are nil when empty; they come back nil in the first case and empty in the second. */
module Transport {
  import opened Values
  import opened Contract
  import Pdp

  // ----- Protobuf messages -----

  type Struct = Option<map<string, Json>>

  datatype SubjectMsg = SubjectMsg(kind: string, id: string, properties: Struct)
  datatype ActionMsg = ActionMsg(name: string, properties: Struct)
  datatype ResourceMsg = ResourceMsg(kind: string, id: string, properties: Struct)
  datatype RequestMsg = RequestMsg(
    subject: Option<SubjectMsg>, action: Option<ActionMsg>, resource: Option<ResourceMsg>, context: Struct)

  datatype TokenMsg = TokenMsg(value: string, ttlSeconds: int)
  datatype ObligationMsg = ObligationMsg(kind: string, details: Struct)
  datatype ResponseMsg = ResponseMsg(
    decision: bool, token: Option<TokenMsg>, obligations: seq<ObligationMsg>, reasonCode: string)

  function MapToStruct(m: GoMap): Struct {
    if m.IsEmpty() then None else Some(m.Entries())
  }

  /** `AsMap` of a nil struct is an empty map, never a nil one. */
  function AsMap(s: Struct): GoMap {
    if s.None? then Props(map[]) else Props(s.value)
  }

  function RequestToProto(r: Request): RequestMsg {
    RequestMsg(
      Some(SubjectMsg(r.subject.kind, r.subject.id, MapToStruct(r.subject.properties))),
      Some(ActionMsg(r.action.name, MapToStruct(r.action.properties))),
      Some(ResourceMsg(r.resource.kind, r.resource.id, MapToStruct(r.resource.properties))),
      MapToStruct(r.context))
  }

  method RequestFromProto(p: RequestMsg) returns (r: Request)
    ensures r == DecodedRequest(p)
    ensures p.subject.Some? ==> r.subject.kind == p.subject.value.kind && r.subject.id == p.subject.value.id
                                && r.subject.properties == AsMap(p.subject.value.properties)
    ensures p.action.Some? ==> r.action.name == p.action.value.name
                               && r.action.properties == AsMap(p.action.value.properties)
    ensures p.resource.Some? ==> r.resource.kind == p.resource.value.kind && r.resource.id == p.resource.value.id
                                 && r.resource.properties == AsMap(p.resource.value.properties)
    ensures r.context == AsMap(p.context)
  {
    r := Request(Subject("", "", NilMap), Action("", NilMap), Resource("", "", NilMap), NilMap);
    if p.subject.Some? {
      var s := p.subject.value;
      r := r.(subject := Subject(s.kind, s.id, AsMap(s.properties)));
    }
    if p.action.Some? {
      r := r.(action := Action(p.action.value.name, AsMap(p.action.value.properties)));
    }
    if p.resource.Some? {
      var res := p.resource.value;
      r := r.(resource := Resource(res.kind, res.id, AsMap(res.properties)));
    }
    r := r.(context := AsMap(p.context));
  }

  function DecodedRequest(p: RequestMsg): Request {
    Request(
      match p.subject case Some(s) => Subject(s.kind, s.id, AsMap(s.properties)) case None => Subject("", "", NilMap),
      match p.action case Some(a) => Action(a.name, AsMap(a.properties)) case None => Action("", NilMap),
      match p.resource
      case Some(r) => Resource(r.kind, r.id, AsMap(r.properties))
      case None => Resource("", "", NilMap),
      AsMap(p.context))
  }

  /** Go's `int32(n)`. */
  function Int32(n: int): int {
    (n + 0x8000_0000) % 0x1_0000_0000 - 0x8000_0000
  }

  function ObligationToProto(ob: Obligation): ObligationMsg {
    ObligationMsg(ob.kind, MapToStruct(ob.details))
  }

  function ObligationFromProto(ob: ObligationMsg): Obligation {
    Obligation(ob.kind, AsMap(ob.details))
  }

  function EncodedResponse(resp: Response): ResponseMsg {
    match resp.context
    case None => ResponseMsg(resp.decision, None, [], "")
    case Some(c) =>
      ResponseMsg(
        resp.decision,
        match c.token case None => None case Some(t) => Some(TokenMsg(t.value, Int32(t.ttlSeconds))),
        seq(|c.obligations|, i requires 0 <= i < |c.obligations| => ObligationToProto(c.obligations[i])),
        c.reasonCode)
  }

  function DecodedResponse(p: ResponseMsg): Response {
    Response(p.decision, Some(ResponseContext(
      match p.token case None => None case Some(t) => Some(DecisionToken(t.value, t.ttlSeconds)),
      seq(|p.obligations|, i requires 0 <= i < |p.obligations| => ObligationFromProto(p.obligations[i])),
      p.reasonCode)))
  }

  method ResponseToProto(resp: Response) returns (out: ResponseMsg)
    ensures out == EncodedResponse(resp)
  {
    out := ResponseMsg(resp.decision, None, [], "");
    if resp.context.None? {
      return;
    }
    var c := resp.context.value;
    out := out.(reasonCode := c.reasonCode);
    if c.token.Some? {
      out := out.(token := Some(TokenMsg(c.token.value.value, Int32(c.token.value.ttlSeconds))));
    }
    ghost var head := out;
    for i := 0 to |c.obligations|
      invariant |out.obligations| == i && out == head.(obligations := out.obligations)
      invariant forall k :: 0 <= k < i ==> out.obligations[k] == ObligationToProto(c.obligations[k])
    {
      out := out.(obligations := out.obligations + [ObligationToProto(c.obligations[i])]);
    }
  }

  method ResponseFromProto(p: ResponseMsg) returns (resp: Response)
    ensures resp == DecodedResponse(p)
    ensures resp.decision == p.decision && resp.context.Some? && resp.context.value.reasonCode == p.reasonCode
    ensures |resp.context.value.obligations| == |p.obligations|
    ensures forall i :: 0 <= i < |p.obligations| ==>
              && resp.context.value.obligations[i].kind == p.obligations[i].kind
              && resp.context.value.obligations[i].details == AsMap(p.obligations[i].details)
    ensures resp.context.value.token.Some? <==> p.token.Some?
    ensures p.token.Some? ==> && resp.context.value.token.value.value == p.token.value.value
                              && resp.context.value.token.value.ttlSeconds == p.token.value.ttlSeconds
  {
    var rc := ResponseContext(None, [], p.reasonCode);
    if p.token.Some? {
      rc := rc.(token := Some(DecisionToken(p.token.value.value, p.token.value.ttlSeconds)));
    }
    ghost var head := rc;
    for i := 0 to |p.obligations|
      invariant |rc.obligations| == i && rc == head.(obligations := rc.obligations)
      invariant forall k :: 0 <= k < i ==> rc.obligations[k] == ObligationFromProto(p.obligations[k])
    {
      rc := rc.(obligations := rc.obligations + [ObligationFromProto(p.obligations[i])]);
    }
    assert rc.obligations == DecodedResponse(p).context.value.obligations;
    resp := Response(p.decision, Some(rc));
  }

  // ----- JSON -----

  /** An `omitempty` map that was left out is decoded as nil. */
  function JsonMap(m: GoMap): GoMap {
    if m.IsEmpty() then NilMap else Props(m.Entries())
  }

  function JsonRequest(r: Request): Request {
    Request(
      r.subject.(properties := JsonMap(r.subject.properties)),
      r.action.(properties := JsonMap(r.action.properties)),
      r.resource.(properties := JsonMap(r.resource.properties)),
      JsonMap(r.context))
  }

  function JsonObligation(ob: Obligation): Obligation {
    ob.(details := JsonMap(ob.details))
  }

  /** A nil context stays nil; one that is present stays present, even when all its members were left out. */
  function JsonResponse(resp: Response): Response {
    match resp.context
    case None => resp
    case Some(c) =>
      resp.(context := Some(c.(obligations :=
        seq(|c.obligations|, i requires 0 <= i < |c.obligations| => JsonObligation(c.obligations[i])))))
  }

  // ----- Either way -----

  datatype Wire = InProcess | JsonHttp | Grpc

  /** The request as the PDP receives it. */
  function Received(w: Wire, r: Request): Request {
    match w
    case InProcess => r
    case JsonHttp => JsonRequest(r)
    case Grpc => DecodedRequest(RequestToProto(r))
  }

  /** The response as the PEP receives it. */
  function Returned(w: Wire, resp: Response): Response {
    match w
    case InProcess => resp
    case JsonHttp => JsonResponse(resp)
    case Grpc => DecodedResponse(EncodedResponse(resp))
  }

  /** One evaluation through a wire. Every error, whatever its status code, reaches the PEP as just an error. */
  function Remote(w: Wire, svc: Pdp.Service, now: int, r: Request): Result<Response, ()> {
    match Pdp.Evaluate(svc, now, Received(w, r))
    case Ok(resp) => Ok(Returned(w, resp))
    case Err(_) => Err(())
  }

  predicate SameEntries(a: Request, b: Request) {
    && a.subject.kind == b.subject.kind && a.subject.id == b.subject.id && a.action.name == b.action.name
    && a.resource.kind == b.resource.kind && a.resource.id == b.resource.id
    && a.subject.properties.Entries() == b.subject.properties.Entries()
    && a.action.properties.Entries() == b.action.properties.Entries()
    && a.resource.properties.Entries() == b.resource.properties.Entries()
    && a.context.Entries() == b.context.Entries()
  }

  /** A request arrives with all its entries: only nil and empty maps are confused, toward nil over JSON and toward
      empty over protobuf. */
  lemma RequestArrives(w: Wire, r: Request)
    ensures SameEntries(Received(w, r), r)
    ensures Received(w, r) == MapsCarried(r, (m: GoMap) => Carried(w, m))
  {}

  /** What becomes of one map on the way. */
  function Carried(w: Wire, m: GoMap): GoMap {
    match w
    case InProcess => m
    case JsonHttp => if m.Entries() == map[] then NilMap else Props(m.Entries())
    case Grpc => Props(m.Entries())
  }

  function MapsCarried(r: Request, carry: GoMap -> GoMap): Request {
    Request(
      r.subject.(properties := carry(r.subject.properties)), r.action.(properties := carry(r.action.properties)),
      r.resource.(properties := carry(r.resource.properties)), carry(r.context))
  }

  /** A response comes back with its decision, reason, obligation entries and token; only a nil context and nil details
      may come back empty, and the token's lifetime field survives protobuf exactly when it fits 32 bits. */
  lemma ResponseArrives(w: Wire, resp: Response)
    ensures Returned(w, resp).decision == resp.decision
    ensures resp.context.None? ==>
              Returned(w, resp).context == if w.Grpc? then Some(ResponseContext(None, [], "")) else None
    ensures resp.context.Some? ==>
              var (a, b) := (Returned(w, resp).context, resp.context.value);
              && a.Some? && a.value.reasonCode == b.reasonCode && |a.value.obligations| == |b.obligations|
              && (forall i :: 0 <= i < |b.obligations| ==>
                    && a.value.obligations[i].kind == b.obligations[i].kind
                    && a.value.obligations[i].details.Entries() == b.obligations[i].details.Entries())
              && (a.value.token.Some? <==> b.token.Some?)
              && (b.token.Some? ==>
                    && a.value.token.value.value == b.token.value.value
                    && (a.value.token == b.token <==>
                        w.Grpc? ==> -0x8000_0000 <= b.token.value.ttlSeconds < 0x8000_0000))
  {}

  /** So the policy sees the same input and the contract check gives the same issues on every wire. */
  lemma SameInputOnEveryWire(w: Wire, r: Request)
    ensures Pdp.ToInput(Received(w, r)) == Pdp.ToInput(r)
    ensures IssuesOf(Received(w, r)) == IssuesOf(r) && ContractValid(Received(w, r)) == ContractValid(r)
    ensures Received(w, r).subject.Aal() == r.subject.Aal()
    ensures Received(w, r).CorrelationId() == r.CorrelationId()
  {
    RequestArrives(w, r);
    InputDependsOnEntries(Received(w, r), r);
  }

  lemma InputDependsOnEntries(a: Request, b: Request)
    requires SameEntries(a, b)
    ensures Pdp.ToInput(a) == Pdp.ToInput(b)
  {
    assert Pdp.SubjectJson(a.subject) == Pdp.SubjectJson(b.subject);
    assert Pdp.ActionJson(a.action) == Pdp.ActionJson(b.action);
    assert Pdp.ResourceJson(a.resource) == Pdp.ResourceJson(b.resource);
  }

  /** The PDP's answer differs between wires in the token alone, and the token only through the digest of empty
      properties. */
  lemma AnswerOnEveryWire(w: Wire, svc: Pdp.Service, now: int, r: Request)
    ensures var a, b := Pdp.Evaluate(svc, now, Received(w, r)), Pdp.Evaluate(svc, now, r);
            && (a.Ok? <==> b.Ok?)
            && (a.Err? ==> a == b)
            && (a.Ok? ==> a.value.decision == b.value.decision
                          && a.value.context.value.obligations == b.value.context.value.obligations
                          && a.value.context.value.reasonCode == b.value.context.value.reasonCode)
            && (Received(w, r).resource.properties == r.resource.properties ==> a == b)
  {
    SameInputOnEveryWire(w, r);
  }

  /** A PEP hears an allow exactly when the PDP would allow the request as the PEP built it. */
  lemma RemoteAllowsIff(w: Wire, svc: Pdp.Service, now: int, r: Request)
    ensures Remote(w, svc, now, r).Ok? && Remote(w, svc, now, r).value.decision <==> Pdp.Allows(svc, now, r)
    ensures Pdp.Allows(svc, now, Received(w, r)) <==> Pdp.Allows(svc, now, r)
  {
    AnswerOnEveryWire(w, svc, now, r);
  }
}
