/** The policy decision point: validate, evaluate, mint a token on allow, assemble the response. */
module Pdp {
  import opened Values
  import opened Contract
  import Base64Url
  import Policy
  import Engine
  import Rego
  import Token

  datatype Service = Service(policy: Json -> Rego.Eval, issuer: Token.Issuer, prims: Token.Primitives)

  datatype PdpError = InvalidRequest(issues: seq<Issue>) | EngineFailed(e: Engine.EngineError)

  // ----- The engine's input -----

  /** A map marked `omitempty` is left out when it has no entries. */
  function Optional(key: string, m: GoMap): map<string, Json> {
    if m.IsEmpty() then map[] else map[key := Obj(m.Entries())]
  }

  function SubjectJson(s: Subject): map<string, Json> {
    map["type" := Str(s.kind), "id" := Str(s.id)] + Optional("properties", s.properties)
  }

  function ActionJson(a: Action): map<string, Json> {
    map["name" := Str(a.name)] + Optional("properties", a.properties)
  }

  function ResourceJson(r: Resource): map<string, Json> {
    map["type" := Str(r.kind)] + (if r.id == "" then map[] else map["id" := Str(r.id)])
    + Optional("properties", r.properties)
  }

  function ToInput(r: Request): Json {
    Obj(map["subject" := Obj(SubjectJson(r.subject)), "action" := Obj(ActionJson(r.action)),
            "resource" := Obj(ResourceJson(r.resource))]
        + Optional("context", r.context))
  }

  lemma InputSections(r: Request)
    ensures var i := Some(ToInput(r));
            && Member(i, "subject") == Some(Obj(SubjectJson(r.subject)))
            && Member(i, "action") == Some(Obj(ActionJson(r.action)))
            && Member(i, "resource") == Some(Obj(ResourceJson(r.resource)))
            && Member(i, "context") == (if r.context.IsEmpty() then None else Some(Obj(r.context.Entries())))
  {
    assert "subject" != "context" && "action" != "context" && "resource" != "context";
  }

  lemma SubjectView(s: Subject)
    ensures var v := Some(Obj(SubjectJson(s)));
            && Member(v, "type") == Some(Str(s.kind))
            && Member(v, "id") == Some(Str(s.id))
            && forall k :: Member(Member(v, "properties"), k) == s.properties.Get(k)
  {
    assert "type" != "properties" && "id" != "properties" && "type" != "id";
  }

  lemma ResourceView(r: Resource)
    ensures var v := Some(Obj(ResourceJson(r)));
            && Member(v, "type") == Some(Str(r.kind))
            && Member(v, "id") == (if r.id == "" then None else Some(Str(r.id)))
            && Member(v, "properties") == (if r.properties.IsEmpty() then None else Some(Obj(r.properties.Entries())))
  {
    assert "type" != "properties" && "id" != "properties" && "type" != "id";
  }

  /** What the policy can see of a request, path by path. */
  lemma InputView(r: Request)
    ensures var i := ToInput(r);
            && At2(i, "subject", "type") == Some(Str(r.subject.kind))
            && At2(i, "subject", "id") == Some(Str(r.subject.id))
            && At2(i, "action", "name") == Some(Str(r.action.name))
            && At2(i, "resource", "type") == Some(Str(r.resource.kind))
            && At2(i, "resource", "id") == (if r.resource.id == "" then None else Some(Str(r.resource.id)))
            && At2(i, "resource", "properties") ==
               (if r.resource.properties.IsEmpty() then None else Some(Obj(r.resource.properties.Entries())))
    ensures forall k :: At3(ToInput(r), "subject", "properties", k) == r.subject.properties.Get(k)
    ensures forall k :: At2(ToInput(r), "context", k) == r.context.Get(k)
    ensures forall k :: At3(ToInput(r), "action", "properties", k) == r.action.properties.Get(k)
  {
    InputSections(r);
    SubjectView(r.subject);
    ResourceView(r.resource);
    assert Member(Some(Obj(ActionJson(r.action))), "name") == Some(Str(r.action.name)) by {
      assert "name" != "properties";
    }
  }

  // ----- Obligations and assembly -----

  function ToObligation(m: map<string, Json>): Obligation {
    Obligation(Props(m).GetString("type"),
               match Props(m).Get("details") case Some(Obj(d)) => Props(d) case _ => NilMap)
  }

  function ToObligations(raw: seq<map<string, Json>>): (out: seq<Obligation>)
    ensures |out| == |raw|
    ensures forall i :: 0 <= i < |raw| ==> out[i] == ToObligation(raw[i])
  {
    seq(|raw|, i requires 0 <= i < |raw| => ToObligation(raw[i]))
  }

  method CollectObligations(raw: seq<map<string, Json>>) returns (out: seq<Obligation>)
    ensures out == ToObligations(raw)
    ensures |out| == |raw|
    ensures forall i :: 0 <= i < |raw| ==>
              var (kind, details) := (Member(Some(Obj(raw[i])), "type"), Member(Some(Obj(raw[i])), "details"));
              && out[i].kind == (if kind.Some? && kind.value.Str? then kind.value.s else "")
              && out[i].details == (if details.Some? && details.value.Obj? then Props(details.value.fields) else NilMap)
  {
    out := [];
    for i := 0 to |raw|
      invariant |out| == i
      invariant forall k :: 0 <= k < i ==> out[k] == ToObligation(raw[k])
    {
      var ob := Obligation("", NilMap);
      if "type" in raw[i] && raw[i]["type"].Str? {
        ob := ob.(kind := raw[i]["type"].s);
      }
      if "details" in raw[i] && raw[i]["details"].Obj? {
        ob := ob.(details := Props(raw[i]["details"].fields));
      }
      out := out + [ob];
    }
  }

  function ClaimsFor(p: Token.Primitives, r: Request): Token.Claims {
    Token.Claims(r.subject.id, r.action.name, r.resource.kind + "/" + r.resource.id, r.subject.Aal(),
                 Token.ResourceDigest(p, r.resource.properties), r.CorrelationId(), 0, 0)
  }

  function Minted(svc: Service, now: int, r: Request): string {
    Token.Issue(svc.prims, svc.issuer, now, ClaimsFor(svc.prims, r))
  }

  /** A minted token, as long as it lives, opens to exactly these claims: the tuple, its level, its correlation id, and
      the whole seconds of its minting and its expiry. */
  lemma MintedCarries(svc: Service, verifier: Token.Issuer, mintedAt: int, now: int, r: Request)
    requires svc.prims.Sound() && verifier.secret == svc.issuer.secret
    requires now / 1_000_000_000 < (mintedAt + svc.issuer.ttl) / 1_000_000_000
    ensures var c := Token.Verify(svc.prims, verifier, now, Minted(svc, mintedAt, r));
            && c.Ok?
            && c.value.subject == r.subject.id && c.value.action == r.action.name
            && c.value.resource == r.resource.kind + "/" + r.resource.id
            && c.value.aal == r.subject.properties.GetString("auth_assurance_level")
            && c.value.resDigest == Base64Url.Encode(svc.prims.sha256(svc.prims.encodeProps(r.resource.properties)))
            && c.value.correlationId == r.context.GetString("correlation_id")
            && c.value.issuedAt == mintedAt / 1_000_000_000
            && c.value.expiresAt == (mintedAt + svc.issuer.ttl) / 1_000_000_000
  {
    Token.VerifyIssued(svc.prims, svc.issuer, verifier, mintedAt, now, ClaimsFor(svc.prims, r));
  }

  function Assembled(svc: Service, now: int, r: Request, d: Engine.Decision): Response {
    var token := if d.allow then Some(DecisionToken(Minted(svc, now, r), Token.TtlSeconds(svc.issuer))) else None;
    Response(d.allow, Some(ResponseContext(token, ToObligations(d.obligations), d.reasonCode)))
  }

  method Assemble(svc: Service, now: int, r: Request, d: Engine.Decision) returns (resp: Response)
    ensures resp == Assembled(svc, now, r, d)
  {
    var obligations := CollectObligations(d.obligations);
    var rc := ResponseContext(None, obligations, d.reasonCode);
    if d.allow {
      rc := rc.(token := Some(DecisionToken(Minted(svc, now, r), Token.TtlSeconds(svc.issuer))));
    }
    resp := Response(d.allow, Some(rc));
  }

  function Evaluate(svc: Service, now: int, r: Request): Result<Response, PdpError> {
    if !ContractValid(r) then Err(InvalidRequest(IssuesOf(r)))
    else match Engine.Eval(svc.policy, ToInput(r))
      case Err(e) => Err(EngineFailed(e))
      case Ok(d) => Ok(Assembled(svc, now, r, d))
  }

  predicate Allows(svc: Service, now: int, r: Request) {
    Evaluate(svc, now, r).Ok? && Evaluate(svc, now, r).value.decision
  }

  /** A decision never depends on the clock, and a token is attached exactly when it allows. */
  lemma TokenIffAllow(svc: Service, now: int, later: int, r: Request)
    ensures Allows(svc, now, r) == Allows(svc, later, r)
    ensures Evaluate(svc, now, r).Ok? ==>
              var resp := Evaluate(svc, now, r).value;
              resp.context.Some? && (resp.context.value.token.Some? <==> resp.decision)
  {}

  /** What the PDP answers: an error exactly for an invalid request and for a policy without a decision document; and
      with an allow the token it mints then, whose lifetime is told in whole seconds. */
  lemma AnswerSays(svc: Service, now: int, r: Request)
    ensures Evaluate(svc, now, r).Err? <==>
            !ContractValid(r) || Engine.Eval(svc.policy, ToInput(r)).Err?
    ensures !ContractValid(r) ==> Evaluate(svc, now, r) == Err(InvalidRequest(IssuesOf(r)))
    ensures Evaluate(svc, now, r).Ok? && Evaluate(svc, now, r).value.decision ==>
              Evaluate(svc, now, r).value.context.value.token ==
              Some(DecisionToken(Minted(svc, now, r), Token.TtlSeconds(svc.issuer)))
  {}

  // ----- The service over the framework policy -----

  ghost predicate Framework(svc: Service, data: Json, domains: Policy.Domains) {
    forall input :: svc.policy(input) == Policy.Decision(data, domains, input)
  }

  /** The two validators agree: the front door accepts a request exactly when the policy's own schema gate finds
      nothing, the subject id is not empty (Rego accepts `""`) and the profile is known. */
  lemma FrontDoorAgreesWithSchemaGate(r: Request)
    ensures ContractValid(r) <==>
            Policy.SchemaViolations(ToInput(r)) == {} && r.subject.id != "" && KnownProfile(r.Profile())
  {
    InputView(r);
    var i := ToInput(r);
    var action, resource := At2(i, "action", "name"), At2(i, "resource", "type");
    assert Policy.SchemaViolations(i) == {} <==>
           && (r.subject.kind == "user" || r.subject.kind == "workload")
           && Policy.MatchesColonPair(action) && Policy.MatchesColonPair(resource)
           && Policy.FirstPart(action) == Policy.FirstPart(resource);
  }

  /** The value is an element of this array or a value of this object. */
  predicate Lists(listed: Option<Json>, a: Json) {
    && listed.Some?
    && ((listed.value.Arr? && a in listed.value.items) || (listed.value.Obj? && a in listed.value.fields.Values))
  }

  /** An attribute the request supplies with something other than false. */
  predicate Supplies(r: Request, attribute: Json) {
    && attribute.Str?
    && r.resource.properties.Get(attribute.s).Some?
    && r.resource.properties.Get(attribute.s) != Some(Bool(false))
  }

  /** Gate 2, from the data: clear exactly when every attribute listed for the action, as elements of an array or as
      values of an object, is supplied. Nothing is required of an action without an entry. */
  lemma Gate2Says(data: Json, r: Request)
    ensures var listed := At2(data, "required_attributes", r.action.name);
            Policy.MissingRequired(data, ToInput(r)) == {} <==> forall a :: Lists(listed, a) ==> Supplies(r, a)
  {
    InputView(r);
    var i := ToInput(r);
    Gate2Of(i, data, r.action.name, r.resource.properties.Entries());
    forall a
      ensures Supplies(r, a) <==>
              a.Str? && a.s in r.resource.properties.Entries() && r.resource.properties.Entries()[a.s] != Bool(false)
    {
    }
    RequiredSays(data, r.action.name);
  }

  lemma RequiredSays(data: Json, action: string)
    ensures forall a :: a in Policy.RequiredAttributes(data, Some(Str(action))) <==>
              Lists(At2(data, "required_attributes", action), a)
  {
    var required := Member(Some(data), "required_attributes");
    assert Rego.Index(required, Str(action)) == Member(required, action);
  }

  /** Gate 2 over any input with this action and these properties. */
  lemma Gate2Of(i: Json, data: Json, action: string, props: map<string, Json>)
    requires At2(i, "action", "name") == Some(Str(action))
    requires At2(i, "resource", "properties") == if props == map[] then None else Some(Obj(props))
    ensures Policy.MissingRequired(data, i) == {} <==>
            forall a :: a in Policy.RequiredAttributes(data, Some(Str(action))) ==>
              a.Str? && a.s in props && props[a.s] != Bool(false)
  {
    var held := At2(i, "resource", "properties");
    var required := Policy.RequiredAttributes(data, Some(Str(action)));
    forall a
      ensures Rego.Holds(Rego.Index(held, a)) <==> a.Str? && a.s in props && props[a.s] != Bool(false)
    {
    }
    forall a | a in required && !Rego.Holds(Rego.Index(held, a))
      ensures Policy.MissingAttribute(a, Str(action)) in Policy.MissingRequired(data, i)
    {
    }
  }

  /** A request that lacks an attribute the data requires of its action is never allowed, whatever its domain says. */
  lemma MissingAttributeDenies(svc: Service, data: Json, domains: Policy.Domains, now: int, r: Request,
                               attribute: Json)
    requires Framework(svc, data, domains)
    requires Lists(At2(data, "required_attributes", r.action.name), attribute) && !Supplies(r, attribute)
    ensures !Allows(svc, now, r)
  {
    Gate2Says(data, r);
    AllowsIff(svc, data, domains, now, r);
  }

  /** What it takes to be allowed: a valid request, no missing attribute, the profile's context, a willing domain. */
  lemma AllowsIff(svc: Service, data: Json, domains: Policy.Domains, now: int, r: Request)
    requires Framework(svc, data, domains)
    ensures Allows(svc, now, r) <==>
            && ContractValid(r)
            && Policy.MissingRequired(data, ToInput(r)) == {}
            && Policy.ProfileViolations(ToInput(r)) == {}
            && Policy.Allowing(Policy.DomainVerdict(domains, ToInput(r)))
  {
    FrontDoorAgreesWithSchemaGate(r);
    Policy.AllowsIff(data, domains, ToInput(r));
    Engine.AllowsOnlyTrue(svc.policy, ToInput(r));
  }
}
