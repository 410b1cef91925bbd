/** The framework policy, rule by rule: three gates of violations, dispatch to a domain, and the composed decision. */
module Policy {
  import opened Values
  import opened Text
  import opened Rego
  import Contract

  datatype Violation =
    | BadSubjectType | NoSubjectId | BadActionName | BadResourceType | DomainMismatch
    | MissingAttribute(attribute: Json, action: Json)
    | NoSourceIp | NoActor | BadActor | NoPartnerId

  /** The verdict of domain `d` on an input. Absent domains, undefined verdicts and conflicting ones are all covered. */
  type Domains = (string, Json) -> Eval

  function If(b: bool, v: Violation): set<Violation> {
    if b then {v} else {}
  }

  /** `regex.match(colon_pair, v)`: undefined, hence failing, on anything but a string. The regex is the language
      Contract.IsColonPair accepts, by Contract.ColonPairIsTheRegex. */
  predicate MatchesColonPair(v: Option<Json>) {
    v.Some? && v.value.Str? && Contract.IsColonPair(v.value.s)
  }

  function FirstPart(v: Option<Json>): Option<string> {
    if v.Some? && v.value.Str? then Some(Split(v.value.s, ':')[0]) else None
  }

  // ----- Gate 1: vsp.global -----

  function SchemaViolations(input: Json): set<Violation> {
    var kind := At2(input, "subject", "type");
    var action, resource := At2(input, "action", "name"), At2(input, "resource", "type");
    If(kind != Some(Str("user")) && kind != Some(Str("workload")), BadSubjectType)
    + If(!Holds(At2(input, "subject", "id")), NoSubjectId)
    + If(!MatchesColonPair(action), BadActionName)
    + If(!MatchesColonPair(resource), BadResourceType)
    + If(MatchesColonPair(action) && MatchesColonPair(resource) && FirstPart(action) != FirstPart(resource),
         DomainMismatch)
  }

  // ----- Gate 2: vsp.lib -----

  function RequiredAttributes(data: Json, action: Option<Json>): set<Json> {
    if action.None? then {} else Elements(Index(Member(Some(data), "required_attributes"), action.value))
  }

  function MissingRequired(data: Json, input: Json): set<Violation> {
    var action := At2(input, "action", "name");
    set a | a in RequiredAttributes(data, action) && !Holds(Index(At2(input, "resource", "properties"), a))
      :: MissingAttribute(a, action.value)
  }

  function AalRank(level: string): nat {
    match level
    case "AAL1" => 1
    case "AAL2" => 2
    case "AAL3" => 3
    case _ => 0
  }

  /** The levels are ordered as they are numbered, and below all of them is anything else. */
  lemma RankOrder(level: string)
    ensures AalRank("AAL3") > AalRank("AAL2") > AalRank("AAL1") > AalRank("")
    ensures AalRank(level) > AalRank("") <==> level in {"AAL1", "AAL2", "AAL3"}
  {}

  /** An unknown or absent level reaches no level at all, and an unknown one is never reached. */
  predicate AalAtLeast(have: Option<Json>, want: string) {
    have.Some? && have.value.Str? && AalRank(have.value.s) >= AalRank(want) > 0
  }

  function SubjectAal(input: Json): Option<Json> {
    At3(input, "subject", "properties", "auth_assurance_level")
  }

  /** The rank of the subject's level as the policy sees it; nothing recognisable ranks 0. */
  function InputRank(input: Json): nat {
    var aal := SubjectAal(input);
    if aal.Some? && aal.value.Str? then AalRank(aal.value.s) else 0
  }

  function StepUp(acr: string): Json {
    Obj(map["type" := Str("step_up"), "details" := Obj(map["required_acr" := Str(acr), "method" := Str("mfa")])])
  }

  function Audit(level: string): Json {
    Obj(map["type" := Str("log"), "details" := Obj(map["level" := Str(level)])])
  }

  // ----- Gate 3: vsp.profiles -----

  predicate ValidWorkloadActor(act: Json) {
    var id := Member(Some(act), "id");
    && Member(Some(act), "type") == Some(Str("workload"))
    && id.Some? && id.value.Str? && HasPrefix(id.value.s, "spiffe://")
  }

  function ProfileViolations(input: Json): set<Violation> {
    var profile := At2(input, "context", "authz_profile");
    var act := At3(input, "subject", "properties", "act");
    If(profile == Some(Str("edge")) && !Holds(At2(input, "context", "source_ip")), NoSourceIp)
    + If(profile == Some(Str("east_west")) && !Holds(act), NoActor)
    + If(profile == Some(Str("east_west")) && act.Some? && !ValidWorkloadActor(act.value), BadActor)
    + If(profile == Some(Str("partner")) && !Holds(At2(input, "context", "partner_id")), NoPartnerId)
  }

  /** Gate 3 is clear exactly when each profile's context is there: a source on the edge, a spiffe:// workload as actor
      on the east-west hop, a partner on the partner hop. No other profile asks for anything. */
  lemma Gate3Says(input: Json)
    ensures var profile := At2(input, "context", "authz_profile");
            var act := At3(input, "subject", "properties", "act");
            ProfileViolations(input) == {} <==>
              && (profile == Some(Str("edge")) ==> Holds(At2(input, "context", "source_ip")))
              && (profile == Some(Str("partner")) ==> Holds(At2(input, "context", "partner_id")))
              && (profile == Some(Str("east_west")) ==>
                    && Member(act, "type") == Some(Str("workload"))
                    && exists id :: Member(act, "id") == Some(Str(id)) && HasPrefix(id, "spiffe://"))
  {
    var act := At3(input, "subject", "properties", "act");
    assert act.Some? ==> (ValidWorkloadActor(act.value) <==>
                            && Member(act, "type") == Some(Str("workload"))
                            && exists id :: Member(act, "id") == Some(Str(id)) && HasPrefix(id, "spiffe://"));
    var violations := ProfileViolations(input);
    assert violations == {} <==>
           NoSourceIp !in violations && NoActor !in violations && BadActor !in violations && NoPartnerId !in violations;
  }

  // ----- vsp.authz -----

  function AllViolations(data: Json, input: Json): set<Violation> {
    SchemaViolations(input) + MissingRequired(data, input) + ProfileViolations(input)
  }

  function DomainVerdict(domains: Domains, input: Json): Eval {
    var domain := FirstPart(At2(input, "resource", "type"));
    if domain.None? then Undefined else domains(domain.value, input)
  }

  function Verdict(allow: bool, obligations: seq<Json>, reason: string): Json {
    Obj(map["allow" := Bool(allow), "obligations" := Arr(obligations), "reason_code" := Str(reason)])
  }

  /** An object of the verdict's `allow`, `obligations` and `reason_code`: undefined unless all three are defined. */
  function Forwarded(v: Json): Option<Json> {
    var allow, obligations := Member(Some(v), "allow"), Member(Some(v), "obligations");
    var reason := Member(Some(v), "reason_code");
    if allow.Some? && obligations.Some? && reason.Some?
    then Some(Obj(map["allow" := allow.value, "obligations" := obligations.value, "reason_code" := reason.value]))
    else None
  }

  const DEFAULT_DENY := Verdict(false, [], "default_deny")
  const REQUEST_INVALID := Verdict(false, [Audit("audit_denied")], "request_invalid")
  const UNKNOWN_DOMAIN := Verdict(false, [Audit("audit_denied")], "unknown_domain")

  /** The three definitions of `decision`, in source order. A body asks for the domain verdict only once the count of
      violations has passed, so a conflict there surfaces only then. */
  function InvalidRule(violations: set<Violation>): Eval {
    if violations != {} then Value(REQUEST_INVALID) else Undefined
  }

  function UnknownRule(violations: set<Violation>, verdict: Eval): Eval {
    if violations != {} then Undefined
    else match verdict
      case Conflict => Conflict
      case Undefined => Value(UNKNOWN_DOMAIN)
      case Value(v) => if Holds(Some(v)) then Undefined else Value(UNKNOWN_DOMAIN)
  }

  function VerdictRule(violations: set<Violation>, verdict: Eval): Eval {
    if violations != {} then Undefined
    else match verdict
      case Conflict => Conflict
      case Undefined => Undefined
      case Value(v) => if Holds(Some(v)) then Defined(Forwarded(v)) else Undefined
  }

  function Composed(violations: set<Violation>, verdict: Eval): Eval {
    OrDefault(Both(Both(InvalidRule(violations), UnknownRule(violations, verdict)), VerdictRule(violations, verdict)),
              DEFAULT_DENY)
  }

  function Decision(data: Json, domains: Domains, input: Json): Eval {
    Composed(AllViolations(data, input), DomainVerdict(domains, input))
  }

  /** The verdict a domain must reach for the request to be allowed. */
  predicate Allowing(verdict: Eval) {
    verdict.Value? && Member(Forwarded(verdict.v), "allow") == Some(Bool(true))
  }

  /** The definition that supplies the decision, by the number of its rule; 3 is the default, None a conflict. */
  function Supplier(violations: set<Violation>, verdict: Eval): Option<nat> {
    if violations != {} then Some(0)
    else match verdict
      case Conflict => None
      case Undefined => Some(1)
      case Value(v) => if !Holds(Some(v)) then Some(1) else if Forwarded(v).Some? then Some(2) else Some(3)
  }

  function RuleAt(n: nat, violations: set<Violation>, verdict: Eval): Eval {
    match n
    case 0 => InvalidRule(violations)
    case 1 => UnknownRule(violations, verdict)
    case 2 => VerdictRule(violations, verdict)
    case _ => Undefined
  }

  /** Away from a conflict only the supplier is defined. */
  lemma OnlySupplierIsDefined(violations: set<Violation>, verdict: Eval, n: nat)
    ensures Supplier(violations, verdict).Some? ==>
              (RuleAt(n, violations, verdict).Value? <==> n < 3 && Supplier(violations, verdict) == Some(n))
              && !RuleAt(n, violations, verdict).Conflict?
  {}

  /** Exactly one of the three definitions or the default supplies the decision, whatever the input, the data and the
      domain verdicts; the only way not to get a value is a domain whose own verdict conflicts. */
  lemma DecisionIsSingleValued(data: Json, domains: Domains, input: Json)
    ensures var violations, verdict := AllViolations(data, input), DomainVerdict(domains, input);
            var decision := Decision(data, domains, input);
            match Supplier(violations, verdict)
            case None => violations == {} && verdict.Conflict? && decision.Conflict?
            case Some(n) =>
              && n <= 3 && (forall k :: RuleAt(k, violations, verdict).Value? <==> k == n && k < 3)
              && (forall k :: !RuleAt(k, violations, verdict).Conflict?)
              && decision == if n < 3 then RuleAt(n, violations, verdict) else Value(DEFAULT_DENY)
  {
    var violations, verdict := AllViolations(data, input), DomainVerdict(domains, input);
    var (x, y, z) := (RuleAt(0, violations, verdict), RuleAt(1, violations, verdict), RuleAt(2, violations, verdict));
    forall k
      ensures Supplier(violations, verdict).Some? ==>
                (RuleAt(k, violations, verdict).Value? <==> k < 3 && Supplier(violations, verdict) == Some(k))
                && !RuleAt(k, violations, verdict).Conflict?
    {
      OnlySupplierIsDefined(violations, verdict, k);
    }
    BothOfOne(x, y, z);
    assert Decision(data, domains, input) == OrDefault(Both(Both(x, y), z), DEFAULT_DENY);
  }

  /** Putting together three definitions of which at most one is defined. */
  lemma BothOfOne(x: Eval, y: Eval, z: Eval)
    ensures x.Undefined? && y.Undefined? ==> Both(Both(x, y), z) == z
    ensures x.Undefined? && z.Undefined? ==> Both(Both(x, y), z) == y
    ensures y.Undefined? && z.Undefined? ==> Both(Both(x, y), z) == x
    ensures x.Undefined? && y.Conflict? && z.Conflict? ==> Both(Both(x, y), z) == Conflict
  {}

  lemma VerdictFields(allow: bool, obligations: seq<Json>, reason: string)
    ensures var v := Some(Verdict(allow, obligations, reason));
            && Member(v, "allow") == Some(Bool(allow))
            && Member(v, "obligations") == Some(Arr(obligations))
            && Member(v, "reason_code") == Some(Str(reason))
  {}

  /** A refusal of the framework's own: this reason, and one obligation to log it. */
  ghost predicate RefusesFor(decision: Eval, reason: string, logged: bool) {
    && decision.Value?
    && Member(Some(decision.v), "allow") == Some(Bool(false))
    && Member(Some(decision.v), "reason_code") == Some(Str(reason))
    && exists items :: Member(Some(decision.v), "obligations") == Some(Arr(items))
         && if logged then |items| == 1 && IsLog(items[0]) else items == []
  }

  predicate IsLog(item: Json) {
    Member(Some(item), "type") == Some(Str("log")) && At2(item, "details", "level") == Some(Str("audit_denied"))
  }

  /** The whole decision, document by document. */
  lemma DecisionSays(data: Json, domains: Domains, input: Json)
    ensures var verdict := DomainVerdict(domains, input);
            var clear := SchemaViolations(input) == {} && MissingRequired(data, input) == {}
                         && ProfileViolations(input) == {};
            var decision := Decision(data, domains, input);
            && (!clear ==> RefusesFor(decision, "request_invalid", true))
            && (clear && verdict.Conflict? ==> decision.Conflict?)
            && (clear && (verdict.Undefined? || verdict == Value(Bool(false))) ==>
                  RefusesFor(decision, "unknown_domain", true))
            && (clear && verdict.Value? && verdict.v != Bool(false) ==>
                  if exists k :: k in {"allow", "obligations", "reason_code"} && Member(Some(verdict.v), k).None?
                  then RefusesFor(decision, "default_deny", false)
                  else decision.Value? && forall k :: k in {"allow", "obligations", "reason_code"} ==>
                         Member(Some(decision.v), k) == Member(Some(verdict.v), k))
  {
    assert AllViolations(data, input) == {} <==>
           SchemaViolations(input) == {} && MissingRequired(data, input) == {} && ProfileViolations(input) == {};
    ComposedSays(AllViolations(data, input), DomainVerdict(domains, input));
  }

  lemma OwnRefusals()
    ensures RefusesFor(Value(REQUEST_INVALID), "request_invalid", true)
    ensures RefusesFor(Value(UNKNOWN_DOMAIN), "unknown_domain", true)
    ensures RefusesFor(Value(DEFAULT_DENY), "default_deny", false)
  {
    VerdictFields(false, [Audit("audit_denied")], "request_invalid");
    VerdictFields(false, [Audit("audit_denied")], "unknown_domain");
    VerdictFields(false, [], "default_deny");
    var items := [Audit("audit_denied")];
    assert IsLog(items[0]);
  }

  lemma ForwardedSays(v: Json)
    ensures Forwarded(v).None? <==> exists k :: k in {"allow", "obligations", "reason_code"} && Member(Some(v), k).None?
    ensures Forwarded(v).Some? ==> forall k :: k in {"allow", "obligations", "reason_code"} ==>
              Member(Forwarded(v), k) == Member(Some(v), k)
  {
    assert "allow" != "obligations" && "allow" != "reason_code" && "obligations" != "reason_code";
  }

  lemma ComposedSays(violations: set<Violation>, verdict: Eval)
    ensures var decision := Composed(violations, verdict);
            && (violations != {} ==> RefusesFor(decision, "request_invalid", true))
            && (violations == {} && verdict.Conflict? ==> decision.Conflict?)
            && (violations == {} && (verdict.Undefined? || verdict == Value(Bool(false))) ==>
                  RefusesFor(decision, "unknown_domain", true))
            && (violations == {} && verdict.Value? && verdict.v != Bool(false) ==>
                  if exists k :: k in {"allow", "obligations", "reason_code"} && Member(Some(verdict.v), k).None?
                  then RefusesFor(decision, "default_deny", false)
                  else decision.Value? && forall k :: k in {"allow", "obligations", "reason_code"} ==>
                         Member(Some(decision.v), k) == Member(Some(verdict.v), k))
  {
    OwnRefusals();
    if verdict.Value? {
      ForwardedSays(verdict.v);
    }
  }

  predicate SaysAllow(decision: Eval) {
    decision.Value? && Member(Some(decision.v), "allow") == Some(Bool(true))
  }

  lemma ForwardedAllow(v: Json)
    requires Forwarded(v).Some?
    ensures SaysAllow(Value(Forwarded(v).value)) <==> Allowing(Value(v))
  {}

  lemma ComposedAllows(violations: set<Violation>, verdict: Eval)
    ensures SaysAllow(Composed(violations, verdict)) <==> violations == {} && Allowing(verdict)
  {
    VerdictFields(false, [], "default_deny");
    VerdictFields(false, [Audit("audit_denied")], "request_invalid");
    VerdictFields(false, [Audit("audit_denied")], "unknown_domain");
    if verdict.Value? && Forwarded(verdict.v).Some? {
      ForwardedAllow(verdict.v);
    }
  }

  /** Fail-closed: the decision allows exactly when all three gates are clean and the domain's verdict allows. */
  lemma AllowsIff(data: Json, domains: Domains, input: Json)
    ensures SaysAllow(Decision(data, domains, input)) <==>
            (SchemaViolations(input) == {} && MissingRequired(data, input) == {} && ProfileViolations(input) == {}
             && Allowing(DomainVerdict(domains, input)))
  {
    ComposedAllows(AllViolations(data, input), DomainVerdict(domains, input));
  }
}
