/** The synthetic `acct` domain: high-value settlements need AAL3 and ask for a step-up below it, others need AAL2. */
module Acct {
  import opened Values
  import opened Rego
  import opened Policy

  const LIMIT: int := 5_000_000 * ONE
  const DENIED := Verdict(false, [], "acct_denied")
  const HIGH_OK := Verdict(true, [Audit("audit_success")], "acct_settle_ok")
  const STEP_UP_TO_3 := Verdict(false, [StepUp("AAL3"), Audit("audit_denied")], "step_up_required")
  const STANDARD_OK := Verdict(true, [Audit("audit_success")], "acct_settle_standard")

  function Amount(input: Json): Option<Json> {
    At3(input, "resource", "properties", "amount")
  }

  predicate Settles(input: Json) {
    At2(input, "action", "name") == Some(Str("acct:settle")) && Amount(input).Some?
  }

  function Rule(body: bool, head: Json): Eval {
    if body then Value(head) else Undefined
  }

  function AcctVerdict(input: Json): Eval {
    var high := Settles(input) && GreaterThan(Amount(input).value, LIMIT);
    var low := Settles(input) && !GreaterThan(Amount(input).value, LIMIT);
    var aal := SubjectAal(input);
    OrDefault(
      Both(Both(Rule(high && AalAtLeast(aal, "AAL3"), HIGH_OK), Rule(high && !AalAtLeast(aal, "AAL3"), STEP_UP_TO_3)),
           Rule(low && AalAtLeast(aal, "AAL2"), STANDARD_OK)),
      DENIED)
  }

  function AcctDomains(domain: string, input: Json): Eval {
    if domain == "acct" then AcctVerdict(input) else Undefined
  }

  predicate High(input: Json) {
    Settles(input) && GreaterThan(Amount(input).value, LIMIT)
  }

  predicate AtLevel(input: Json, level: string) {
    SubjectAal(input) == Some(Str(level))
  }

  /** The rules never conflict. A settlement is allowed exactly when the level suits the amount, and a high one asks for
      AAL3 at every other level, a missing or unknown one included. Rego orders values of different types, so an amount
      that is a string, array or object counts as high, and a null one does not. */
  lemma AcctAllowsIff(input: Json)
    ensures AcctVerdict(input).Value?
    ensures Allowing(AcctVerdict(input)) <==>
            Settles(input) && (AtLevel(input, "AAL3") || (AtLevel(input, "AAL2") && !High(input)))
    ensures AcctVerdict(input) == Value(STEP_UP_TO_3) <==> High(input) && !AtLevel(input, "AAL3")
  {
    VerdictFields(false, [], "acct_denied");
    VerdictFields(true, [Audit("audit_success")], "acct_settle_ok");
    VerdictFields(false, [StepUp("AAL3"), Audit("audit_denied")], "step_up_required");
    VerdictFields(true, [Audit("audit_success")], "acct_settle_standard");
    LevelsAreRanks(SubjectAal(input));
  }

  /** The fixture's data: what a settlement must say. */
  const SETTLE_DATA :=
    Obj(map["required_attributes" := Obj(map["acct:settle" := Arr([Str("amount"), Str("currency")])])])

  lemma SettleDataSays()
    ensures At2(SETTLE_DATA, "required_attributes", "acct:settle") == Some(Arr([Str("amount"), Str("currency")]))
  {}

  predicate Logs(item: Json, level: string) {
    Member(Some(item), "type") == Some(Str("log")) && At2(item, "details", "level") == Some(Str(level))
  }

  /** Every verdict has its three members; an allow is logged as such, and a plain denial asks for nothing. */
  lemma VerdictIsComplete(input: Json)
    ensures var v := AcctVerdict(input);
            && v.Value? && v.v.Obj?
            && forall k :: k in {"allow", "obligations", "reason_code"} ==> Member(Some(v.v), k).Some?
    ensures var v := AcctVerdict(input);
            v.Value? && (Allowing(v) || !High(input)) ==>
              exists items :: Member(Some(v.v), "obligations") == Some(Arr(items))
                && if Allowing(v) then |items| == 1 && Logs(items[0], "audit_success") else items == []
  {
    VerdictFields(false, [], "acct_denied");
    VerdictFields(true, [Audit("audit_success")], "acct_settle_ok");
    VerdictFields(false, [StepUp("AAL3"), Audit("audit_denied")], "step_up_required");
    VerdictFields(true, [Audit("audit_success")], "acct_settle_standard");
    AcctAllowsIff(input);
    var items := [Audit("audit_success")];
    assert Logs(items[0], "audit_success");
  }

  /** What counts as high: more than five million, or an amount that is no number but text, a list or an object. */
  lemma HighSays(input: Json)
    ensures High(input) <==>
            && At2(input, "action", "name") == Some(Str("acct:settle"))
            && match At3(input, "resource", "properties", "amount")
               case Some(Num(units)) => units > 5_000_000 * ONE
               case Some(Str(_)) => true
               case Some(Arr(_)) => true
               case Some(Obj(_)) => true
               case _ => false
  {}

  /** The step-up verdict: no allow, and first of all the demand for AAL3. */
  lemma StepUpSays(input: Json)
    requires High(input) && !AtLevel(input, "AAL3")
    ensures var v := AcctVerdict(input);
            && v.Value? && v.v != Bool(false)
            && Member(Some(v.v), "allow") == Some(Bool(false))
            && Member(Some(v.v), "reason_code") == Some(Str("step_up_required"))
            && exists items :: Member(Some(v.v), "obligations") == Some(Arr(items)) && |items| == 2
                 && Member(Some(items[0]), "type") == Some(Str("step_up"))
                 && At2(items[0], "details", "required_acr") == Some(Str("AAL3"))
                 && Member(Some(items[1]), "type") == Some(Str("log"))
  {
    AcctAllowsIff(input);
    var items := [StepUp("AAL3"), Audit("audit_denied")];
    VerdictFields(false, items, "step_up_required");
    StepUpFields("AAL3");
    assert Member(Some(STEP_UP_TO_3), "obligations") == Some(Arr(items));
    assert Member(Some(items[0]), "type") == Some(Str("step_up"));
  }

  /** The reason each verdict gives. */
  lemma ReasonSays(input: Json)
    ensures var v := AcctVerdict(input);
            v.Value? && Member(Some(v.v), "reason_code") == Some(Str(
              if Allowing(v) then if High(input) then "acct_settle_ok" else "acct_settle_standard"
              else if High(input) then "step_up_required" else "acct_denied"))
  {
    AcctAllowsIff(input);
    VerdictFields(false, [], "acct_denied");
    VerdictFields(true, [Audit("audit_success")], "acct_settle_ok");
    VerdictFields(false, [StepUp("AAL3"), Audit("audit_denied")], "step_up_required");
    VerdictFields(true, [Audit("audit_success")], "acct_settle_standard");
  }

  lemma StepUpFields(acr: string)
    ensures Member(Some(StepUp(acr)), "type") == Some(Str("step_up"))
    ensures At2(StepUp(acr), "details", "required_acr") == Some(Str(acr))
    ensures At2(StepUp(acr), "details", "method") == Some(Str("mfa"))
  {
    assert "type" != "details" && "required_acr" != "method";
  }

  lemma LevelsAreRanks(have: Option<Json>)
    ensures AalAtLeast(have, "AAL3") <==> have == Some(Str("AAL3"))
    ensures AalAtLeast(have, "AAL2") <==> have == Some(Str("AAL2")) || have == Some(Str("AAL3"))
  {}
}
