/** The relationship engine's mapping of a request to an OpenFGA check (user, relation, object). */
module Rebac {
  import opened Values
  import opened Text
  import opened Contract
  import Engine
  import Pdp

  datatype Tuple = Tuple(user: string, relation: string, object_: string)

  function Nested(input: Json, a: string, b: string): string {
    match At2(input, a, b)
    case Some(Str(s)) => s
    case _ => ""
  }

  function RelationFor(action: string): string {
    match Cut(action, ':')
    case None => ""
    case Some((_, verb)) => if verb == "" then "" else "can_" + verb
  }

  function ObjectFor(kind: string, id: string): string {
    match Cut(kind, ':')
    case None => ""
    case Some((_, entity)) => if entity == "" || id == "" then "" else entity + ":" + id
  }

  function TupleOf(input: Json): Tuple {
    Tuple("user:" + Nested(input, "subject", "id"), RelationFor(Nested(input, "action", "name")),
          ObjectFor(Nested(input, "resource", "type"), Nested(input, "resource", "id")))
  }

  predicate Unmapped(t: Tuple) {
    t.relation == "" || t.object_ == "" || t.user == "user:"
  }

  const UNMAPPED := "rebac_unmapped_request"
  const NO_RELATIONSHIP := "rebac_no_relationship"

  /** The check itself is a call to OpenFGA; an error there is an error here, and nothing else allows but a yes. */
  function Eval(input: Json, check: Tuple -> Result<bool, ()>): Result<Engine.Decision, ()> {
    if !input.Obj? then Ok(Engine.Decision(false, [], "rebac_bad_input"))
    else if Unmapped(TupleOf(input)) then Ok(Engine.Decision(false, [], UNMAPPED))
    else match check(TupleOf(input))
      case Err(_) => Err(())
      case Ok(true) => Ok(Engine.Decision(true, [], "rebac_relationship_ok"))
      case Ok(false) => Ok(Engine.Decision(false, [], NO_RELATIONSHIP))
  }

  /** The three parts of a validated request's check, spelled out. */
  lemma TupleOfRequest(r: Request)
    requires ContractValid(r)
    ensures var (verb, entity) := (Split(r.action.name, ':')[1], Split(r.resource.kind, ':')[1]);
            && IsName(verb) && IsName(entity)
            && r.action.name == DomainOf(r.action.name).value + ":" + verb
            && r.resource.kind == DomainOf(r.resource.kind).value + ":" + entity
            && TupleOf(Pdp.ToInput(r)) ==
               Tuple("user:" + r.subject.id, "can_" + verb,
                     if r.resource.id == "" then "" else entity + ":" + r.resource.id)
  {
    Pdp.InputView(r);
    CutOfPair(r.action.name);
    CutOfPair(r.resource.kind);
  }

  lemma CutOfPair(s: string)
    requires IsColonPair(s)
    ensures Cut(s, ':') == Some((Split(s, ':')[0], Split(s, ':')[1])) && IsName(Split(s, ':')[1])
    ensures s == DomainOf(s).value + ":" + Split(s, ':')[1]
  {
    ColonPairParts(s);
    var parts := Split(s, ':');
    NameHasNoColon(parts[0]);
    CutOf(parts[0], ':', parts[1]);
  }

  /** On a validated request the engine says "unmapped" exactly when no resource instance is named; otherwise it allows
      exactly what OpenFGA grants, and fails exactly when OpenFGA does. */
  lemma MappedIff(r: Request, check: Tuple -> Result<bool, ()>)
    requires ContractValid(r)
    ensures var answer := Eval(Pdp.ToInput(r), check);
            && (answer == Ok(Engine.Decision(false, [], UNMAPPED)) <==> r.resource.id == "")
            && (answer.Ok? && answer.value.allow <==>
                r.resource.id != "" && check(TupleOf(Pdp.ToInput(r))) == Ok(true))
            && (answer.Err? <==> r.resource.id != "" && check(TupleOf(Pdp.ToInput(r))).Err?)
            && (answer.Ok? && answer.value.allow ==> answer.value.reasonCode == "rebac_relationship_ok")
            && (answer.Ok? && !answer.value.allow ==>
                  answer.value.reasonCode ==
                  if r.resource.id == "" then "rebac_unmapped_request" else "rebac_no_relationship")
  {
    var input := Pdp.ToInput(r);
    EvalSays(input, check);
    UnmappedIff(r);
  }

  lemma UnmappedIff(r: Request)
    requires ContractValid(r)
    ensures Unmapped(TupleOf(Pdp.ToInput(r))) <==> r.resource.id == ""
  {
    TupleOfRequest(r);
    assert ("user:" + r.subject.id)[|"user:"|..] == r.subject.id;
  }

  lemma EvalSays(input: Json, check: Tuple -> Result<bool, ()>)
    requires input.Obj?
    ensures var (answer, t) := (Eval(input, check), TupleOf(input));
            && (answer == Ok(Engine.Decision(false, [], UNMAPPED)) <==> Unmapped(t))
            && (answer.Ok? && answer.value.allow <==> !Unmapped(t) && check(t) == Ok(true))
            && (answer.Err? <==> !Unmapped(t) && check(t).Err?)
            && (answer.Ok? && answer.value.allow ==> answer.value.reasonCode == "rebac_relationship_ok")
            && (answer.Ok? && !answer.value.allow ==>
                  answer.value.reasonCode == if Unmapped(t) then "rebac_unmapped_request" else "rebac_no_relationship")
  {
    assert UNMAPPED[6] != NO_RELATIONSHIP[6];
  }

  lemma PrefixCancels(prefix: string, a: string, b: string)
    ensures prefix + a == prefix + b <==> a == b
  {
    assert (prefix + a)[|prefix|..] == a && (prefix + b)[|prefix|..] == b;
  }

  /** Two validated, mapped requests share a check exactly when they share subject, verb, entity and instance, so within
      one domain the check determines the whole tuple of the request. */
  lemma SameCheckIff(a: Request, b: Request)
    requires ContractValid(a) && ContractValid(b) && a.resource.id != "" && b.resource.id != ""
    ensures TupleOf(Pdp.ToInput(a)) == TupleOf(Pdp.ToInput(b)) <==>
            && a.subject.id == b.subject.id && a.resource.id == b.resource.id
            && Split(a.action.name, ':')[1] == Split(b.action.name, ':')[1]
            && Split(a.resource.kind, ':')[1] == Split(b.resource.kind, ':')[1]
    ensures TupleOf(Pdp.ToInput(a)) == TupleOf(Pdp.ToInput(b)) && DomainOf(a.action.name) == DomainOf(b.action.name) ==>
            && a.subject.id == b.subject.id && a.action.name == b.action.name
            && a.resource.kind == b.resource.kind && a.resource.id == b.resource.id
  {
    TupleOfRequest(a);
    TupleOfRequest(b);
    PrefixCancels("user:", a.subject.id, b.subject.id);
    PrefixCancels("can_", Split(a.action.name, ':')[1], Split(b.action.name, ':')[1]);
    var (x, y) := (Split(a.resource.kind, ':')[1], Split(b.resource.kind, ':')[1]);
    NameHasNoColon(x);
    NameHasNoColon(y);
    if x + ":" + a.resource.id == y + ":" + b.resource.id {
      JoinInjective(x, a.resource.id, ':', y, b.resource.id);
    }
  }

  function SettleIn(domain: string): Request {
    Request(Subject("user", "u-1", NilMap), Action(domain + ":" + "settle", NilMap),
            Resource(domain + ":" + "account", "1", NilMap), Props(map["authz_profile" := Str(EDGE)]))
  }

  /** The domain is not part of the check: the same settlement in any two domains asks OpenFGA the same question. */
  lemma DomainsCollide(d: string, e: string)
    requires IsName(d) && IsName(e) && d != e
    ensures ContractValid(SettleIn(d)) && ContractValid(SettleIn(e)) && SettleIn(d) != SettleIn(e)
    ensures TupleOf(Pdp.ToInput(SettleIn(d))) == TupleOf(Pdp.ToInput(SettleIn(e)))
  {
    SettleParts(d);
    SettleParts(e);
    SameCheckIff(SettleIn(d), SettleIn(e));
  }

  lemma SettleParts(d: string)
    requires IsName(d)
    ensures ContractValid(SettleIn(d))
    ensures Split(SettleIn(d).action.name, ':') == [d, "settle"]
    ensures Split(SettleIn(d).resource.kind, ':') == [d, "account"]
  {
    assert IsName("settle") && IsName("account");
    PairOf(d, "settle");
    PairOf(d, "account");
    PairSplits(d, "settle");
    PairSplits(d, "account");
  }

  lemma PairSplits(a: string, b: string)
    requires IsName(a) && IsName(b)
    ensures Split(a + ":" + b, ':') == [a, b]
  {
    NameHasNoColon(a);
    NameHasNoColon(b);
    CutOf(a, ':', b);
    CutIsFirst(b, ':');
    assert Split(b, ':') == [b];
  }
}
