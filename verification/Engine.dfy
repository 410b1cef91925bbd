/** The embedded policy engine: it evaluates one decision document and normalises it, failing closed. */
module Engine {
  import opened Values
  import opened Rego

  datatype Decision = Decision(allow: bool, obligations: seq<map<string, Json>>, reasonCode: string)

  datatype EngineError = EvalFailed | NotAnObject

  /** The obligation list of a decision document: object items only, in document order. */
  function Objects(items: seq<Json>): seq<map<string, Json>> {
    if items == [] then []
    else (if items[0].Obj? then [items[0].fields] else []) + Objects(items[1..])
  }

  function Items(doc: map<string, Json>): seq<Json> {
    match Member(Some(Obj(doc)), "obligations")
    case Some(Arr(items)) => items
    case _ => []
  }

  function Parsed(doc: map<string, Json>): Decision {
    Decision(
      Member(Some(Obj(doc)), "allow") == Some(Bool(true)),
      Objects(Items(doc)),
      Props(doc).GetString("reason_code"))
  }

  lemma {:induction false} ObjectsAppend(a: seq<Json>, x: Json)
    ensures Objects(a + [x]) == Objects(a) + if x.Obj? then [x.fields] else []
  {
    var s := a + [x];
    if a == [] {
      assert s == [x] && s[1..] == [];
    } else {
      assert s[0] == a[0] && s[1..] == a[1..] + [x];
      ObjectsAppend(a[1..], x);
      assert Objects(s) == (if s[0].Obj? then [s[0].fields] else []) + Objects(s[1..]);
      assert Objects(a) == (if a[0].Obj? then [a[0].fields] else []) + Objects(a[1..]);
    }
  }

  /** `at` says where in the list each of these objects stands: all of its objects, and in its order. */
  ghost predicate Places(objects: seq<map<string, Json>>, items: seq<Json>, at: seq<nat>) {
    && |at| == |objects|
    && (forall k :: 0 <= k < |at| ==> at[k] < |items| && items[at[k]] == Obj(objects[k]))
    && (forall k, l :: 0 <= k < l < |at| ==> at[k] < at[l])
    && (forall i :: 0 <= i < |items| && items[i].Obj? ==> i in at)
  }

  /** The object items of the list, in order, and nothing else. */
  ghost predicate AreTheObjectsOf(objects: seq<map<string, Json>>, items: seq<Json>) {
    exists at :: Places(objects, items, at)
  }

  lemma {:induction false} ObjectsAreThose(items: seq<Json>) returns (at: seq<nat>)
    ensures Places(Objects(items), items, at)
  {
    at := [];
    if items != [] {
      var n := |items| - 1;
      var (before, x) := (items[..n], items[n]);
      at := ObjectsAreThose(before);
      ObjectsAppend(before, x);
      assert items == before + [x];
      if x.Obj? {
        at := at + [n];
      }
    }
  }

  lemma ParsedSays(doc: map<string, Json>)
    ensures Parsed(doc).allow <==> Member(Some(Obj(doc)), "allow") == Some(Bool(true))
    ensures Parsed(doc).reasonCode ==
            match Member(Some(Obj(doc)), "reason_code") case Some(Str(reason)) => reason case _ => ""
    ensures match Member(Some(Obj(doc)), "obligations")
            case Some(Arr(items)) => AreTheObjectsOf(Parsed(doc).obligations, items)
            case _ => Parsed(doc).obligations == []
  {
    if Member(Some(Obj(doc)), "obligations").Some? && Member(Some(Obj(doc)), "obligations").value.Arr? {
      var at := ObjectsAreThose(Member(Some(Obj(doc)), "obligations").value.items);
    }
  }

  method ParseDecision(doc: map<string, Json>) returns (d: Decision)
    ensures d == Parsed(doc)
    ensures d.allow <==> Member(Some(Obj(doc)), "allow") == Some(Bool(true))
    ensures d.reasonCode == match Member(Some(Obj(doc)), "reason_code") case Some(Str(reason)) => reason case _ => ""
    ensures match Member(Some(Obj(doc)), "obligations")
            case Some(Arr(items)) => AreTheObjectsOf(d.obligations, items)
            case _ => d.obligations == []
  {
    ParsedSays(doc);
    d := Decision(false, [], "");
    if "allow" in doc && doc["allow"].Bool? {
      d := d.(allow := doc["allow"].b);
    }
    if "reason_code" in doc && doc["reason_code"].Str? {
      d := d.(reasonCode := doc["reason_code"].s);
    }
    if "obligations" in doc && doc["obligations"].Arr? {
      var raw := doc["obligations"].items;
      ghost var before := d;
      for i := 0 to |raw|
        invariant d == before.(obligations := Objects(raw[..i]))
      {
        ObjectsAppend(raw[..i], raw[i]);
        assert raw[..i + 1] == raw[..i] + [raw[i]];
        if raw[i].Obj? {
          d := d.(obligations := d.obligations + [raw[i].fields]);
        }
      }
      assert raw[..|raw|] == raw;
    }
  }

  function Eval(policy: Json -> Rego.Eval, input: Json): Result<Decision, EngineError> {
    match policy(input)
    case Conflict => Err(EvalFailed)
    case Undefined => Ok(Decision(false, [], "policy_undefined"))
    case Value(Obj(doc)) => Ok(Parsed(doc))
    case Value(_) => Err(NotAnObject)
  }

  /** The engine fails on a conflict and on a document that is no object, and denies where nothing is defined. */
  lemma FailsOrDenies(policy: Json -> Rego.Eval, input: Json)
    ensures Eval(policy, input).Err? <==> policy(input).Conflict? || (policy(input).Value? && !policy(input).v.Obj?)
    ensures policy(input).Undefined? ==> Eval(policy, input) == Ok(Decision(false, [], "policy_undefined"))
    ensures policy(input).Value? && policy(input).v.Obj? ==> Eval(policy, input) == Ok(Parsed(policy(input).v.fields))
  {}

  /** Only a defined document whose `allow` is the boolean true is an allow. */
  lemma AllowsOnlyTrue(policy: Json -> Rego.Eval, input: Json)
    ensures Eval(policy, input).Ok? && Eval(policy, input).value.allow <==>
            policy(input).Value? && Member(Some(policy(input).v), "allow") == Some(Bool(true))
  {}
}
