/** The access-evaluation contract: request and response values, their accessors, and the front-door validator. */
module Contract {
  import opened Values
  import opened Text

  const EDGE := "edge"
  const EAST_WEST := "east_west"
  const PARTNER := "partner"
  const STEP_UP := "step_up"

  datatype Subject = Subject(kind: string, id: string, properties: GoMap) {
    function Aal(): string {
      properties.GetString("auth_assurance_level")
    }
  }
  datatype Action = Action(name: string, properties: GoMap)
  datatype Resource = Resource(kind: string, id: string, properties: GoMap)
  datatype Request = Request(subject: Subject, action: Action, resource: Resource, context: GoMap) {
    function Profile(): string {
      context.GetString("authz_profile")
    }

    function CorrelationId(): string {
      context.GetString("correlation_id")
    }
  }

  datatype DecisionToken = DecisionToken(value: string, ttlSeconds: int)
  datatype Obligation = Obligation(kind: string, details: GoMap)
  datatype ResponseContext = ResponseContext(
    token: Option<DecisionToken>, obligations: seq<Obligation>, reasonCode: string)
  datatype Response = Response(decision: bool, context: Option<ResponseContext>)

  datatype Issue =
    | SubjectTypeRequired | SubjectTypeUnknown(kind: string)
    | SubjectIdRequired
    | ActionNameRequired | ActionNameMalformed(name: string)
    | ResourceTypeRequired | ResourceTypeMalformed(kind: string)
    | DomainMismatch(actionDomain: string, resourceDomain: string)
    | ProfileRequired | ProfileUnknown(profile: string)

  // ----- Regular expressions: the subset both validators are written in -----

  datatype Regex = One(chars: set<char>) | Star(chars: set<char>) | Then(first: Regex, rest: Regex)

  /** The whole of `s` matches, as with an expression between `^` and `$`. */
  ghost predicate Matches(re: Regex, s: string) {
    match re
    case One(chars) => |s| == 1 && s[0] in chars
    case Star(chars) => forall i :: 0 <= i < |s| ==> s[i] in chars
    case Then(first, rest) => exists i :: 0 <= i <= |s| && Matches(first, s[..i]) && Matches(rest, s[i..])
  }

  const LOWER: set<char> := set c: char | 'a' <= c <= 'z'
  const TAIL: set<char> := set c: char | 'a' <= c <= 'z' || '0' <= c <= '9' || c == '_' || c == '-'

  /** `[a-z][a-z0-9_-]*` */
  const NAME := Then(One(LOWER), Star(TAIL))

  /** `[a-z][a-z0-9_-]*:[a-z][a-z0-9_-]*`, one concatenation read left to right */
  const COLON_PAIR := Then(One(LOWER), Then(Star(TAIL), Then(One({':'}), Then(One(LOWER), Star(TAIL)))))

  predicate IsName(s: string) {
    && s != ""
    && s[0] in LOWER
    && forall i :: 1 <= i < |s| ==> s[i] in TAIL
  }

  predicate IsColonPair(s: string) {
    var parts := Split(s, ':');
    |parts| == 2 && IsName(parts[0]) && IsName(parts[1])
  }

  function DomainOf(s: string): Option<string> {
    if IsColonPair(s) then Some(Split(s, ':')[0]) else None
  }

  lemma NameMatches(s: string)
    ensures IsName(s) <==> Matches(NAME, s)
  {
    if IsName(s) {
      assert Matches(One(LOWER), s[..1]) && Matches(Star(TAIL), s[1..]);
    }
    if Matches(NAME, s) {
      var i :| 0 <= i <= |s| && Matches(One(LOWER), s[..i]) && Matches(Star(TAIL), s[i..]);
      assert i == 1;
      forall k | 1 <= k < |s|
        ensures s[k] in TAIL
      {
        assert s[k] == s[1..][k - 1];
      }
    }
  }

  lemma NameHasNoColon(s: string)
    requires IsName(s)
    ensures ':' !in s && '/' !in s
  {}

  /** Splitting at the colon: the pair is two names around the only colon. */
  lemma ColonPairParts(s: string)
    ensures IsColonPair(s) <==> exists a, b :: IsName(a) && IsName(b) && s == a + ":" + b
    ensures IsColonPair(s) ==> ':' in s && '/' !in s && s == Split(s, ':')[0] + ":" + Split(s, ':')[1]
  {
    CutIsFirst(s, ':');
    if IsColonPair(s) {
      var (a, rest) := Cut(s, ':').value;
      CutIsFirst(rest, ':');
      assert Split(s, ':') == [a] + Split(rest, ':');
      assert Split(rest, ':') == [rest];
      NameHasNoColon(a);
      NameHasNoColon(rest);
      assert s == a + ":" + rest;
    }
    forall a, b | IsName(a) && IsName(b) && s == a + ":" + b
      ensures IsColonPair(s)
    {
      NameHasNoColon(a);
      NameHasNoColon(b);
      CutOf(a, ':', b);
      CutIsFirst(b, ':');
      assert Split(b, ':') == [b];
      assert Split(s, ':') == [a, b];
    }
  }

  lemma PairOf(a: string, b: string)
    requires IsName(a) && IsName(b)
    ensures IsColonPair(a + ":" + b) && DomainOf(a + ":" + b) == Some(a)
  {
    ColonPairParts(a + ":" + b);
    NameHasNoColon(a);
    CutOf(a, ':', b);
  }

  lemma ThenJoin(first: Regex, rest: Regex, a: string, b: string)
    requires Matches(first, a) && Matches(rest, b)
    ensures Matches(Then(first, rest), a + b)
  {
    var s := a + b;
    assert s[..|a|] == a && s[|a|..] == b;
  }

  lemma PairMatches(a: string, b: string)
    requires IsName(a) && IsName(b)
    ensures Matches(COLON_PAIR, a + ":" + b)
  {
    var middle := COLON_PAIR.rest;
    ColonAndName(b);
    ThenJoin(middle.first, middle.rest, a[1..], ":" + b);
    ThenJoin(COLON_PAIR.first, middle, a[..1], a[1..] + (":" + b));
    assert a + ":" + b == a[..1] + (a[1..] + (":" + b));
  }

  lemma ColonAndName(b: string)
    requires IsName(b)
    ensures Matches(COLON_PAIR.rest.rest, ":" + b)
  {
    NameMatches(b);
    ThenJoin(One({':'}), NAME, ":", b);
  }

  lemma ThenParts(first: Regex, rest: Regex, s: string) returns (a: string, b: string)
    requires Matches(Then(first, rest), s)
    ensures s == a + b && Matches(first, a) && Matches(rest, b)
  {
    var i :| 0 <= i <= |s| && Matches(first, s[..i]) && Matches(rest, s[i..]);
    a, b := s[..i], s[i..];
  }

  lemma NameFrom(head: string, tail: string)
    requires Matches(One(LOWER), head) && Matches(Star(TAIL), tail)
    ensures IsName(head + tail)
  {
    var s := head + tail;
    assert forall i :: 1 <= i < |s| ==> s[i] == tail[i - 1];
  }

  lemma MatchedTail(u: string) returns (b: string)
    requires Matches(COLON_PAIR.rest.rest, u)
    ensures IsName(b) && u == ":" + b
  {
    var colon;
    colon, b := ThenParts(One({':'}), NAME, u);
    NameMatches(b);
    assert colon == ":";
  }

  lemma MatchedPair(s: string) returns (a: string, b: string)
    requires Matches(COLON_PAIR, s)
    ensures IsName(a) && IsName(b) && s == a + ":" + b
  {
    var head, tail, u := MatchedParts(s);
    NameFrom(head, tail);
    b := MatchedTail(u);
    a := head + tail;
  }

  lemma MatchedParts(s: string) returns (head: string, tail: string, u: string)
    requires Matches(COLON_PAIR, s)
    ensures Matches(One(LOWER), head) && Matches(Star(TAIL), tail) && Matches(COLON_PAIR.rest.rest, u)
    ensures s == head + tail + u
  {
    var t;
    head, t := ThenParts(COLON_PAIR.first, COLON_PAIR.rest, s);
    tail, u := ThenParts(COLON_PAIR.rest.first, COLON_PAIR.rest.rest, t);
    assert head + (tail + u) == head + tail + u;
  }

  /** Splitting and matching each part accepts exactly the language of the single expression. */
  lemma ColonPairIsTheRegex(s: string)
    ensures IsColonPair(s) <==> Matches(COLON_PAIR, s)
  {
    ColonPairParts(s);
    if IsColonPair(s) {
      var a, b :| IsName(a) && IsName(b) && s == a + ":" + b;
      PairMatches(a, b);
    }
    if Matches(COLON_PAIR, s) {
      var a, b := MatchedPair(s);
    }
  }

  // ----- The validator -----

  predicate KnownProfile(profile: string) {
    profile == EDGE || profile == EAST_WEST || profile == PARTNER
  }

  predicate ContractValid(r: Request) {
    && (r.subject.kind == "user" || r.subject.kind == "workload")
    && r.subject.id != ""
    && IsColonPair(r.action.name)
    && IsColonPair(r.resource.kind)
    && DomainOf(r.action.name) == DomainOf(r.resource.kind)
    && KnownProfile(r.Profile())
  }

  function SubjectTypeIssues(kind: string): seq<Issue> {
    if kind == "" then [SubjectTypeRequired]
    else if kind == "user" || kind == "workload" then [] else [SubjectTypeUnknown(kind)]
  }

  function ActionIssues(name: string): seq<Issue> {
    if name == "" then [ActionNameRequired] else if IsColonPair(name) then [] else [ActionNameMalformed(name)]
  }

  function ResourceIssues(kind: string): seq<Issue> {
    if kind == "" then [ResourceTypeRequired] else if IsColonPair(kind) then [] else [ResourceTypeMalformed(kind)]
  }

  /** The cross-field rule speaks only about two well-formed pairs. */
  function DomainIssues(action: string, resource: string): seq<Issue> {
    if IsColonPair(action) && IsColonPair(resource) && DomainOf(action) != DomainOf(resource)
    then [DomainMismatch(DomainOf(action).value, DomainOf(resource).value)] else []
  }

  function ProfileIssues(profile: string): seq<Issue> {
    if profile == "" then [ProfileRequired] else if KnownProfile(profile) then [] else [ProfileUnknown(profile)]
  }

  function IssuesOf(r: Request): seq<Issue> {
    SubjectTypeIssues(r.subject.kind)
    + (if r.subject.id == "" then [SubjectIdRequired] else [])
    + ActionIssues(r.action.name)
    + ResourceIssues(r.resource.kind)
    + DomainIssues(r.action.name, r.resource.kind)
    + ProfileIssues(r.Profile())
  }

  /** A request has no issue exactly when it is contract-valid. */
  lemma NoIssuesIffValid(r: Request)
    ensures IssuesOf(r) == [] <==> ContractValid(r)
  {
    var a := SubjectTypeIssues(r.subject.kind);
    var b := if r.subject.id == "" then [SubjectIdRequired] else [];
    var c, d := ActionIssues(r.action.name), ResourceIssues(r.resource.kind);
    var e, f := DomainIssues(r.action.name, r.resource.kind), ProfileIssues(r.Profile());
    assert |IssuesOf(r)| == |a| + |b| + |c| + |d| + |e| + |f|;
  }

  /** The place of the field an issue is about, in the order the fields are checked. */
  function FieldOf(issue: Issue): nat {
    match issue
    case SubjectTypeRequired => 0
    case SubjectTypeUnknown(_) => 0
    case SubjectIdRequired => 1
    case ActionNameRequired => 2
    case ActionNameMalformed(_) => 2
    case ResourceTypeRequired => 3
    case ResourceTypeMalformed(_) => 3
    case DomainMismatch(_, _) => 4
    case ProfileRequired => 5
    case ProfileUnknown(_) => 5
  }

  /** `domain` is the first name of a colon pair. */
  ghost predicate InDomain(pair: string, domain: string) {
    exists name :: IsName(domain) && IsName(name) && pair == domain + ":" + name
  }

  lemma DomainOfIs(pair: string, domain: string)
    ensures InDomain(pair, domain) <==> DomainOf(pair) == Some(domain)
  {
    ColonPairParts(pair);
    if name :| IsName(domain) && IsName(name) && pair == domain + ":" + name {
      PairOf(domain, name);
    }
    if DomainOf(pair) == Some(domain) {
      var a, b :| IsName(a) && IsName(b) && pair == a + ":" + b;
      PairOf(a, b);
    }
  }

  /** What each issue says of a request. */
  ghost predicate Says(x: Issue, r: Request) {
    var profile := r.context.GetString("authz_profile");
    match x
    case SubjectTypeRequired => r.subject.kind == ""
    case SubjectTypeUnknown(k) => k == r.subject.kind && k != "" && k != "user" && k != "workload"
    case SubjectIdRequired => r.subject.id == ""
    case ActionNameRequired => r.action.name == ""
    case ActionNameMalformed(n) => n == r.action.name && n != "" && !Matches(COLON_PAIR, n)
    case ResourceTypeRequired => r.resource.kind == ""
    case ResourceTypeMalformed(n) => n == r.resource.kind && n != "" && !Matches(COLON_PAIR, n)
    case DomainMismatch(a, b) => InDomain(r.action.name, a) && InDomain(r.resource.kind, b) && a != b
    case ProfileRequired => profile == ""
    case ProfileUnknown(p) => p == profile && p != "" && p != "edge" && p != "east_west" && p != "partner"
  }

  /** An issue is named exactly when what it says is so. */
  lemma WhichIssues(r: Request, x: Issue)
    ensures x in IssuesOf(r) <==> Says(x, r)
  {
    ColonPairIsTheRegex(r.action.name);
    ColonPairIsTheRegex(r.resource.kind);
    if x.DomainMismatch? {
      MismatchSays(r.action.name, r.resource.kind, x.actionDomain, x.resourceDomain);
    }
  }

  lemma MismatchSays(action: string, resource: string, a: string, b: string)
    ensures DomainMismatch(a, b) in DomainIssues(action, resource) <==>
            InDomain(action, a) && InDomain(resource, b) && a != b
  {
    DomainOfIs(action, a);
    DomainOfIs(resource, b);
  }

  /** The order they come in: fields in turn, at most one issue for each. */
  lemma IssuesInOrder(r: Request)
    ensures InOrder(IssuesOf(r))
  {
    var a := SubjectTypeIssues(r.subject.kind);
    var b := if r.subject.id == "" then [SubjectIdRequired] else [];
    var c, d := ActionIssues(r.action.name), ResourceIssues(r.resource.kind);
    var e, f := DomainIssues(r.action.name, r.resource.kind), ProfileIssues(r.Profile());
    JoinedInOrder(a, b, 1);
    JoinedInOrder(a + b, c, 2);
    JoinedInOrder(a + b + c, d, 3);
    JoinedInOrder(a + b + c + d, e, 4);
    JoinedInOrder(a + b + c + d + e, f, 5);
  }

  predicate InOrder(issues: seq<Issue>) {
    forall i, j :: 0 <= i < j < |issues| ==> FieldOf(issues[i]) < FieldOf(issues[j])
  }

  predicate Below(issues: seq<Issue>, field: nat) {
    forall i :: 0 <= i < |issues| ==> FieldOf(issues[i]) < field
  }

  lemma JoinedInOrder(before: seq<Issue>, more: seq<Issue>, field: nat)
    requires InOrder(before) && Below(before, field) && |more| <= 1 && (|more| == 1 ==> FieldOf(more[0]) == field)
    ensures InOrder(before + more) && Below(before + more, field + 1)
  {}

  /** Collects every issue, in the order the fields are checked. */
  method Validate(r: Request) returns (issues: seq<Issue>)
    ensures issues == IssuesOf(r)
    ensures issues == [] <==> ContractValid(r)
  {
    issues := [];
    if r.subject.kind == "" {
      issues := issues + [SubjectTypeRequired];
    } else if r.subject.kind != "user" && r.subject.kind != "workload" {
      issues := issues + [SubjectTypeUnknown(r.subject.kind)];
    }
    ghost var kinds := SubjectTypeIssues(r.subject.kind);
    assert issues == kinds;
    if r.subject.id == "" {
      issues := issues + [SubjectIdRequired];
    }
    ghost var subject := kinds + if r.subject.id == "" then [SubjectIdRequired] else [];
    assert issues == subject;
    if r.action.name == "" {
      issues := issues + [ActionNameRequired];
    } else if !IsColonPair(r.action.name) {
      issues := issues + [ActionNameMalformed(r.action.name)];
    }
    ghost var action := subject + ActionIssues(r.action.name);
    assert issues == action;
    if r.resource.kind == "" {
      issues := issues + [ResourceTypeRequired];
    } else if !IsColonPair(r.resource.kind) {
      issues := issues + [ResourceTypeMalformed(r.resource.kind)];
    }
    ghost var resource := action + ResourceIssues(r.resource.kind);
    assert issues == resource;
    var ad, rd := DomainOf(r.action.name), DomainOf(r.resource.kind);
    if ad.Some? && rd.Some? && ad.value != rd.value {
      issues := issues + [DomainMismatch(ad.value, rd.value)];
    }
    ghost var domain := resource + DomainIssues(r.action.name, r.resource.kind);
    assert issues == domain;
    if r.Profile() == "" {
      issues := issues + [ProfileRequired];
    } else if !KnownProfile(r.Profile()) {
      issues := issues + [ProfileUnknown(r.Profile())];
    }
    assert issues == domain + ProfileIssues(r.Profile());
    NoIssuesIffValid(r);
  }
}
