/** What a check has in its hands is what the run held: when it arrived, the cache it read, the clock its token was
    tried against, and the answer of the PDP. */
module Traces {
  import opened Values
  import opened Contract
  import opened Pep
  import opened Transport
  import opened System
  import opened Runs

  lemma CheckStays(w: World, s: State, a: Step, id: nat)
    requires Enabled(w, s, a) && id in s.checks
    ensures var s' := Next(w, s, a);
            id in s'.checks && s'.checks[id].node == s.checks[id].node && s'.checks[id].http == s.checks[id].http
  {}

  /** A check keeps its request. */
  lemma {:induction false} RequestStays(w: World, states: seq<State>, steps: seq<Step>, i: nat, j: nat, id: nat)
    requires IsRun(w, states, steps) && i <= j < |states| && id in states[i].checks
    ensures id in states[j].checks
    ensures states[j].checks[id].node == states[i].checks[id].node
    ensures states[j].checks[id].http == states[i].checks[id].http
    decreases j
  {
    if i < j {
      RequestStays(w, states, steps, i, j - 1, id);
      assert Follows(w, states, steps, j - 1);
      CheckStays(w, states[j - 1], steps[j - 1], id);
    }
  }

  /** Every check of a run arrived at some step, and stood at its beginning right after. */
  lemma {:induction false} CheckArrived(w: World, states: seq<State>, steps: seq<Step>, j: nat, id: nat)
      returns (i: nat)
    requires IsRun(w, states, steps) && j < |states| && id in states[j].checks
    ensures 0 < i <= j && id in states[i].checks && states[i].checks[id].stage.Arrived?
    ensures var c := states[j].checks[id];
            && states[i].checks[id].node == c.node && states[i].checks[id].http == c.http
            && steps[i - 1] == Arrive(id, c.node, c.http, c.cid) && c.since == states[i].now
  {
    CheckHasAStep(w, states, steps, j, id);
    if id in states[j - 1].checks {
      i := CheckArrived(w, states, steps, j - 1, id);
      CheckKeepsItsOrigin(w, states[j - 1], steps[j - 1], id);
    } else {
      i := j;
      OnlyArrivalsAdd(w, states[j - 1], steps[j - 1], id);
    }
  }

  lemma CheckKeepsItsOrigin(w: World, s: State, a: Step, id: nat)
    requires Enabled(w, s, a) && id in s.checks
    ensures var c := Next(w, s, a).checks[id];
            && c.node == s.checks[id].node && c.http == s.checks[id].http
            && c.cid == s.checks[id].cid && c.since == s.checks[id].since
  {}

  lemma OnlyArrivalsAdd(w: World, s: State, a: Step, id: nat)
    requires Enabled(w, s, a) && id !in s.checks && id in Next(w, s, a).checks
    ensures var c := Next(w, s, a).checks[id];
            a == Arrive(id, c.node, c.http, c.cid) && c.stage.Arrived? && c.since == Next(w, s, a).now
  {}

  // ----- Once and in order -----

  /** How far a check has come; 0 before it arrives. */
  function Rank(s: State, id: nat): nat {
    if id !in s.checks then 0
    else match s.checks[id].stage
      case Arrived => 1
      case PastGuard(_) => 2
      case PastScreen(_) => 3
      case Missed(_) => 4
      case Replied(_, _) => 5
      case Finished(_, _, _) => 6
  }

  /** The place of a step on the ladder of check id, if it is one of its steps. */
  function Rung(a: Step, id: nat): Option<nat> {
    match a
    case Arrive(i, _, _, _) => if i == id then Some(0) else None
    case Guard(i) => if i == id then Some(1) else None
    case Screen(i) => if i == id then Some(2) else None
    case TryToken(i) => if i == id then Some(3) else None
    case AskPdp(i, _) => if i == id then Some(4) else None
    case Conclude(i) => if i == id then Some(5) else None
    case _ => None
  }

  lemma StepClimbs(w: World, s: State, a: Step, id: nat)
    requires Enabled(w, s, a)
    ensures Rank(Next(w, s, a), id) >= Rank(s, id)
    ensures Rung(a, id).Some? ==> Rank(s, id) == Rung(a, id).value < Rank(Next(w, s, a), id)
  {}

  lemma {:induction false} RunClimbs(w: World, states: seq<State>, steps: seq<Step>, i: nat, j: nat, id: nat)
    requires IsRun(w, states, steps) && i <= j < |states|
    ensures Rank(states[i], id) <= Rank(states[j], id)
    decreases j
  {
    if i < j {
      RunClimbs(w, states, steps, i, j - 1, id);
      assert Follows(w, states, steps, j - 1);
      StepClimbs(w, states[j - 1], steps[j - 1], id);
    }
  }

  /** A check climbs its ladder rung by rung: of two of its steps the later is higher up, so it takes none twice. */
  lemma StepsAreOnceAndInOrder(w: World, states: seq<State>, steps: seq<Step>, k: nat, l: nat, id: nat)
    requires IsRun(w, states, steps) && k < |steps| && l < |steps|
    requires Rung(steps[k], id).Some? && Rung(steps[l], id).Some?
    ensures k < l <==> Rung(steps[k], id).value < Rung(steps[l], id).value
    ensures k == l <==> Rung(steps[k], id) == Rung(steps[l], id)
  {
    if k < l {
      EarlierIsLower(w, states, steps, k, l, id);
    } else if l < k {
      EarlierIsLower(w, states, steps, l, k, id);
    }
  }

  lemma EarlierIsLower(w: World, states: seq<State>, steps: seq<Step>, k: nat, l: nat, id: nat)
    requires IsRun(w, states, steps) && k < l < |steps|
    requires Rung(steps[k], id).Some? && Rung(steps[l], id).Some?
    ensures Rung(steps[k], id).value < Rung(steps[l], id).value
  {
    assert Follows(w, states, steps, k) && Follows(w, states, steps, l);
    StepClimbs(w, states[k], steps[k], id);
    RunClimbs(w, states, steps, k + 1, l, id);
    StepClimbs(w, states[l], steps[l], id);
  }

  // ----- The cache -----

  /** The check has read the cache: it got past the guard and is not waiting for the screen. */
  predicate HasScreened(w: World, c: Check) {
    || c.stage.PastScreen? || c.stage.Missed? || c.stage.Replied?
    || (c.stage.Finished? && c.node in w.nodes && Guarded(w.nodes[c.node].cfg, c.http, c.cid).Ok?)
  }

  /** Step k is the check's screen, and the check still holds what it read. */
  ghost predicate ScreenedAt(states: seq<State>, steps: seq<Step>, k: nat, c: Check, id: nat)
    requires k < |steps| && |states| == |steps| + 1
  {
    steps[k] == Screen(id) && c.node in states[k].revoked && c.seen == states[k].revoked[c.node]
  }

  lemma SeenStep(w: World, s: State, a: Step, id: nat)
    requires Enabled(w, s, a) && id in Next(w, s, a).checks && HasScreened(w, Next(w, s, a).checks[id])
    ensures var c := Next(w, s, a).checks[id];
            || (a == Screen(id) && c.node in s.revoked && c.seen == s.revoked[c.node])
            || (id in s.checks && HasScreened(w, s.checks[id]) && c.node == s.checks[id].node
                && c.seen == s.checks[id].seen)
  {}

  lemma {:induction false} FindScreen(w: World, states: seq<State>, steps: seq<Step>, j: nat, id: nat) returns (k: nat)
    requires IsRun(w, states, steps) && j < |states|
    requires id in states[j].checks && HasScreened(w, states[j].checks[id])
    ensures k < j && ScreenedAt(states, steps, k, states[j].checks[id], id)
  {
    CheckHasAStep(w, states, steps, j, id);
    SeenStep(w, states[j - 1], steps[j - 1], id);
    if ScreenedAt(states, steps, j - 1, states[j].checks[id], id) {
      k := j - 1;
    } else {
      k := FindScreen(w, states, steps, j - 1, id);
    }
  }

  /** A check that has read the cache never reads it again. */
  predicate PastScreening(c: Check) {
    !c.stage.Arrived? && !c.stage.PastGuard?
  }

  lemma ScreenIsOnce(w: World, s: State, a: Step, id: nat)
    requires Enabled(w, s, a) && id in s.checks
    ensures a == Screen(id) ==>
              var c := Next(w, s, a).checks[id];
              PastScreening(c) && c.node == s.checks[id].node && c.node in s.revoked && c.seen == s.revoked[c.node]
    ensures PastScreening(s.checks[id]) ==>
              var c := Next(w, s, a).checks[id];
              PastScreening(c) && c.node == s.checks[id].node && c.seen == s.checks[id].seen
  {}

  /** What a check read at its screen it holds to the end. */
  lemma {:induction false} SeenStays(w: World, states: seq<State>, steps: seq<Step>, k: nat, j: nat, id: nat)
    requires IsRun(w, states, steps) && k < j < |states| && steps[k] == Screen(id)
    ensures id in states[j].checks && PastScreening(states[j].checks[id])
    ensures ScreenedAt(states, steps, k, states[j].checks[id], id)
    decreases j
  {
    if k + 1 < j {
      SeenStays(w, states, steps, k, j - 1, id);
    }
    assert Follows(w, states, steps, j - 1);
    ScreenIsOnce(w, states[j - 1], steps[j - 1], id);
  }

  // ----- The clock -----

  /** The check has tried its token: it got past the screen and is not waiting for the trial. */
  predicate HasTried(w: World, c: Check) {
    || c.stage.Missed? || c.stage.Replied?
    || (c.stage.Finished? && c.node in w.nodes && Guarded(w.nodes[c.node].cfg, c.http, c.cid).Ok? && Unrevoked(c))
  }

  ghost predicate TriedAt(states: seq<State>, steps: seq<Step>, k: nat, c: Check, id: nat)
    requires k < |steps| && |states| == |steps| + 1
  {
    steps[k] == TryToken(id) && c.triedAt == states[k].now
  }

  lemma TrialStep(w: World, s: State, a: Step, id: nat)
    requires Enabled(w, s, a) && id in Next(w, s, a).checks && HasTried(w, Next(w, s, a).checks[id])
    ensures var c := Next(w, s, a).checks[id];
            || (a == TryToken(id) && c.triedAt == s.now)
            || (id in s.checks && HasTried(w, s.checks[id]) && c.triedAt == s.checks[id].triedAt)
  {}

  lemma {:induction false} FindTrial(w: World, states: seq<State>, steps: seq<Step>, j: nat, id: nat) returns (k: nat)
    requires IsRun(w, states, steps) && j < |states|
    requires id in states[j].checks && HasTried(w, states[j].checks[id])
    ensures k < j && TriedAt(states, steps, k, states[j].checks[id], id)
  {
    CheckHasAStep(w, states, steps, j, id);
    TrialStep(w, states[j - 1], steps[j - 1], id);
    if TriedAt(states, steps, j - 1, states[j].checks[id], id) {
      k := j - 1;
    } else {
      k := FindTrial(w, states, steps, j - 1, id);
    }
  }

  // ----- The PDP's answer -----

  /** The request with which the check goes to the PDP, if it gets there. */
  function Asked(w: World, c: Check): Option<Request> {
    if c.node !in w.nodes then None
    else match BeforePdp(w.nodes[c.node].cfg, c.http, c.cid, c.seen, c.triedAt)
      case Err(_) => None
      case Ok(r) => Some(r)
  }

  predicate HasAsked(w: World, c: Check) {
    (c.stage.Replied? || c.stage.Finished?) && Asked(w, c).Some?
  }

  /** Step a in state s is the check's call to the PDP, and the check still holds the answer to its request, or that
      none came. */
  ghost predicate Answers(w: World, s: State, a: Step, c: Check, id: nat) {
    && a.AskPdp? && a.id == id && c.node in w.nodes && Asked(w, c).Some?
    && c.reply == if a.fate.Delivered? then Remote(w.nodes[c.node].wire, w.svc, s.now, Asked(w, c).value) else Err(())
  }

  /** Where a check stands before its answer, its ladder so far agrees with its stage. */
  lemma StageAsks(w: World, s: State, c: Check)
    requires OnLadder(w, c)
    ensures c.stage.Missed? ==> Asked(w, c) == Some(c.stage.request)
    ensures c.stage.Replied? ==> Asked(w, c) == Some(c.stage.request)
  {}

  lemma NothingAskedBefore(w: World, s: State, a: Step, id: nat)
    requires Enabled(w, s, a) && id in s.checks && OnLadder(w, s.checks[id]) && (a == Guard(id) || a == Screen(id))
    ensures !HasAsked(w, Next(w, s, a).checks[id])
  {}

  lemma NothingAskedAtTrial(w: World, s: State, id: nat)
    requires Enabled(w, s, TryToken(id)) && OnLadder(w, s.checks[id])
    ensures !HasAsked(w, Next(w, s, TryToken(id)).checks[id])
  {}

  lemma AnswerStep(w: World, s: State, id: nat, fate: Fate)
    requires Enabled(w, s, AskPdp(id, fate)) && OnLadder(w, s.checks[id])
    ensures Answers(w, s, AskPdp(id, fate), Next(w, s, AskPdp(id, fate)).checks[id], id)
  {
    StageAsks(w, s, s.checks[id]);
  }

  predicate SameAnswer(w: World, c: Check, d: Check) {
    c.node == d.node && c.reply == d.reply && Asked(w, c) == Asked(w, d)
  }

  /** Any other step of the check leaves its request and its answer alone. */
  lemma OtherStep(w: World, s: State, a: Step, id: nat)
    requires Enabled(w, s, a) && id in Next(w, s, a).checks && HasAsked(w, Next(w, s, a).checks[id])
    requires a != Guard(id) && a != Screen(id) && a != TryToken(id) && !(a.AskPdp? && a.id == id)
    requires id in s.checks ==> OnLadder(w, s.checks[id])
    ensures id in s.checks && HasAsked(w, s.checks[id]) && SameAnswer(w, Next(w, s, a).checks[id], s.checks[id])
  {}

  /** What the check holds of the PDP comes of this very step, or was there before it. */
  ghost predicate ComesFrom(w: World, s: State, a: Step, c: Check, id: nat) {
    || Answers(w, s, a, c, id)
    || (id in s.checks && HasAsked(w, s.checks[id]) && SameAnswer(w, c, s.checks[id]))
  }

  lemma AskedStep(w: World, s: State, a: Step, after: State, id: nat)
    requires Enabled(w, s, a) && after == Next(w, s, a) && (id in s.checks ==> OnLadder(w, s.checks[id]))
    requires id in after.checks && HasAsked(w, after.checks[id])
    ensures ComesFrom(w, s, a, after.checks[id], id)
  {
    if a == Guard(id) || a == Screen(id) {
      NothingAskedBefore(w, s, a, id);
    } else if a == TryToken(id) {
      NothingAskedAtTrial(w, s, id);
    } else if a.AskPdp? && a.id == id {
      AnswerStep(w, s, id, a.fate);
    } else {
      OtherStep(w, s, a, id);
    }
  }

  lemma AnswerSoFar(w: World, states: seq<State>, steps: seq<Step>, i: nat, id: nat)
    requires IsRun(w, states, steps) && i < |steps|
    requires id in states[i + 1].checks && HasAsked(w, states[i + 1].checks[id])
    ensures ComesFrom(w, states[i], steps[i], states[i + 1].checks[id], id)
  {
    if id in states[i].checks {
      RunStaysOnLadder(w, states, steps, i, id);
    }
    assert Follows(w, states, steps, i);
    AskedStep(w, states[i], steps[i], states[i + 1], id);
  }

  lemma {:induction false} FindAnswer(w: World, states: seq<State>, steps: seq<Step>, j: nat, id: nat) returns (k: nat)
    requires IsRun(w, states, steps) && j < |states|
    requires id in states[j].checks && HasAsked(w, states[j].checks[id])
    ensures k < j && Answers(w, states[k], steps[k], states[j].checks[id], id)
  {
    assert j > 0;
    k := j - 1;
    AnswerSoFar(w, states, steps, k, id);
    if !Answers(w, states[k], steps[k], states[j].checks[id], id) {
      k := FindAnswer(w, states, steps, j - 1, id);
    }
  }

  // ----- The outcome -----

  /** What the check recorded is what the run held at its own steps before j, as far as the ladder gets to use it. */
  ghost predicate Observed(w: World, states: seq<State>, steps: seq<Step>, j: nat, id: nat, c: Check)
    requires j <= |steps| && |states| == |steps| + 1
  {
    && (HasScreened(w, c) ==> exists k :: 0 <= k < j && ScreenedAt(states, steps, k, c, id))
    && (HasTried(w, c) ==> exists k :: 0 <= k < j && TriedAt(states, steps, k, c, id))
    && (HasAsked(w, c) ==> exists k :: 0 <= k < j && Answers(w, states[k], steps[k], c, id))
  }

  /** In any world, a finished check reports exactly what the uninterrupted ladder gives for the cache at its screen,
      the clock at the trial of its token, and the PDP's answer to its call. It takes each of these steps at most once,
      by StepsAreOnceAndInOrder. */
  lemma OutcomeIsTheLadders(w: World, states: seq<State>, steps: seq<Step>, j: nat, id: nat)
    requires IsRun(w, states, steps) && j < |states|
    requires id in states[j].checks && states[j].checks[id].stage.Finished?
    ensures var c := states[j].checks[id];
            && c.node in w.nodes
            && c.stage.out == Checked(w.nodes[c.node].cfg, c.http, c.cid, c.seen, c.triedAt, (r: Request) => c.reply)
            && Observed(w, states, steps, j, id, c)
  {
    RunStaysOnLadder(w, states, steps, j, id);
    var c := states[j].checks[id];
    if HasScreened(w, c) {
      var k := FindScreen(w, states, steps, j, id);
    }
    if HasTried(w, c) {
      var k := FindTrial(w, states, steps, j, id);
    }
    if HasAsked(w, c) {
      var k := FindAnswer(w, states, steps, j, id);
    }
  }
}
