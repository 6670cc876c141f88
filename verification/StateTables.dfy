/** The model lifecycle table, and what holds on every run of it, whatever its length. */
module ModelLifecycle {

  datatype State =
    | Discovered | Catalogued | Evaluating | Approved | Shadow | Canary | Production | Degraded | Deprecated | Retired

  function Next(s: State): set<State> {
    match s
    case Discovered => {Catalogued}
    case Catalogued => {Evaluating, Deprecated}
    case Evaluating => {Approved, Catalogued, Deprecated}
    case Approved => {Shadow, Canary, Production, Degraded, Deprecated}
    case Shadow => {Canary, Approved, Deprecated}
    case Canary => {Production, Approved, Degraded, Deprecated}
    case Production => {Degraded, Deprecated}
    case Degraded => {Production, Canary, Deprecated}
    case Deprecated => {Retired}
    case Retired => {}
  }

  /** The same table by target: from which states each one is entered. */
  lemma EnteredFrom(s: State)
    ensures Discovered !in Next(s)
    ensures Catalogued in Next(s) <==> s == Discovered || s == Evaluating
    ensures Evaluating in Next(s) <==> s == Catalogued
    ensures Approved in Next(s) <==> s == Evaluating || s == Shadow || s == Canary
    ensures Shadow in Next(s) <==> s == Approved
    ensures Canary in Next(s) <==> s == Approved || s == Shadow || s == Degraded
    ensures Production in Next(s) <==> s == Approved || s == Canary || s == Degraded
    ensures Degraded in Next(s) <==> s == Approved || s == Canary || s == Production
    ensures Deprecated in Next(s) <==> s != Discovered && s != Deprecated && s != Retired
    ensures Retired in Next(s) <==> s == Deprecated
  {
  }

  const PROMOTION_TARGETS := {Approved, Shadow, Canary, Production}

  /** The third phase is the serving one; the operator-terminal states are the last two. */
  function Phase(s: State): nat {
    match s
    case Discovered => 0
    case Catalogued => 1
    case Evaluating => 1
    case Approved => 2
    case Shadow => 2
    case Canary => 2
    case Production => 2
    case Degraded => 2
    case Deprecated => 3
    case Retired => 4
  }

  const SERVING := 2

  ghost predicate IsRun(path: seq<State>) {
    path != [] && forall i :: 0 <= i < |path| - 1 ==> path[i + 1] in Next(path[i])
  }

  /** Every step is one that a single verified principal may apply. */
  ghost predicate WithoutPromotion(path: seq<State>) {
    forall i :: 0 < i < |path| ==> path[i] !in PROMOTION_TARGETS
  }

  lemma {:induction false} PhasesNeverDecrease(path: seq<State>, i: nat, j: nat)
    requires IsRun(path) && i <= j < |path|
    ensures Phase(path[i]) <= Phase(path[j])
  {
    if i < j {
      PhasesNeverDecrease(path, i, j - 1);
      assert path[(j - 1) + 1] in Next(path[j - 1]);
    }
  }

  /** A run that starts below the serving phase enters it once, by the step from Evaluating to Approved. */
  lemma {:induction false} EnteredByApproval(path: seq<State>, j: nat) returns (i: nat)
    requires IsRun(path) && j < |path| && Phase(path[0]) < SERVING && Phase(path[j]) == SERVING
    ensures i < j && path[i] == Evaluating && path[i + 1] == Approved
    ensures forall k :: 0 <= k <= j ==> (Phase(path[k]) == SERVING <==> i < k)
  {
    assert path[(j - 1) + 1] in Next(path[j - 1]);
    if Phase(path[j - 1]) == SERVING {
      i := EnteredByApproval(path, j - 1);
    } else {
      i := j - 1;
      forall k | 0 <= k <= i ensures Phase(path[k]) < SERVING {
        PhasesNeverDecrease(path, k, i);
      }
    }
  }

  lemma {:induction false} NeverServesWithoutPromotion(path: seq<State>, j: nat)
    requires IsRun(path) && WithoutPromotion(path) && Phase(path[0]) < SERVING && j < |path|
    ensures Phase(path[j]) != SERVING
  {
    if Phase(path[j]) == SERVING {
      var i := EnteredByApproval(path, j);
      assert false;
    }
  }

  /** Without promotion a serving model is retired or left within three steps. */
  lemma LeavesServiceInThree(path: seq<State>)
    requires IsRun(path) && WithoutPromotion(path) && Phase(path[0]) == SERVING
    ensures |path| <= 4
  {
    assert |path| > 1 ==> path[0 + 1] in Next(path[0]);
    assert |path| > 2 ==> path[1 + 1] in Next(path[1]);
    assert |path| > 3 ==> path[2 + 1] in Next(path[2]);
    assert |path| > 4 ==> path[3 + 1] in Next(path[3]);
  }

  /** The serving states reach one another without deprecation, in at most four steps. */
  lemma ServingConnected(s: State, t: State) returns (path: seq<State>)
    requires Phase(s) == SERVING && Phase(t) == SERVING
    ensures IsRun(path) && path[0] == s && path[|path| - 1] == t && |path| <= 5
    ensures forall i :: 0 <= i < |path| ==> Phase(path[i]) == SERVING
  {
    var back := match s
                case Approved => [Approved]
                case Shadow => [Shadow, Approved]
                case Canary => [Canary, Approved]
                case Production => [Production, Degraded, Canary, Approved]
                case _ => [Degraded, Canary, Approved];
    path := if s == t then [s] else if t == Approved then back else back + [t];
    EnteredFrom(Approved);
  }

  /** The promotion targets are the serving states but the degraded one. */
  lemma PromotionTargets(s: State)
    ensures s in PROMOTION_TARGETS <==> Phase(s) == SERVING && s != Degraded
    ensures Phase(s) == SERVING <==> s in {Approved, Shadow, Canary, Production, Degraded}
  {
  }

  lemma RetiredReachable(s: State) returns (path: seq<State>)
    ensures IsRun(path) && path[0] == s && path[|path| - 1] == Retired
    ensures |path| <= 4
  {
    path := match s
            case Discovered => [s, Catalogued, Deprecated, Retired]
            case Deprecated => [s, Retired]
            case Retired => [s]
            case _ => [s, Deprecated, Retired];
  }
}

/** The workflow-pack queue table. */
module QueueStates {

  datatype State =
    | NotAdmitted | Queued | Admitted | Running | Rejected | Cancelled | TimedOut | Degraded | CompletedHandoff

  const TERMINAL := {Rejected, Cancelled, TimedOut, Degraded, CompletedHandoff}

  function Next(s: State): set<State> {
    match s
    case NotAdmitted => {Queued, Rejected, Degraded}
    case Queued => {Admitted, Cancelled, TimedOut, Degraded}
    case Admitted => {Running, Cancelled, TimedOut, Degraded}
    case Running => {Cancelled, TimedOut, Degraded, CompletedHandoff}
    case _ => {}
  }

  ghost predicate IsRun(path: seq<State>) {
    && path != [] && path[0] == NotAdmitted
    && forall i :: 0 <= i < |path| - 1 ==> path[i + 1] in Next(path[i])
  }

  lemma TerminalIffNoSuccessor(s: State)
    ensures s in TERMINAL <==> Next(s) == {}
  {
    if s !in TERMINAL {
      assert Degraded in Next(s);
    }
  }

  /** Where a run that has not stopped is, by the number of steps it has made. */
  const STAGES := [NotAdmitted, Queued, Admitted, Running]

  /** What can follow each stage: the next stage, completion after the last, degradation always, rejection at first
      and cancellation or timeout later on. */
  lemma AfterStage(i: nat, t: State)
    requires i < 4
    ensures t in Next(STAGES[i]) <==>
            || (i < 3 && t == [NotAdmitted, Queued, Admitted, Running][i + 1]) || (i == 3 && t == CompletedHandoff)
            || t == Degraded || (i == 0 && t == Rejected) || (i > 0 && (t == Cancelled || t == TimedOut))
  {
  }

  /** Every stage can go on to completion. */
  lemma CompletionReachable() returns (path: seq<State>)
    ensures IsRun(path) && path == [NotAdmitted, Queued, Admitted, Running, CompletedHandoff]
  {
    path := [NotAdmitted, Queued, Admitted, Running, CompletedHandoff];
  }

  /** The terminal states are the five ends. */
  lemma TerminalStates(s: State)
    ensures s in TERMINAL <==> s != NotAdmitted && s != Queued && s != Admitted && s != Running
  {
  }

  lemma {:induction false} StageOf(path: seq<State>, i: nat)
    requires IsRun(path) && i < |path|
    ensures i < 5 && (path[i] in TERMINAL ==> 0 < i)
    ensures path[i] !in TERMINAL ==> i < 4 && path[i] == STAGES[i]
    ensures forall k :: 0 <= k < i ==> path[k] == STAGES[k]
  {
    if i > 0 {
      StageOf(path, i - 1);
      assert path[(i - 1) + 1] in Next(path[i - 1]);
      TerminalIffNoSuccessor(path[i - 1]);
    }
  }

  /** At most four steps, no state twice, completion only through every stage, rejection only at once. */
  lemma EveryRun(path: seq<State>)
    requires IsRun(path)
    ensures |path| <= 5
    ensures forall i, j :: 0 <= i < j < |path| ==> path[i] != path[j]
    ensures forall i :: 0 <= i < |path| && path[i] == CompletedHandoff ==> path == STAGES + [CompletedHandoff]
    ensures forall i :: 0 <= i < |path| && path[i] == Rejected ==> i == 1
  {
    StageOf(path, |path| - 1);
    forall i | 0 <= i < |path|
      ensures path[i] == CompletedHandoff ==> path == STAGES + [CompletedHandoff]
      ensures path[i] == Rejected ==> i == 1
    {
      StageOf(path, i);
      if path[i] in TERMINAL {
        assert i == |path| - 1;
        assert path[(i - 1) + 1] in Next(path[i - 1]);
      }
    }
  }
}
