/** Runs of the merge protocol built up step by step, with the assumptions each keeps. */
module UploadRuns {
  import opened Prelude
  import opened UploadProtocol
  import opened UploadSafety
  import opened UploadExactness
  import opened UploadCalm
  import opened UploadOnce

  /** The one assumption of a calm run that a run may break. */
  datatype Lapse = Nothing | CheckLapse | ProbeLapse | EvictLapse | ExpiryLapse

  predicate Lapses(a: Action, lapse: Lapse) {
    match lapse
    case Nothing => false
    case CheckLapse => a.CheckFinal?
    case ProbeLapse => a.ProbeFinal?
    case EvictLapse => a.Evict?
    case ExpiryLapse => a.ExpireChunk?
  }

  /** Calm but for that. */
  ghost predicate CalmBut(s: State, run: seq<Action>, lapse: Lapse)
    requires Legal(s, run)
    decreases |run|
  {
    run == [] || ((Calm(s, run[0]) || Lapses(run[0], lapse)) && CalmBut(Apply(s, run[0]), run[1..], lapse))
  }

  lemma {:induction false} CalmButNothing(s: State, run: seq<Action>)
    requires Legal(s, run)
    ensures CalmBut(s, run, Nothing) <==> CalmRun(s, run)
    decreases |run|
  {
    if run != [] { CalmButNothing(Apply(s, run[0]), run[1..]); }
  }

  lemma {:induction false} CalmIsCalmBut(s: State, run: seq<Action>, lapse: Lapse)
    requires Legal(s, run) && CalmBut(s, run, Nothing)
    ensures CalmBut(s, run, lapse)
    decreases |run|
  {
    if run != [] { CalmIsCalmBut(Apply(s, run[0]), run[1..], lapse); }
  }

  /** Which assumptions a run keeps. */
  datatype Keeps = Keeps(lapse: Lapse, serial: bool)

  /** `run` leads from `s` to `t` and keeps the assumptions asked for. */
  ghost predicate Leads(k: Keeps, s: State, run: seq<Action>, t: State) {
    && Legal(s, run) && After(s, run) == t
    && CalmBut(s, run, k.lapse)
    && (k.serial ==> SerialRun(s, run))
  }

  ghost predicate Reaches(p: Plan, k: Keeps, s: State, t: State) {
    exists run :: Leads(k, s, run, t) && RunFollows(p, run)
  }

  lemma {:induction false} LeadsOn(k: Keeps, s: State, run: seq<Action>, t: State, more: seq<Action>, u: State)
    requires Leads(k, s, run, t) && Leads(k, t, more, u)
    ensures Leads(k, s, run + more, u)
    decreases |run|
  {
    if run == [] {
      assert run + more == more;
    } else {
      assert (run + more)[1..] == run[1..] + more;
      LeadsOn(k, Apply(s, run[0]), run[1..], t, more, u);
    }
  }

  lemma Then(p: Plan, k: Keeps, s: State, t: State, u: State)
    requires Reaches(p, k, s, t) && Reaches(p, k, t, u)
    ensures Reaches(p, k, s, u)
  {
    var run :| Leads(k, s, run, t) && RunFollows(p, run);
    var more :| Leads(k, t, more, u) && RunFollows(p, more);
    LeadsOn(k, s, run, t, more, u);
  }

  lemma OneStep(p: Plan, k: Keeps, s: State, a: Action, t: State)
    requires Enabled(s, a) && Follows(p, a) && Apply(s, a) == t
    requires Calm(s, a) || Lapses(a, k.lapse)
    requires k.serial ==> InTurn(s, a)
    ensures Reaches(p, k, s, t)
  {
    var run := [a];
    assert run[1..] == [];
    assert Leads(k, t, run[1..], t);
    assert Leads(k, s, run, t);
  }

  lemma Step(p: Plan, k: Keeps, s: State, a: Action, t: State)
    requires Enabled(s, a) && Follows(p, a) && Apply(s, a) == t && Calm(s, a)
    requires a.Arrive? && k.serial ==> forall r :: !Unfinished(s, r)
    ensures Reaches(p, k, s, t)
  {
    OneStep(p, k, s, a, t);
  }

  /** A step the environment is not calm at. */
  lemma Lapsing(p: Plan, k: Keeps, s: State, a: Action, t: State)
    requires Enabled(s, a) && Apply(s, a) == t && Lapses(a, k.lapse)
    ensures Reaches(p, k, s, t)
  {
    OneStep(p, k, s, a, t);
  }

  lemma Weaken(p: Plan, s: State, t: State, k: Keeps)
    requires Reaches(p, Keeps(Nothing, true), s, t)
    ensures Reaches(p, k, s, t)
  {
    var run :| Leads(Keeps(Nothing, true), s, run, t) && RunFollows(p, run);
    CalmIsCalmBut(s, run, k.lapse);
    assert Leads(k, s, run, t);
  }

  /** A run that keeps a calm environment, as the theorems ask for it. */
  lemma CalmRunOf(p: Plan, k: Keeps, s: State, t: State) returns (run: seq<Action>)
    requires Reaches(p, k, s, t) && k.lapse == Nothing
    ensures Leads(k, s, run, t) && RunFollows(p, run) && CalmRun(s, run)
  {
    run :| Leads(k, s, run, t) && RunFollows(p, run);
    CalmButNothing(s, run);
  }

  lemma Stay(p: Plan, k: Keeps, s: State)
    ensures Reaches(p, k, s, s)
  {
    assert Leads(k, s, [], s);
  }
}
