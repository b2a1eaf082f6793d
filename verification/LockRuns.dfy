/** Everything that holds in every state of every run. */
module LockRuns {
  import opened Prelude
  import opened LockServer
  import opened LockProtocol
  import opened LockInvariant
  import opened LockRounds
  import opened LockSessions
  import opened LockHistory
  import opened LockEarly
  import opened LockFinished
  import opened LockGrants
  import Access

  ghost predicate Good(s: State) {
    Core(s) && Bounded(s) && Epochs(s) && Recorded(s) && Early(s) && Finishes(s) && Granting(s)
  }

  predicate Reaches(init: State, acts: seq<Action>, s: State) {
    Init(init) && Run(init, acts) == Next(s)
  }

  lemma InitRecorded(s: State)
    requires Init(s)
    ensures Recorded(s)
  {
    assert Access.AsStore([]) == map[];
    forall a | a in s.hosts ensures HostRecorded(s, a) {
      assert Pipeline(s, a) == [];
    }
  }

  lemma InitEarly(s: State)
    requires Init(s)
    ensures Early(s) && Finishes(s) && Granting(s)
  {
  }

  lemma InitRounds(s: State)
    requires Init(s)
    ensures Bounded(s) && Epochs(s)
  {
  }

  lemma InitGood(s: State)
    requires Init(s)
    ensures Good(s)
  {
    InitCore(s);
    hide Init, Core, Bounded, Epochs, Recorded, Early, Finishes, Granting;
    InitRecorded(s);
    InitEarly(s);
    InitRounds(s);
  }

  lemma StepGood(s: State, act: Action)
    requires Good(s)
    ensures Step(s, act) != Crash
    ensures Step(s, act).Next? ==> Good(Step(s, act).state)
  {
    hide Core, Step, Bounded, Epochs, Recorded, Early, Finishes, Granting;
    StepKeeps(s, act);
    if Step(s, act).Next? {
      StepBounded(s, act);
      StepEpochs(s, act);
      StepRecorded(s, act);
      StepEarly(s, act);
      StepFinishes(s, act);
      StepGranting(s, act);
    }
  }

  lemma {:induction false} RunGood(s: State, acts: seq<Action>)
    requires Init(s)
    ensures Run(s, acts) != Crash
    ensures Run(s, acts).Next? ==> Good(Run(s, acts).state)
  {
    hide Good, Step, Init;
    if acts == [] {
      InitGood(s);
    } else {
      RunGood(s, acts[..|acts| - 1]);
      var m := Run(s, acts[..|acts| - 1]);
      if m.Next? { StepGood(m.state, acts[|acts| - 1]); }
    }
  }

  lemma ReachableIsGood(init: State, acts: seq<Action>, s: State)
    requires Reaches(init, acts, s)
    ensures Good(s)
  {
    RunGood(init, acts);
  }
}
