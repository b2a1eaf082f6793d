/**
 When the scheduler makes no progress any more. A completion starts at most one pending activity, and only a
 completion looks at the pending list (src/core/queue.cpp:85-96, 177-187).
 */
module ActivityProgress {
  import opened Prelude
  import opened ActivityQueue
  import opened ActivityAnswers
  import opened ActivityThrows

  // ---- When nothing completes any more ----

  /** Nothing that can still happen changes what is active or what has completed. */
  ghost predicate Stuck(s: State) {
    forall acts, n :: Run(s, acts) == Next(n) ==> n.lists.active == s.lists.active && n.completed == s.completed
  }

  /** The activity that is next in the order of starting. */
  function NextUp(s: State): Option<Activity> {
    if s.lists.pending != [] then Some(s.lists.pending[0])
    else if StartsIn(s.queue) != [] then Some(StartsIn(s.queue)[0])
    else None
  }

  /**
   No completion is outstanding, nobody active waits for an answer, and what would be started next is in the pending
   list already or about to be put there.
   */
  predicate Halted(s: State) {
    && CompletesIn(s.queue) == []
    && (forall i :: 0 <= i < |s.lists.active| ==> !s.lists.active[i].role.Asks?)
    && NextUp(s).Some? && (s.lists.pending != [] || !Viable(NextUp(s).value, s.lists.active))
  }

  /** A step of a halted scheduler moves activities to the pending list and does nothing else. */
  lemma HaltedStays(s: State, act: Action)
    requires Halted(s) && Step(s, act).Next?
    ensures var n := Step(s, act).state;
            && Halted(n) && n.lists.active == s.lists.active && n.completed == s.completed && n.posts == s.posts
            && n.started == s.started && s.lists.pending <= n.lists.pending
  {
    match act
    case Post(a) =>
      EventsAppend(s.queue, [Start(a)]);
    case Arrive(r) =>
      EventsAppend(s.queue, [Answer(r)]);
      assert StartsIn([Answer(r)]) == CompletesIn([Answer(r)]) == [];
    case Process =>
      if s.queue[0].Start? && s.lists.pending == [] {
        assert NextUp(s) == Some(s.queue[0].a);
      } else if s.queue[0].Answer? {
        assert TakerIndex(s.lists.active, s.queue[0].reply.key) == |s.lists.active|;
      }
  }

  lemma {:induction false} HaltedForEver(s: State, acts: seq<Action>)
    requires Halted(s) && Run(s, acts).Next?
    ensures var n := Run(s, acts).state;
            && Halted(n) && n.lists.active == s.lists.active && n.completed == s.completed && n.posts == s.posts
            && n.started == s.started && s.lists.pending <= n.lists.pending
  {
    hide Halted, Step;
    if acts != [] {
      HaltedForEver(s, acts[..|acts| - 1]);
      HaltedStays(Run(s, acts[..|acts| - 1]).state, acts[|acts| - 1]);
    }
  }

  // ---- Otherwise something can happen ----

  function FirstCompletion(q: seq<Event>): (k: nat)
    requires CompletesIn(q) != []
    ensures k < |q| && q[k].Complete? && forall i :: 0 <= i < k ==> !q[i].Complete?
  {
    if q[0].Complete? then 0 else 1 + FirstCompletion(q[1..])
  }

  lemma {:induction false} FirstStays(q: seq<Event>, r: seq<Event>)
    requires CompletesIn(q) != []
    ensures CompletesIn(q + r) != [] && FirstCompletion(q + r) == FirstCompletion(q)
  {
    assert (q + r)[0] == q[0] && (q + r)[1..] == q[1..] + r;
    if !q[0].Complete? {
      FirstStays(q[1..], r);
    }
  }

  lemma CompletionCounts(s: State, a: Activity)
    requires a in s.lists.active && s.queue != [] && s.queue[0] == Complete(a)
    ensures Step(s, Process).Next? && Step(s, Process).state.completed == s.completed + [a]
  {
    ProcessExtends(s);
    hide TellAll, Without, IndexOf, Viable, Begin;
  }

  /** An outstanding completion is handled once the events before it have been. */
  lemma {:induction false} CompletionComes(s: State) returns (acts: seq<Action>, n: State)
    requires Inv(s) && CompletesIn(s.queue) != [] && s.queue[FirstCompletion(s.queue)].a in s.lists.active
    ensures Run(s, acts) == Next(n) && |n.completed| > |s.completed|
    decreases FirstCompletion(s.queue)
  {
    hide Inv, Step;
    var k := FirstCompletion(s.queue);
    StepKeeps(s, Process);
    CanStep(s);
    if k == 0 {
      CompletionCounts(s, s.queue[0].a);
      acts, n := [Process], Step(s, Process).state;
      RunOne(s, Process);
    } else {
      var m := Step(s, Process).state;
      ProcessExtends(s);
      ActiveAfter(s, m, s.queue[k].a);
      assert m.queue == s.queue[1..] + m.queue[|s.queue[1..]|..];
      FirstStays(s.queue[1..], m.queue[|s.queue[1..]|..]);
      var rest;
      rest, n := CompletionComes(m);
      RunFront(s, Process, m, rest);
      acts := [Process] + rest;
    }
  }

  lemma {:induction false} UnusedId(known: set<Activity>) returns (id: nat)
    ensures forall a :: a in known ==> a.id < id
  {
    if known == {} {
      id := 0;
    } else {
      var a :| a in known;
      id := UnusedId(known - {a});
      if a.id >= id { id := a.id + 1; }
    }
  }

  /** With no event left and nothing pending a new activity is started. */
  lemma NewOneStarts(s: State) returns (acts: seq<Action>, n: State)
    requires s.queue == [] && s.lists.pending == []
    ensures Run(s, acts) == Next(n) && n.lists.active != s.lists.active
  {
    var id := UnusedId(s.known);
    var a := Activity(id, None, Resident);
    var m := Step(s, Post(a)).state;
    n := Step(m, Process).state;
    acts := [Post(a)] + [Process];
    RunFront(s, Post(a), m, [Process]);
    RunOne(m, Process);
    assert n.lists.active == s.lists.active + [a];
  }

  lemma NextStarts(s: State) returns (acts: seq<Action>, n: State)
    requires s.queue != [] && s.queue[0].Start? && s.lists.pending == [] && Viable(s.queue[0].a, s.lists.active)
    ensures Run(s, acts) == Next(n) && n.lists.active != s.lists.active
  {
    n := Step(s, Process).state;
    acts := [Process];
    RunOne(s, Process);
    assert |n.lists.active| == |s.lists.active| + 1;
  }

  /** The first completion in the queue of a sound scheduler is that of an active activity. */
  lemma FirstIsActive(s: State)
    requires Sound(s) && CompletesIn(s.queue) != []
    ensures s.queue[FirstCompletion(s.queue)].a in s.lists.active
  {
    hide NoDuplicates, ListsOk, ParentsOk, Families, AskersOk, Behind;
    StartedSplits(s);
    var a := s.queue[FirstCompletion(s.queue)].a;
    FirstIs(s.queue);
    JoinNoDuplicates(s.completed, CompletesIn(s.queue));
    assert a in CompletesIn(s.queue) && a in s.posts;
  }

  lemma {:induction false} FirstIs(q: seq<Event>)
    requires CompletesIn(q) != []
    ensures CompletesIn(q)[0] == q[FirstCompletion(q)].a
  {
    if !q[0].Complete? {
      FirstIs(q[1..]);
    }
  }

  ghost predicate Changed(s: State, n: State) {
    n.lists.active != s.lists.active || n.completed != s.completed
  }

  lemma WaitsForSome(s: State, a: Activity) returns (r: Reply)
    requires Sound(s) && CompletesIn(s.queue) == [] && a in s.lists.active && a.role.Asks?
    ensures r in Open(s)
  {
    hide NoDuplicates, ListsOk, ParentsOk, Families, Behind, OwedBy;
    ActiveIsStarted(s);
    StartedSplits(s);
    assert s.posts == s.completed && a !in s.posts;
    var c :| c in s.left[a];
    OwedIsOpen(s.lists.active, s.left, a, c);
    r := Reply(a.role.key, c);
  }

  /** While somebody active waits for an answer, an answer comes, and in the end something is started or completed. */
  lemma {:induction false} AskerMoves(s: State, a: Activity) returns (acts: seq<Action>, n: State)
    requires Sound(s) && !Clash(s) && a in s.lists.active && a.role.Asks?
    ensures Run(s, acts) == Next(n) && Changed(s, n)
    decreases |s.flight|, |s.queue|
  {
    hide Sound, Inv, Clash, Step;
    SoundInv(s);
    if CompletesIn(s.queue) != [] {
      FirstIsActive(s);
      acts, n := CompletionComes(s);
    } else if s.queue != [] && s.queue[0].Start? && s.lists.pending == [] && Viable(s.queue[0].a, s.lists.active) {
      acts, n := NextStarts(s);
    } else {
      var act: Action, m: State;
      if s.queue == [] {
        var r := WaitsForSome(s, a);
        ArriveStep(s, r);
        act, m := Arrive(r), s.(queue := s.queue + [Answer(r)], flight := s.flight - multiset{r});
      } else {
        act, m := QuietStep(s);
      }
      StepSound(s, act);
      SameClash(s, m);
      var rest;
      if CompletesIn(m.queue) != [] {
        SoundInv(m);
        FirstIsActive(m);
        rest, n := CompletionComes(m);
      } else {
        rest, n := AskerMoves(m, a);
      }
      RunFront(s, act, m, rest);
      acts := [act] + rest;
    }
  }

  /** Handling an answer, or a start that has to wait. */
  lemma QuietStep(s: State) returns (act: Action, m: State)
    requires s.queue != [] && CompletesIn(s.queue) == []
    requires s.queue[0].Start? ==> s.lists.pending != [] || !Viable(s.queue[0].a, s.lists.active)
    ensures act == Process && Step(s, act) == Next(m) && m.lists.active == s.lists.active && s.posts <= m.posts
    ensures m.completed == s.completed && m.flight == s.flight
    ensures CompletesIn(m.queue) == [] ==> |m.queue| < |s.queue|
  {
    hide Viable, TakerIndex;
    act, m := Process, Step(s, Process).state;
    var t := s.queue[1..];
    if m.queue != t {
      var f := m.queue[|t|];
      assert m.queue == t + [Complete(f.a)];
      EventsAppend(t, [Complete(f.a)]);
      assert CompletesIn(m.queue) != [];
    }
  }

  lemma SomethingChanges(s: State) returns (acts: seq<Action>, n: State)
    requires Sound(s) && !Clash(s) && !Halted(s)
    ensures Run(s, acts) == Next(n) && Changed(s, n)
  {
    hide Sound, Inv, Run, Viable, Clash;
    SoundInv(s);
    if CompletesIn(s.queue) != [] {
      FirstIsActive(s);
      acts, n := CompletionComes(s);
    } else if i :| 0 <= i < |s.lists.active| && s.lists.active[i].role.Asks? {
      acts, n := AskerMoves(s, s.lists.active[i]);
    } else {
      NoAskerNoAnswer(s);
      if s.queue == [] {
        acts, n := NewOneStarts(s);
      } else {
        OnlyStarts(s.queue);
        acts, n := NextStarts(s);
      }
    }
  }

  /** When nobody active asks, no answer is outstanding. */
  lemma NoAskerNoAnswer(s: State)
    requires Sound(s) && forall i :: 0 <= i < |s.lists.active| ==> !s.lists.active[i].role.Asks?
    ensures forall i :: 0 <= i < |s.queue| ==> !s.queue[i].Answer?
  {
    hide Inv, NoDuplicates, Behind;
    forall i | 0 <= i < |s.queue| ensures !s.queue[i].Answer? {
      if s.queue[i].Answer? {
        AnswerIsIn(s.queue, i);
        var u := OwedBySome(s.lists.active, s.left, s.queue[i].reply);
        assert false;
      }
    }
  }

  lemma {:induction false} OnlyStarts(q: seq<Event>)
    requires CompletesIn(q) == [] && forall i :: 0 <= i < |q| ==> !q[i].Answer?
    ensures StartsIn(q) == [] <==> q == []
    ensures q != [] ==> q[0] == Start(StartsIn(q)[0])
  {
    if q != [] {
      OnlyStarts(q[1..]);
    }
  }

  /**
   Exactly when: no completion is outstanding, only residents and parents are active, and something is pending or
   about to be.
   */
  lemma StuckIffHalted(acts: seq<Action>, s: State)
    requires Reaches(acts, s) && Calm(Init(), acts)
    ensures Stuck(s) <==> Halted(s)
  {
    hide Sound, Halted, Run, Calm, Clash;
    CalmRunsNeverThrow(acts);
    CalmEnd(acts, s);
    if Halted(s) {
      HaltedIsStuck(s);
    } else {
      var more, n := SomethingChanges(s);
    }
  }

  lemma HaltedIsStuck(s: State)
    requires Halted(s)
    ensures Stuck(s)
  {
    hide Halted, Run;
    forall more, n | Run(s, more) == Next(n) ensures n.lists.active == s.lists.active && n.completed == s.completed {
      HaltedForEver(s, more);
    }
  }

  /** A stuck scheduler stays stuck: in every continuation nothing starts, completes or is even posted as complete,
      and the pending list only grows. */
  lemma StuckForEver(acts: seq<Action>, s: State, more: seq<Action>, n: State)
    requires Reaches(acts, s) && Calm(Init(), acts) && Stuck(s) && Run(s, more) == Next(n)
    ensures Stuck(n) && n.lists.active == s.lists.active && n.completed == s.completed && n.posts == s.posts
    ensures n.started == s.started && s.lists.pending <= n.lists.pending
  {
    hide Halted, Run, Stuck;
    StuckIffHalted(acts, s);
    HaltedForEver(s, more);
    HaltedIsStuck(n);
  }

  /** What keeps it stuck: an activity that never completes by itself either is of the class of the next one or was
      started from the pending list. */
  lemma StuckHasACause(acts: seq<Action>, s: State)
    requires Reaches(acts, s) && Calm(Init(), acts) && Stuck(s)
    ensures NextUp(s).Some?
    ensures exists b :: b in s.lists.active && !b.role.Asks? &&
              (b in s.promoted || (b.group.Some? && b.group == NextUp(s).value.group))
  {
    hide Once, Families, ParentsOk, InOrder, ParentsFirst, ExclusiveOnce, Stuck;
    RunKeeps(acts);
    StuckIffHalted(acts, s);
    if !Viable(NextUp(s).value, s.lists.active) {
      var i :| 0 <= i < |s.lists.active| && s.lists.active[i].group == NextUp(s).value.group;
      assert s.lists.active[i] in s.lists.active;
    } else {
      var i :| 0 <= i < |s.lists.active| && s.lists.active[i] in s.promoted;
      assert s.lists.active[i] in s.lists.active;
    }
  }

  /** Every active parent of a stuck scheduler waits for a child that will never be started. */
  lemma StuckParentWaits(acts: seq<Action>, s: State, p: Activity)
    requires Reaches(acts, s) && Calm(Init(), acts) && Stuck(s) && p in s.lists.active && p.role.Tests?
    ensures exists c :: c in p.Children() && c in s.lists.pending + StartsIn(s.queue)
  {
    hide Inv, Stuck;
    RunKeeps(acts);
    StuckIffHalted(acts, s);
    ActiveParentWaits(s, p);
  }

  lemma ActiveParentWaits(s: State, p: Activity)
    requires Inv(s) && CompletesIn(s.queue) == [] && p in s.lists.active && p.role.Tests?
    requires forall i :: 0 <= i < |s.lists.active| ==> !s.lists.active[i].role.Asks?
    ensures exists c :: c in p.Children() && c in s.lists.pending + StartsIn(s.queue)
  {
    hide NoDuplicates, ListsOk, Families, ParentsOk, ParentOk, Once;
    StartedSplits(s);
    WaitedFor(s, p);
    var c := s.waiting[p][0];
    assert c in s.waiting[p];
    assert s.born == s.started + (s.lists.pending + StartsIn(s.queue));
  }

  /** An active parent whose completion is not posted waits, and for children that have not completed. */
  lemma WaitedFor(s: State, p: Activity)
    requires ParentsOk(s) && Families(s.known) && Once(s) && InOrder(s)
    requires CompletesIn(s.queue) == [] && p in s.lists.active && p.role.Tests?
    ensures p in s.waiting && s.waiting[p] != []
    ensures forall c :: c in s.waiting[p] ==> c in p.Children() && c.role.Asks? && c in s.born && c !in s.completed
  {
    hide NoDuplicates, ParentOk, Families;
    StartedSplits(s);
    assert s.posts == s.completed && p in s.started && p in s.known;
    WaitingOf(s, p);
    ChildrenAsk(s, p);
  }

  lemma WaitingOf(s: State, p: Activity)
    requires ParentOk(s, p) && p in s.started && p !in s.posts
    ensures p in s.waiting && s.waiting[p] != []
    ensures forall c :: c in s.waiting[p] ==> c in p.Children() && c in s.born && c !in s.completed
  {
  }

  lemma ChildrenAsk(s: State, p: Activity)
    requires Families(s.known) && p in s.known
    ensures forall c :: c in p.Children() ==> c.role.Asks?
  {
    forall c | c in p.Children() ensures c.role.Asks? {
      assert c in s.known && c.Simple();
    }
  }

  /** As long as every resident and every parent was started at once and none of them shares its class with another
      activity, something can always happen. */
  lemma NeverStuckWhenParentsStartAtOnce(acts: seq<Action>, s: State)
    requires Reaches(acts, s) && Calm(Init(), acts)
    requires forall p :: p in s.promoted ==> p.role.Asks?
    requires forall p, a :: p in s.born && a in s.born && p != a && !p.role.Asks? && p.group.Some? ==>
             p.group != a.group
    ensures !Stuck(s)
  {
    hide Stuck;
    if Stuck(s) {
      StuckHasACause(acts, s);
      var b :| b in s.lists.active && !b.role.Asks?
        && (b in s.promoted || (b.group.Some? && b.group == NextUp(s).value.group));
      NextIsBorn(acts, s, b);
    }
  }

  lemma ReachesInv(acts: seq<Action>, s: State)
    requires Reaches(acts, s)
    ensures Inv(s)
  {
    RunKeeps(acts);
  }

  lemma NextIsBorn(acts: seq<Action>, s: State, b: Activity)
    requires Reaches(acts, s) && NextUp(s).Some? && b in s.lists.active
    ensures b in s.born && NextUp(s).value in s.born && b != NextUp(s).value
  {
    hide Reaches, Families, ParentsOk, ListsOk;
    assert Inv(s) by { ReachesInv(acts, s); }
    StartedSplits(s);
    var late := s.lists.pending + StartsIn(s.queue);
    assert s.born == s.started + late;
    JoinNoDuplicates(s.started, late);
    assert late[0] == NextUp(s).value;
    assert late[0] in late && b in s.started;
  }

  // ---- Runs that get stuck ----

  /** Submitting a new activity. */
  lemma GoPost(acts: seq<Action>, s: State, a: Activity) returns (more: seq<Action>, n: State)
    requires Reaches(acts, s) && IsNew(s, a)
    ensures Reaches(more, n) && n.lists == s.lists && n.waiting == s.waiting && n.flight == s.flight
            && n.promoted == s.promoted
    ensures n.queue == s.queue + [Start(a)]
            && n.known == s.known + {a} + set i | 0 <= i < |a.Children()| :: a.Children()[i]
  {
    more, n := Go(acts, s, Post(a));
  }

  lemma GoPostSimple(acts: seq<Action>, s: State, a: Activity) returns (more: seq<Action>, n: State)
    requires Reaches(acts, s) && a !in s.known && !a.role.Tests?
    ensures Reaches(more, n) && n.lists == s.lists && n.waiting == s.waiting && n.flight == s.flight
            && n.promoted == s.promoted
    ensures n.queue == s.queue + [Start(a)] && n.known == s.known + {a}
  {
    more, n := GoPost(acts, s, a);
    assert n.known == s.known + {a};
  }

  lemma GoPostParent(acts: seq<Action>, s: State, a: Activity, c: Activity) returns (more: seq<Action>, n: State)
    requires Reaches(acts, s) && a !in s.known && c !in s.known && a.role == Tests([c]) && c != a && c.Simple()
    ensures Reaches(more, n) && n.lists == s.lists && n.waiting == s.waiting && n.flight == s.flight
            && n.promoted == s.promoted
    ensures n.queue == s.queue + [Start(a)] && n.known == s.known + {a, c}
  {
    JoinNoDuplicates([], [c]);
    more, n := GoPost(acts, s, a);
    assert (set i | 0 <= i < |a.Children()| :: a.Children()[i]) == {c} by { assert a.Children()[0] == c; }
    assert n.known == s.known + {a, c};
  }

  /** Nobody waits for children, so nobody reacts to a completion. */
  lemma NobodyTold(s: State, told: seq<Activity>, a: Activity)
    requires s.waiting == map[]
    ensures TellAll(s, told, a) == s
  {
    TellAllIs(s, told, a);
  }

  const ENROLL := Activity(1, Some(1), Resident)
  const ROUTE := Activity(2, None, Resident)
  const LOAD_A := Activity(3, Some(2), Asks(0, {1}))
  const LOAD_B := Activity(4, Some(2), Asks(0, {1}))
  const CHILD := Activity(5, None, Asks(1, {1}))
  const TESTS := Activity(6, None, Tests([CHILD]))
  const LIST := Activity(7, None, Asks(2, {}))

  /** The master's resident activities, two loads of a program, a test of all clients and one more activity. */
  lemma ThreeSubmitted() returns (acts: seq<Action>, s: State)
    ensures Reaches(acts, s) && s.lists == Lists([], []) && s.waiting == map[] && s.flight == multiset{}
    ensures s.queue == [Start(ENROLL), Start(ROUTE), Start(LOAD_A)] && s.known == {ENROLL, ROUTE, LOAD_A}
  {
    acts, s := [], Init();
    assert Reaches(acts, s);
    hide Reaches, Run;
    acts, s := GoPostSimple(acts, s, ENROLL);
    acts, s := GoPostSimple(acts, s, ROUTE);
    acts, s := GoPostSimple(acts, s, LOAD_A);
  }

  lemma SixSubmitted() returns (acts: seq<Action>, s: State)
    ensures Reaches(acts, s) && s.lists == Lists([], []) && s.waiting == map[] && s.flight == multiset{}
    ensures s.queue == [Start(ENROLL), Start(ROUTE), Start(LOAD_A), Start(LOAD_B), Start(TESTS), Start(LIST)]
  {
    hide Reaches, Run;
    acts, s := ThreeSubmitted();
    acts, s := GoPostSimple(acts, s, LOAD_B);
    acts, s := GoPostParent(acts, s, TESTS, CHILD);
    acts, s := GoPostSimple(acts, s, LIST);
  }

  lemma FirstStarted() returns (acts: seq<Action>, s: State)
    ensures Reaches(acts, s) && s.lists == Lists([ENROLL, ROUTE, LOAD_A], []) && s.waiting == map[]
    ensures s.left == s.left[LOAD_A := {1}] && s.flight == multiset{Reply(0, 1)}
    ensures s.queue == [Start(LOAD_B), Start(TESTS), Start(LIST)]
  {
    hide Reaches, Run, IsNew;
    acts, s := SixSubmitted();
    acts, s := Go(acts, s, Process);
    assert s.lists == Lists([ENROLL], []);
    acts, s := Go(acts, s, Process);
    assert s.lists == Lists([ENROLL, ROUTE], []);
    OneRequest();
    acts, s := Go(acts, s, Process);
  }

  lemma SixStarted() returns (acts: seq<Action>, s: State)
    ensures Reaches(acts, s) && s.queue == [] && s.waiting == map[]
    ensures s.left == s.left[LOAD_A := {1}] && s.flight == multiset{Reply(0, 1)}
    ensures s.lists == Lists([ENROLL, ROUTE, LOAD_A], [LOAD_B, TESTS, LIST])
  {
    hide Reaches, Run, IsNew;
    acts, s := FirstStarted();
    assert s.lists.active[2].group == LOAD_B.group;
    acts, s := Go(acts, s, Process);
    assert s.lists.pending == [LOAD_B] && s.queue == [Start(TESTS), Start(LIST)];
    acts, s := Go(acts, s, Process);
    assert s.lists.pending == [LOAD_B, TESTS] && s.queue == [Start(LIST)];
    acts, s := Go(acts, s, Process);
  }

  /** The client's answer completes an activity that waits for it alone. */
  lemma GoAnswer(acts: seq<Action>, s: State, a: Activity) returns (more: seq<Action>, n: State)
    requires Reaches(acts, s) && s.queue == [] && s.flight == multiset{Reply(0, 1)} && a in s.left && s.left[a] == {1}
    requires TakerIndex(s.lists.active, 0) < |s.lists.active| && s.lists.active[TakerIndex(s.lists.active, 0)] == a
    ensures Reaches(more, n) && n.queue == [Complete(a)] && n.lists == s.lists && n.waiting == s.waiting
    ensures n.flight == multiset{}
  {
    hide Reaches, Run;
    var m: State;
    more, m := Go(acts, s, Arrive(Reply(0, 1)));
    assert m.queue == [Answer(Reply(0, 1))] && m.queue[1..] == [];
    assert m.left[a] - {1} == {};
    more, n := Go(more, m, Process);
  }

  /** One load is over, and the other is started from the pending list. */
  lemma FirstLoaded() returns (acts: seq<Action>, s: State)
    ensures Reaches(acts, s) && s.queue == [] && s.waiting == map[]
    ensures s.left == s.left[LOAD_B := {1}] && s.flight == multiset{Reply(0, 1)}
    ensures s.lists == Lists([ENROLL, ROUTE, LOAD_B], [TESTS, LIST])
  {
    hide Reaches, Run, IsNew, IndexOf, TellAll;
    acts, s := SixStarted();
    TakerIs([ENROLL, ROUTE, LOAD_A], 0, 2);
    acts, s := GoAnswer(acts, s, LOAD_A);
    IndexIs([ENROLL, ROUTE, LOAD_A], LOAD_A, 2);
    assert s.queue[1..] == [];
    NobodyTold(s.(queue := []), Told(s.lists, LOAD_A), LOAD_A);
    OneRequest();
    acts, s := Go(acts, s, Process);
  }

  lemma {:induction false} TakerIs(active: seq<Activity>, key: nat, i: nat)
    requires i < |active| && active[i].Key() == Some(key) && forall j :: 0 <= j < i ==> active[j].Key() != Some(key)
    ensures TakerIndex(active, key) == i
  {
  }

  lemma OneRequest()
    ensures Requests(0, {1}) == multiset{Reply(0, 1)}
  {
    NoRequests(0);
    OneMoreRequest(0, {}, 1);
    assert {} + {1} == {1};
  }

  /** Then the test is started from the pending list, and its child queues up behind the last activity. Nothing will
      complete any more, although the residents go on being active. */
  lemma PromotedParentGetsStuck() returns (acts: seq<Action>, s: State)
    ensures Reaches(acts, s) && Stuck(s)
    ensures s.lists == Lists([ENROLL, ROUTE, TESTS], [LIST, CHILD])
  {
    hide Reaches, Run, IsNew, Stuck, IndexOf, TellAll;
    acts, s := FirstLoaded();
    TakerIs([ENROLL, ROUTE, LOAD_B], 0, 2);
    acts, s := GoAnswer(acts, s, LOAD_B);
    IndexIs([ENROLL, ROUTE, LOAD_B], LOAD_B, 2);
    assert s.queue[1..] == [];
    NobodyTold(s.(queue := []), Told(s.lists, LOAD_B), LOAD_B);
    acts, s := Go(acts, s, Process);
    assert s.lists == Lists([ENROLL, ROUTE, TESTS], [LIST]) && s.queue == [Start(CHILD)];
    acts, s := Go(acts, s, Process);
    HaltedIsStuck(s);
  }

  const HOST_A := Activity(1, None, Asks(0, {1}))
  const HOST_B := Activity(2, None, Asks(0, {2}))
  const HOSTS_A := Activity(3, Some(3), Tests([HOST_A]))
  const HOSTS_B := Activity(4, Some(3), Tests([HOST_B]))

  /** Two exclusive parents of one class, submitted together, block each other although neither has to be started
      from the pending list: the second stands before the first one's child. */
  lemma ExclusiveParentsGetStuck() returns (acts: seq<Action>, s: State)
    ensures Reaches(acts, s) && Stuck(s) && s.promoted == {}
    ensures s.lists == Lists([HOSTS_A], [HOSTS_B, HOST_A])
  {
    acts, s := BothSubmitted();
    hide Reaches, Run, Stuck, IsNew, NoDuplicates, ProcessComplete, ProcessAnswer;
    acts, s := Go(acts, s, Process);
    assert s.lists == Lists([HOSTS_A], []) && s.queue == [Start(HOSTS_B), Start(HOST_A)];
    assert s.lists.active[0].group == HOSTS_B.group;
    acts, s := Go(acts, s, Process);
    assert s.lists == Lists([HOSTS_A], [HOSTS_B]) && s.queue == [Start(HOST_A)];
    acts, s := Go(acts, s, Process);
    HaltedIsStuck(s);
  }

  lemma BothSubmitted() returns (acts: seq<Action>, s: State)
    ensures Reaches(acts, s) && s.promoted == {} && s.lists == Lists([], [])
    ensures s.queue == [Start(HOSTS_A), Start(HOSTS_B)]
  {
    acts, s := [], Init();
    assert Reaches(acts, s);
    hide Reaches, Run, IsNew, NoDuplicates;
    acts, s := GoPostParent(acts, s, HOSTS_A, HOST_A);
    acts, s := GoPostParent(acts, s, HOSTS_B, HOST_B);
  }
}
