/**
 When the scheduler throws: a completion of an activity that is not active any more fails a check
 (src/core/queue.cpp:175), outside every handler of exceptions.
 */
module ActivityThrows {
  import opened Prelude
  import opened ActivityQueue
  import opened ActivityAnswers

  // ---- A completion that is posted twice ----

  ghost predicate PostedTwice(s: State) {
    !NoDuplicates(s.posts)
  }

  /** Handling an event takes it off the queue, and completes at most its own activity. */
  lemma ProcessExtends(s: State)
    requires Step(s, Process).Next?
    ensures s.queue != []
    ensures var n := Step(s, Process).state;
            && s.queue[1..] <= n.queue
            && n.completed == s.completed + (if s.queue[0].Complete? then [s.queue[0].a] else [])
  {
    hide TellAll, Without, IndexOf, Viable, Begin;
    var t := s.(queue := s.queue[1..]);
    match s.queue[0]
    case Start(a) => BeginExtends(t.(lists := Admit(t.lists, a).0), a);
    case Answer(_) =>
    case Complete(a) =>
      TellAllExtends(t, Told(t.lists, a), a);
      TellAllFrame(t, Told(t.lists, a), a);
      var u := TellAll(t, Told(t.lists, a), a).(lists := Retire(t.lists, a).0, completed := t.completed + [a]);
      if Retire(t.lists, a).1.Some? {
        var b := Retire(t.lists, a).1.value;
        BeginExtends(u.(promoted := u.promoted + {b}), b);
      }
  }

  lemma BeginExtends(s: State, a: Activity)
    ensures var n := Begin(s, a);
            s.queue <= n.queue && n.completed == s.completed && n.lists == s.lists
  {
    hide Starts, Requests;
  }

  lemma {:induction false} TellAllExtends(s: State, told: seq<Activity>, a: Activity)
    ensures s.queue <= TellAll(s, told, a).queue
    decreases |told|
  {
    hide Without;
    if told != [] {
      TellAllExtends(Tell(s, told[0], a), told[1..], a);
    }
  }

  lemma RunOne(s: State, act: Action)
    ensures Run(s, [act]) == Step(s, act)
  {
    hide Step;
    assert [act][..|[act]| - 1] == [];
  }

  predicate AllProcess(acts: seq<Action>) {
    forall i :: 0 <= i < |acts| ==> acts[i] == Process
  }

  /** The event at the index is the completion of an activity that will have been completed by then. */
  ghost predicate Fatal(s: State, j: nat) {
    j < |s.queue| && s.queue[j].Complete? && s.queue[j].a in s.completed + CompletesIn(s.queue[..j])
  }

  lemma {:induction false} FatalThrows(s: State, j: nat) returns (acts: seq<Action>)
    requires Inv(s) && Fatal(s, j)
    ensures Run(s, acts) == Crash && AllProcess(acts) && |acts| <= j + 1
    decreases j
  {
    hide Inv, Step;
    StepKeeps(s, Process);
    CanStep(s);
    if Step(s, Process) == Crash {
      acts := [Process];
      RunOne(s, Process);
    } else {
      assert j > 0 by { assert s.queue[..0] == []; }
      var n := Step(s, Process).state;
      ProcessExtends(s);
      assert s.queue[..j] == [s.queue[0]] + n.queue[..j - 1];
      assert s.queue[..j][0] == s.queue[0] && s.queue[..j][1..] == n.queue[..j - 1];
      var rest := FatalThrows(n, j - 1);
      RunFront(s, Process, n, rest);
      acts := [Process] + rest;
    }
  }

  lemma CanStep(s: State)
    requires s.queue != []
    ensures Step(s, Process) != Disabled
  {
    hide TellAll;
  }

  lemma {:induction false} TwiceAt(seen: seq<Activity>, q: seq<Event>) returns (j: nat)
    requires NoDuplicates(seen) && !NoDuplicates(seen + CompletesIn(q))
    ensures j < |q| && q[j].Complete? && q[j].a in seen + CompletesIn(q[..j])
    decreases |q|
  {
    hide NoDuplicates;
    assert q != [] by { assert seen + [] == seen; }
    var head := if q[0].Complete? then [q[0].a] else [];
    assert seen + CompletesIn(q) == seen + head + CompletesIn(q[1..]);
    assert seen + [] == seen;
    if q[0].Complete? && q[0].a in seen {
      j := 0;
    } else {
      if q[0].Complete? { AppendNoDuplicates(seen, q[0].a); }
      var k := TwiceAt(seen + head, q[1..]);
      j := k + 1;
      assert q[..j][0] == q[0] && q[..j][1..] == q[1..][..k];
      assert seen + CompletesIn(q[..j]) == seen + head + CompletesIn(q[1..][..k]);
    }
  }

  /** Handling no more than the events that are queued reaches the throw. */
  lemma PostedTwiceThrows(s: State) returns (acts: seq<Action>)
    requires Inv(s) && PostedTwice(s)
    ensures Run(s, acts) == Crash && AllProcess(acts) && |acts| <= |s.queue|
  {
    hide Once, NoDuplicates, Families, ParentsOk, AskersOk, ListsOk, Run;
    StartedSplits(s);
    var j := TwiceAt(s.completed, s.queue);
    acts := FatalThrows(s, j);
  }

  lemma ThrowIsSecond(s: State)
    requires Inv(s) && Step(s, Process) == Crash
    ensures PostedTwice(s)
  {
    hide Inv;
    StepKeeps(s, Process);
    var a := s.queue[0].a;
    CompletedIsActive(s, a);
    var late := CompletesIn(s.queue[1..]);
    assert s.completed + [a] + late == s.completed + ([a] + late);
    JoinNoDuplicates(s.completed, [a] + late);
    assert a in [a] + late by { assert ([a] + late)[0] == a; }
  }

  // ---- From a clash to the throw ----

  /** The completion of the activity is handled before any answer with the key. */
  predicate Leaves(q: seq<Event>, key: nat, p: Activity) {
    exists i :: 0 <= i < |q| && q[i] == Complete(p) && forall j :: 0 <= j < i ==> !AnswersKey(q[j], key)
  }

  predicate AnswersKey(e: Event, key: nat) {
    e.Answer? && e.reply.key == key
  }

  /**
   The answer at the index comes when the activity has had all it waits for and is still the first to take it:
   everybody before it who takes such answers leaves first.
   */
  ghost predicate Doomed(s: State, a: Activity, j: nat) {
    && a in s.lists.active && a.role.Asks? && j < |s.queue| && AnswersKey(s.queue[j], a.role.key)
    && Complete(a) !in s.queue[..j]
    && a in s.left && (forall c :: c in s.left[a] ==> Answer(Reply(a.role.key, c)) in s.queue[..j])
    && forall p :: Before(s.lists.active, p, a) && p.Key() == a.Key() ==> Leaves(s.queue[..j], a.role.key, p)
  }

  /** A handler removes the activity whose completion it is, adds others at the end and keeps the order. */
  lemma ActiveAfter(s: State, n: State, a: Activity)
    requires Inv(s) && Inv(n) && Step(s, Process) == Next(n) && a in s.lists.active
    requires s.queue[0] != Complete(a)
    ensures a in n.lists.active
    ensures forall p :: Before(n.lists.active, p, a) ==> Before(s.lists.active, p, a)
  {
    hide Inv, TellAll, Before, Without, IndexOf, Viable, Begin;
    var kept, b := Kept(s, n);
    ActiveIsStarted(s);
    ActiveIsStarted(n);
    KeptOrder(s.lists.active, kept, n.lists.active, b, a, if s.queue[0].Complete? then Some(s.queue[0].a) else None);
  }

  lemma Kept(s: State, n: State) returns (kept: seq<Activity>, b: seq<Activity>)
    requires Step(s, Process) == Next(n)
    ensures n.lists.active == kept + b && |b| <= 1
    ensures kept == if s.queue[0].Complete? then Without(s.lists.active, s.queue[0].a) else s.lists.active
  {
    hide TellAll, Without, IndexOf, Viable, Begin;
    var t := s.(queue := s.queue[1..]);
    kept := if s.queue[0].Complete? then Without(s.lists.active, s.queue[0].a) else s.lists.active;
    match s.queue[0]
    case Start(a) =>
      BeginExtends(t.(lists := Admit(t.lists, a).0), a);
      b := if Admit(t.lists, a).1 then [a] else [];
    case Answer(_) => b := [];
    case Complete(a) =>
      TellAllFrame(t, Told(t.lists, a), a);
      var u := TellAll(t, Told(t.lists, a), a).(lists := Retire(t.lists, a).0, completed := t.completed + [a]);
      b := [];
      if Retire(t.lists, a).1.Some? {
        b := [Retire(t.lists, a).1.value];
        BeginExtends(u.(promoted := u.promoted + {b[0]}), b[0]);
      }
  }

  lemma KeptOrder(active: seq<Activity>, kept: seq<Activity>, now: seq<Activity>, b: seq<Activity>, a: Activity,
                  gone: Option<Activity>)
    requires NoDuplicates(active) && NoDuplicates(now) && now == kept + b && |b| <= 1 && a in active && gone != Some(a)
    requires kept == if gone.Some? then Without(active, gone.value) else active
    ensures a in now && forall p :: Before(now, p, a) ==> Before(active, p, a)
  {
    hide NoDuplicates;
    var k := if gone.Some? then IndexOf(active, gone.value) else |active|;
    assert forall x :: 0 <= x < |kept| ==> kept[x] == active[if x < k then x else x + 1];
    var i :| 0 <= i < |active| && active[i] == a;
    assert i != k && now[if i < k then i else i - 1] == a;
    forall p | Before(now, p, a) ensures Before(active, p, a) {
      var x, y :| 0 <= x < y < |now| && now[x] == p && now[y] == a;
      OnceAt(now, y, if i < k then i else i - 1);
      assert y < |kept|;
    }
  }

  /** Answers for the key are taken by the doomed activity, all others leave what it waits for alone. */
  lemma LeftAfter(s: State, n: State, a: Activity)
    requires Inv(s) && Step(s, Process) == Next(n) && a in s.lists.active && a in s.left
    requires a.role.Asks?
    requires AnswersKey(s.queue[0], a.role.key) ==> forall p :: Before(s.lists.active, p, a) ==> p.Key() != a.Key()
    ensures a in n.left
    ensures n.left[a] ==
            if AnswersKey(s.queue[0], a.role.key) then s.left[a] - {s.queue[0].reply.client} else s.left[a]
    ensures AnswersKey(s.queue[0], a.role.key) && n.left[a] == {} ==> n.posts == s.posts + [a]
  {
    hide Inv, TellAll, Before, Without, IndexOf, Viable, NoDuplicates;
    var t := s.(queue := s.queue[1..]);
    ActiveIsStarted(s);
    match s.queue[0]
    case Start(b) =>
      assert b != a by { FirstStart(s, b); }
    case Complete(b) =>
      TellAllFrame(t, Told(t.lists, b), b);
      if Retire(t.lists, b).1.Some? {
        var c := Retire(t.lists, b).1.value;
        assert c != a by { PendingIsNew(s, c); }
      }
    case Answer(r) =>
      if r.key == a.role.key {
        FirstTakes(s.lists.active, a);
      }
  }

  lemma PendingIsNew(s: State, c: Activity)
    requires Inv(s) && s.lists.pending != [] && s.lists.pending[0] == c
    ensures c !in s.started
  {
    hide ListsOk, ParentsOk, Families;
    var late := s.lists.pending + StartsIn(s.queue);
    assert s.born == s.started + late;
    JoinNoDuplicates(s.started, late);
    assert late[0] == c;
  }

  lemma FirstTakes(active: seq<Activity>, a: Activity)
    requires a in active && a.role.Asks? && forall p :: Before(active, p, a) ==> p.Key() != a.Key()
    ensures var k := TakerIndex(active, a.role.key); k < |active| && active[k] == a
  {
    var i :| 0 <= i < |active| && active[i] == a;
    var k := TakerIndex(active, a.role.key);
    assert k <= i;
    if k < i {
      assert Before(active, active[k], a);
    }
  }

  lemma {:induction false} DoomedThrows(s: State, a: Activity, j: nat) returns (acts: seq<Action>)
    requires Inv(s) && Doomed(s, a, j)
    ensures Run(s, acts) == Crash && AllProcess(acts)
    decreases j
  {
    hide Inv, Step, Doomed, PostedTwice;
    StepKeeps(s, Process);
    assert s.queue != [] by { DoomedQueue(s, a, j); }
    CanStep(s);
    if Step(s, Process) == Crash {
      acts := [Process];
      RunOne(s, Process);
    } else {
      var n := Step(s, Process).state;
      var rest;
      if j == 0 {
        LastAnswer(s, n, a);
        rest := PostedTwiceThrows(n);
      } else {
        DoomedStep(s, n, a, j);
        rest := DoomedThrows(n, a, j - 1);
      }
      RunFront(s, Process, n, rest);
      acts := [Process] + rest;
    }
  }

  lemma DoomedQueue(s: State, a: Activity, j: nat)
    requires Doomed(s, a, j)
    ensures s.queue != []
  {
  }

  lemma NobodyBefore(s: State, a: Activity, j: nat)
    requires Doomed(s, a, j) && AnswersKey(s.queue[0], a.role.key)
    ensures forall p :: Before(s.lists.active, p, a) ==> p.Key() != a.Key()
  {
    hide Before, Leaves;
    forall p | Before(s.lists.active, p, a) ensures p.Key() != a.Key() {
      NotLeaving(s.queue[..j], a.role.key, p);
    }
  }

  lemma NotLeaving(q: seq<Event>, key: nat, p: Activity)
    requires q == [] || AnswersKey(q[0], key)
    ensures !Leaves(q, key, p)
  {
  }

  lemma LastAnswer(s: State, n: State, a: Activity)
    requires Inv(s) && Doomed(s, a, 0) && Step(s, Process) == Next(n)
    ensures PostedTwice(n)
  {
    hide Inv, Before, Step, NoDuplicates;
    NobodyBefore(s, a, 0);
    LeftAfter(s, n, a);
    ActiveIsStarted(s);
    assert s.queue[..0] == [];
    assert s.left[a] == {};
    assert AskerOk(s, a);
    JoinNoDuplicates(s.posts, [a]);
    assert a in [a];
  }

  lemma DoomedStep(s: State, n: State, a: Activity, j: nat)
    requires Inv(s) && Inv(n) && Doomed(s, a, j) && j > 0 && Step(s, Process) == Next(n)
    ensures Doomed(n, a, j - 1)
  {
    hide Inv, Before, Step, NoDuplicates;
    ProcessExtends(s);
    var q := s.queue[..j];
    assert q[0] == s.queue[0] && q[1..] == n.queue[..j - 1];
    assert n.queue[j - 1] == s.queue[j];
    ActiveAfter(s, n, a);
    if AnswersKey(s.queue[0], a.role.key) { NobodyBefore(s, a, j); }
    LeftAfter(s, n, a);
    forall c | c in n.left[a] ensures Answer(Reply(a.role.key, c)) in n.queue[..j - 1] {
      assert Answer(Reply(a.role.key, c)) in q;
    }
    forall p | Before(n.lists.active, p, a) && p.Key() == a.Key() ensures Leaves(q[1..], a.role.key, p) {
      assert Leaves(q, a.role.key, p);
      var i :| 0 <= i < |q| && q[i] == Complete(p) && forall x :: 0 <= x < i ==> !AnswersKey(q[x], a.role.key);
      BeforeIsIn(n.lists.active, p, a);
      if i == 0 {
        GoneAfter(s, n, p);
        assert false;
      } else {
        assert q[1..][i - 1] == Complete(p);
      }
    }
  }

  lemma BeforeIsIn(active: seq<Activity>, p: Activity, a: Activity)
    requires Before(active, p, a)
    ensures p in active
  {
  }

  lemma GoneAfter(s: State, n: State, p: Activity)
    requires Inv(n) && Step(s, Process) == Next(n) && s.queue != [] && s.queue[0] == Complete(p)
    ensures p !in n.lists.active
  {
    hide ListsOk, ParentsOk, Families, NoDuplicates, Step;
    ProcessExtends(s);
    assert n.completed[|s.completed|] == p;
    StartedSplits(n);
  }

  // ---- The first clash ----

  /** A step that makes two activities clash starts one of them. */
  lemma ClashStarts(s: State, act: Action, n: State)
    returns (v: State, b: Activity, pending: seq<Activity>, promoted: set<Activity>)
    requires Sound(s) && !Clash(s) && Step(s, act) == Next(n) && Clash(n)
    ensures n == Activated(v, b, pending, promoted) && Rest(v) && b !in v.started && !Clash(v)
  {
    hide Sound, Rest, Clash, ProcessStart, ProcessComplete, ProcessAnswer, IsNew;
    if act.Process? && s.queue[0].Start? {
      v, b, pending, promoted := StartClashes(s, s.queue[0].a, n);
    } else if act.Process? && s.queue[0].Complete? {
      v, b, pending, promoted := CompleteClashes(s, s.queue[0].a, n);
    } else {
      if act.Process? { AnswerExtends(s.(queue := s.queue[1..]), s.queue[0].reply); }
      SameClash(s, n);
      assert false;
    }
  }

  lemma AnswerExtends(s: State, r: Reply)
    ensures var n := ProcessAnswer(s, r); n.lists == s.lists && s.posts <= n.posts
  {
  }

  lemma StartClashes(s: State, a: Activity, n: State)
    returns (v: State, b: Activity, pending: seq<Activity>, promoted: set<Activity>)
    requires Sound(s) && !Clash(s) && s.queue != [] && s.queue[0] == Start(a) && Clash(n)
    requires ProcessStart(s.(queue := s.queue[1..]), a) == Next(n)
    ensures n == Activated(v, b, pending, promoted) && Rest(v) && b !in v.started && !Clash(v)
  {
    hide Sound, Rest, Clash, Begin, Viable;
    var t := s.(queue := s.queue[1..]);
    SoundTail(s);
    SameClash(s, t);
    SoundInv(s);
    FirstStart(s, a);
    if !Admit(t.lists, a).1 {
      SameClash(s, n);
      assert false;
    }
    v, b, pending, promoted := t, a, [], t.promoted;
  }

  lemma CompleteClashes(s: State, a: Activity, n: State)
    returns (v: State, b: Activity, pending: seq<Activity>, promoted: set<Activity>)
    requires Sound(s) && !Clash(s) && s.queue != [] && s.queue[0] == Complete(a) && Clash(n)
    requires ProcessComplete(s.(queue := s.queue[1..]), a) == Next(n)
    ensures n == Activated(v, b, pending, promoted) && Rest(v) && b !in v.started && !Clash(v)
  {
    hide Sound, Rest, Clash, Begin, Viable, TellAll, Without, Settled, Inv, InOrder;
    var t := s.(queue := s.queue[1..]);
    v := Left(t, a);
    SoundInv(s);
    LeftSound(s, a);
    LeftSettles(s, a);
    TellAllFrame(t, Told(t.lists, a), a);
    LeftClash(s, v, a);
    if !(v.lists.pending != [] && Viable(v.lists.pending[0], v.lists.active)) {
      SameClash(v, n);
      assert false;
    }
    NextPending(v);
    b, pending, promoted := v.lists.pending[0], v.lists.pending[1..], v.promoted + {v.lists.pending[0]};
  }

  lemma SameClash(s: State, n: State)
    requires n.lists.active == s.lists.active && s.posts <= n.posts
    ensures Clash(n) ==> Clash(s)
  {
    if i, j :| 0 <= i < j < |n.lists.active| && Rivals(n, n.lists.active[i], n.lists.active[j]) {
      assert Rivals(s, s.lists.active[i], s.lists.active[j]);
    }
  }

  lemma LeftClash(s: State, v: State, a: Activity)
    requires Inv(s) && s.queue != [] && s.queue[0] == Complete(a) && a in s.lists.active && !Clash(s)
    requires v == Left(s.(queue := s.queue[1..]), a)
    ensures !Clash(v)
  {
    hide Inv, Left;
    var more := LeftEvents(s, a);
    var active, k := s.lists.active, IndexOf(s.lists.active, a);
    forall i, j | 0 <= i < j < |v.lists.active| ensures !Rivals(v, v.lists.active[i], v.lists.active[j]) {
      var x, y := if i < k then i else i + 1, if j < k then j else j + 1;
      assert !Rivals(s, active[x], active[y]);
    }
  }

  /** What is known of the activity that is started into a clash. */
  lemma NewRival(v: State, n: State, b: Activity, pending: seq<Activity>, promoted: set<Activity>)
    requires n == Activated(v, b, pending, promoted) && Rest(v) && b !in v.started && !Clash(v) && Clash(n)
    ensures b.role.Asks? && b.role.clients != {} && n.queue == v.queue
    ensures n.lists.active == v.lists.active + [b] && n.flight == v.flight + Requests(b.role.key, b.role.clients)
    ensures n.posts == v.posts
    ensures forall a :: a in v.lists.active && a in v.left ==> a in n.left && n.left[a] == v.left[a]
    ensures exists i :: 0 <= i < |v.lists.active| && Rivals(n, v.lists.active[i], b)
  {
    hide Behind, NoDuplicates, OwedBy;
    var i, j :| 0 <= i < j < |n.lists.active| && Rivals(n, n.lists.active[i], n.lists.active[j]);
    ActivatedEvents(v, b, pending, promoted);
    assert n.lists.active == v.lists.active + [b];
    OldOnes(v, n, i);
    assert n.lists.active[j] == b;
  }

  lemma OldOnes(v: State, n: State, i: nat)
    requires !Clash(v) && v.posts <= n.posts && v.lists.active <= n.lists.active
    ensures forall j :: i < j < |v.lists.active| ==> !Rivals(n, n.lists.active[i], n.lists.active[j])
  {
    forall j | i < j < |v.lists.active| ensures !Rivals(n, n.lists.active[i], n.lists.active[j]) {
      assert !Rivals(v, v.lists.active[i], v.lists.active[j]);
    }
  }

  predicate AllArrive(acts: seq<Action>) {
    forall i :: 0 <= i < |acts| ==> acts[i].Arrive?
  }

  /** The answers of the given clients are delivered, as far as they are not queued already. */
  lemma {:induction false} DeliverAll(s: State, key: nat, want: set<nat>, avail: multiset<Reply>,
                                      reserve: multiset<Reply>)
    returns (acts: seq<Action>, n: State)
    requires avail + reserve <= s.flight
    requires forall c :: c in want ==> Answer(Reply(key, c)) in s.queue || Reply(key, c) in avail
    ensures Run(s, acts) == Next(n) && AllArrive(acts)
    ensures n == s.(queue := n.queue, flight := n.flight) && s.queue <= n.queue && reserve <= n.flight
    ensures forall i :: |s.queue| <= i < |n.queue| ==> n.queue[i].Answer?
    ensures forall c :: c in want ==> Answer(Reply(key, c)) in n.queue
    decreases want
  {
    hide Step, Run;
    if want == {} {
      acts, n := [], s;
      assert Run(s, []) == Next(s) by { RunNothing(s); }
    } else {
      var c :| c in want;
      var r := Reply(key, c);
      if Answer(r) in s.queue {
        acts, n := DeliverAll(s, key, want - {c}, avail, reserve);
        StillQueued(s.queue, n.queue, Answer(r));
      } else {
        var m := s.(queue := s.queue + [Answer(r)], flight := s.flight - multiset{r});
        assert r in s.flight && Step(s, Arrive(r)) == Next(m) by { ArriveStep(s, r); }
        assert avail - multiset{r} + reserve <= m.flight;
        var rest;
        rest, n := DeliverAll(m, key, want - {c}, avail - multiset{r}, reserve);
        assert m.queue[|s.queue|] == Answer(r);
        StillQueued(m.queue, n.queue, Answer(r));
        RunFront(s, Arrive(r), m, rest);
        acts := [Arrive(r)] + rest;
      }
    }
  }

  lemma StillQueued(q: seq<Event>, r: seq<Event>, e: Event)
    requires q <= r && e in q
    ensures e in r
  {
    var i :| 0 <= i < |q| && q[i] == e;
    assert r[i] == e;
  }

  lemma RunNothing(s: State)
    ensures Run(s, []) == Next(s)
  {
  }

  lemma ArriveStep(s: State, r: Reply)
    requires r in s.flight
    ensures Step(s, Arrive(r)) == Next(s.(queue := s.queue + [Answer(r)], flight := s.flight - multiset{r}))
  {
  }

  lemma {:induction false} AnswerAt(q: seq<Event>, r: Reply)
    requires r in AnswersIn(q)
    ensures Answer(r) in q
  {
    if q[0] != Answer(r) {
      AnswerAt(q[1..], r);
    }
  }

  lemma OwedIsOpen(active: seq<Activity>, left: map<Activity, set<nat>>, a: Activity, c: nat)
    requires a in active && a.role.Asks? && a in left && c in left[a]
    ensures Reply(a.role.key, c) in OwedBy(active, left)
  {
    var i :| 0 <= i < |active| && active[i] == a;
    OwedSplit(active, i, left);
    assert Reply(a.role.key, c) in (set d | d in left[a] :: Reply(a.role.key, d));
    assert Reply(a.role.key, c) in Owed(a, left);
  }

  lemma {:induction false} RunJoin(s: State, acts: seq<Action>, m: State, more: seq<Action>)
    requires Run(s, acts) == Next(m)
    ensures Run(s, acts + more) == Run(m, more)
  {
    hide Step;
    if more == [] {
      assert acts + more == acts;
    } else {
      var n := |more| - 1;
      RunJoin(s, acts, m, more[..n]);
      assert (acts + more)[..|acts + more| - 1] == acts + more[..n];
    }
  }

  /** The first of those that take the answers and have not posted their completions. */
  predicate FirstUnposted(s: State, k: nat, key: nat) {
    && k < |s.lists.active| && s.lists.active[k].Key() == Some(key) && s.lists.active[k] !in s.posts
    && forall i :: 0 <= i < k && s.lists.active[i].Key() == Some(key) ==> s.lists.active[i] in s.posts
  }

  lemma {:induction false} FindUnposted(s: State, i: nat, key: nat) returns (k: nat)
    requires i < |s.lists.active| && s.lists.active[i].Key() == Some(key) && s.lists.active[i] !in s.posts
    ensures k <= i && FirstUnposted(s, k, key)
  {
    k := 0;
    while !(s.lists.active[k].Key() == Some(key) && s.lists.active[k] !in s.posts)
      invariant k <= i
      invariant forall j :: 0 <= j < k && s.lists.active[j].Key() == Some(key) ==> s.lists.active[j] in s.posts
      decreases i - k
    {
      k := k + 1;
    }
  }

  /** Those before it leave before any answer comes. */
  lemma EarlierLeave(s: State, k: nat, p: Activity)
    requires Sound(s) && k < |s.lists.active| && s.lists.active[k].role.Asks?
    requires FirstUnposted(s, k, s.lists.active[k].role.key)
    requires Before(s.lists.active, p, s.lists.active[k]) && p.Key() == s.lists.active[k].Key()
    ensures Leaves(s.queue, s.lists.active[k].role.key, p)
  {
    hide NoDuplicates, OwedBy, ListsOk, ParentsOk, Families, AskersOk;
    ActiveIsStarted(s);
    var active, key := s.lists.active, s.lists.active[k].role.key;
    var x, y :| 0 <= x < y < |active| && active[x] == p && active[y] == active[k];
    OnceAt(active, y, k);
    var i := PostedIsQueued(s, p);
    forall j | 0 <= j < i ensures !AnswersKey(s.queue[j], key) {
      if AnswersKey(s.queue[j], key) {
        assert Crosses(s.queue[j], s.queue[i]);
        assert Shielded(s, p);
        NotShielded(s, k, x, key);
        assert false;
      }
    }
  }

  lemma NotShielded(s: State, k: nat, x: nat, key: nat)
    requires NoDuplicates(s.lists.active) && FirstUnposted(s, k, key) && x < k && s.lists.active[x].Key() == Some(key)
    ensures !Shielded(s, s.lists.active[x])
  {
    hide NoDuplicates;
    var active := s.lists.active;
    forall u: Activity | u.Key() == Some(key) && Before(active, u, active[x]) ensures u in s.posts {
      var i, j :| 0 <= i < j < |active| && active[i] == u && active[j] == active[x];
      OnceAt(active, j, x);
    }
  }

  /** Once two clash the answers can come in an order in which one of them takes one too many. */
  lemma ClashThrows(s: State, act: Action, n: State) returns (more: seq<Action>)
    requires Sound(s) && !Clash(s) && Step(s, act) == Next(n) && Clash(n)
    ensures Run(n, more) == Crash && Quiet(more)
  {
    hide Sound, Rest, Clash, Step, Run, Activated, Before, Requests, Doomed;
    StepSound(s, act);
    var v, b, pending, promoted := ClashStarts(s, act, n);
    NewRival(v, n, b, pending, promoted);
    var key := b.role.key;
    var i :| 0 <= i < |v.lists.active| && Rivals(n, v.lists.active[i], b);
    var k := FindUnposted(n, i, key);
    var a := n.lists.active[k];
    assert a == v.lists.active[k] && a.role.Asks? && a.role.key == key;
    LeftKnown(v, n, a, b);
    var reserve := Requests(key, b.role.clients);
    var acts1, n1 := DeliverAll(n, key, n.left[a], v.flight, reserve);
    var y :| y in b.role.clients;
    var r := Reply(key, y);
    assert r in n1.flight by { RequestIn(key, b.role.clients, y); }
    var n2 := n1.(queue := n1.queue + [Answer(r)], flight := n1.flight - multiset{r});
    ArriveStep(n1, r);
    RunJoin(n, acts1, n1, [Arrive(r)]);
    RunOne(n1, Arrive(r));
    IsDoomed(n, n2, k, |n1.queue|);
    SoundInv(n);
    RunInv(n, acts1 + [Arrive(r)]);
    var acts2 := DoomedThrows(n2, a, |n1.queue|);
    RunJoin(n, acts1 + [Arrive(r)], n2, acts2);
    more := acts1 + [Arrive(r)] + acts2;
  }

  predicate Quiet(acts: seq<Action>) {
    forall i :: 0 <= i < |acts| ==> !acts[i].Post?
  }

  lemma RequestIn(key: nat, clients: set<nat>, c: nat)
    requires c in clients
    ensures Reply(key, c) in Requests(key, clients)
  {
    assert Reply(key, c) in (set d | d in clients :: Reply(key, d));
  }

  /** What the first of them waits for is queued or on its way. */
  lemma LeftKnown(v: State, n: State, a: Activity, b: Activity)
    requires Rest(v) && a in v.lists.active && a.role.Asks? && n.queue == v.queue
    requires forall u :: u in v.lists.active && u in v.left ==> u in n.left && n.left[u] == v.left[u]
    ensures a in n.left
    ensures forall c :: c in n.left[a] ==> Answer(Reply(a.role.key, c)) in n.queue || Reply(a.role.key, c) in v.flight
  {
    hide NoDuplicates, Behind, OwedBy;
    assert AskerOk(v, a);
    forall c | c in n.left[a] ensures Answer(Reply(a.role.key, c)) in n.queue || Reply(a.role.key, c) in v.flight {
      OwedIsOpen(v.lists.active, v.left, a, c);
      if Reply(a.role.key, c) !in v.flight {
        AnswerAt(v.queue, Reply(a.role.key, c));
      }
    }
  }

  lemma IsDoomed(n: State, n2: State, k: nat, j: nat)
    requires Sound(n) && k < |n.lists.active| && n.lists.active[k].role.Asks?
    requires FirstUnposted(n, k, n.lists.active[k].role.key)
    requires n2 == n.(queue := n2.queue, flight := n2.flight) && j == |n2.queue| - 1 && j >= |n.queue|
    requires n.queue <= n2.queue && (forall i :: |n.queue| <= i < |n2.queue| ==> n2.queue[i].Answer?)
    requires AnswersKey(n2.queue[j], n.lists.active[k].role.key)
    requires var a := n.lists.active[k];
             a in n.left && forall c :: c in n.left[a] ==> Answer(Reply(a.role.key, c)) in n2.queue[..j]
    ensures Doomed(n2, n.lists.active[k], j)
  {
    hide Sound, Before;
    var a, q := n.lists.active[k], n2.queue[..j];
    assert Complete(a) !in n.queue by { UnpostedNotQueued(n, a); }
    assert forall i :: 0 <= i < |n.queue| ==> q[i] == n.queue[i];
    assert forall i :: |n.queue| <= i < j ==> q[i].Answer?;
    forall p | Before(n.lists.active, p, a) && p.Key() == a.Key() ensures Leaves(q, a.role.key, p) {
      EarlierLeave(n, k, p);
      var i :| 0 <= i < |n.queue| && n.queue[i] == Complete(p)
        && forall x :: 0 <= x < i ==> !AnswersKey(n.queue[x], a.role.key);
      assert q[i] == Complete(p);
    }
  }

  lemma UnpostedNotQueued(s: State, a: Activity)
    requires Sound(s) && a !in s.posts
    ensures Complete(a) !in s.queue
  {
    hide NoDuplicates, Once, OwedBy, ListsOk, ParentsOk, Families, AskersOk, Behind;
    if i :| 0 <= i < |s.queue| && s.queue[i] == Complete(a) {
      CompletionIsIn(s.queue, i);
    }
  }

  // ---- Whole runs ----

  /** No state of the run has a clash. */
  ghost predicate Calm(s: State, acts: seq<Action>) {
    && (acts != [] ==> Calm(s, acts[..|acts| - 1]))
    && (Run(s, acts).Next? ==> !Clash(Run(s, acts).state))
  }

  lemma {:induction false} CalmFrom(s: State, acts: seq<Action>)
    requires Sound(s) && Calm(s, acts)
    ensures Run(s, acts) != Crash
    ensures Run(s, acts).Next? ==> Sound(Run(s, acts).state) && !Clash(Run(s, acts).state)
  {
    hide Step, Sound, Clash;
    if acts != [] {
      var before := acts[..|acts| - 1];
      CalmFrom(s, before);
      if Run(s, before).Next? {
        StepSound(Run(s, before).state, acts[|acts| - 1]);
      }
    }
  }

  lemma InitIsSound()
    ensures Sound(Init()) && !Clash(Init())
  {
    hide ParentOk;
  }

  /** A run without a clash never throws, and every completion in it is posted once. */
  lemma CalmRunsNeverThrow(acts: seq<Action>)
    requires Calm(Init(), acts)
    ensures Run(Init(), acts) != Crash
    ensures Run(Init(), acts).Next? ==> Sound(Run(Init(), acts).state)
  {
    hide Sound, Clash, Run, Calm;
    InitIsSound();
    CalmFrom(Init(), acts);
  }

  /** With nothing more submitted a run can go on to a throw. */
  ghost predicate CanThrow(s: State) {
    exists more :: Quiet(more) && Run(s, more) == Crash
  }

  ghost predicate CanPostTwice(s: State) {
    exists more, n :: Quiet(more) && Run(s, more) == Next(n) && PostedTwice(n)
  }

  ghost predicate CanClash(s: State) {
    exists more, n :: Quiet(more) && Run(s, more) == Next(n) && Clash(n)
  }

  /** A run that throws does so in its last step that is not ignored. */
  lemma {:induction false} LastStep(s: State, acts: seq<Action>) returns (k: nat, m: State)
    requires Run(s, acts) == Crash
    ensures k < |acts| && Run(s, acts[..k]) == Next(m) && Step(m, acts[k]) == Crash
  {
    hide Step;
    var n := |acts| - 1;
    if Run(s, acts[..n]).Next? {
      k, m := n, Run(s, acts[..n]).state;
    } else {
      k, m := LastStep(s, acts[..n]);
      assert acts[..n][..k] == acts[..k];
    }
  }

  /**
   The scheduler can come to throw exactly when some activity can come to post its completion twice; and once one
   has, handling what is queued is enough.
   */
  lemma ThrowIffPostedTwice(acts: seq<Action>, s: State)
    requires Reaches(acts, s)
    ensures CanThrow(s) <==> CanPostTwice(s)
    ensures PostedTwice(s) ==>
              exists more :: AllProcess(more) && |more| <= |s.queue| && Run(s, more) == Crash
  {
    hide Run, PostedTwice, Step, Inv;
    assert Inv(s) by { RunsKeep(acts, s); }
    if more :| Quiet(more) && Run(s, more) == Crash {
      var k, m := LastStep(s, more);
      RunInv(s, more[..k]);
      StepKeeps(m, more[k]);
      ThrowIsSecond(m);
    }
    if more, n :| Quiet(more) && Run(s, more) == Next(n) && PostedTwice(n) {
      RunInv(s, more);
      var last := PostedTwiceThrows(n);
      RunJoin(s, more, n, last);
      assert Quiet(more + last);
    }
    if PostedTwice(s) {
      var last := PostedTwiceThrows(s);
    }
  }

  lemma RunsKeep(acts: seq<Action>, s: State)
    requires Reaches(acts, s)
    ensures Inv(s)
  {
    RunKeeps(acts);
  }

  /** The first clash on the way of a run that has one. */
  lemma {:induction false} FirstClash(s: State, acts: seq<Action>) returns (k: nat, m: State, n: State)
    requires Sound(s) && !Clash(s) && !Calm(s, acts)
    ensures k < |acts| && Run(s, acts[..k]) == Next(m) && Sound(m) && !Clash(m)
    ensures Step(m, acts[k]) == Next(n) && Clash(n)
  {
    hide Step, Sound, Clash;
    assert acts != [];
    var last := |acts| - 1;
    if Calm(s, acts[..last]) {
      CalmFrom(s, acts[..last]);
      k, m, n := last, Run(s, acts[..last]).state, Run(s, acts).state;
    } else {
      k, m, n := FirstClash(s, acts[..last]);
      assert acts[..last][..k] == acts[..k];
    }
  }

  /** After a run without a clash the scheduler can come to throw exactly when two activities can come to clash. */
  lemma ThrowIffClash(acts: seq<Action>, s: State)
    requires Reaches(acts, s) && Calm(Init(), acts)
    ensures CanThrow(s) <==> CanClash(s)
  {
    hide Run, Step, Sound, Clash, Calm;
    CalmRunsNeverThrow(acts);
    assert !Clash(s) by { CalmEnd(acts, s); }
    if more :| Quiet(more) && Run(s, more) == Crash {
      if Calm(s, more) { CalmFrom(s, more); }
      var k, m, n := FirstClash(s, more);
      RunTo(s, more, k, m, n);
      assert Quiet(more[..k + 1]);
    }
    if more, n :| Quiet(more) && Run(s, more) == Next(n) && Clash(n) {
      NotCalm(s, more, n);
      var k, m, first := FirstClash(s, more);
      RunTo(s, more, k, m, first);
      var last := ClashThrows(m, more[k], first);
      RunJoin(s, more[..k + 1], first, last);
      assert Quiet(more[..k + 1] + last);
    }
  }

  lemma CalmEnd(acts: seq<Action>, s: State)
    requires Reaches(acts, s) && Calm(Init(), acts)
    ensures !Clash(s)
  {
  }

  lemma NotCalm(s: State, acts: seq<Action>, n: State)
    requires Run(s, acts) == Next(n) && Clash(n)
    ensures !Calm(s, acts)
  {
  }

  lemma RunTo(s: State, acts: seq<Action>, k: nat, m: State, n: State)
    requires k < |acts| && Run(s, acts[..k]) == Next(m) && Step(m, acts[k]) == Next(n)
    ensures Run(s, acts[..k + 1]) == Next(n)
  {
    hide Step;
    assert acts[..k + 1][..k] == acts[..k];
  }

  // ---- What a caller can see to ----

  function Family(a: Activity): set<Activity> {
    {a} + set i | 0 <= i < |a.Children()| :: a.Children()[i]
  }

  /** Nobody in the family takes the answers of another one there or of an activity that has not completed. */
  ghost predicate Free(s: State, a: Activity) {
    forall x, y :: x in Family(a) && (y in Family(a) || (y in s.known && y !in s.completed)) && x != y && x.Key().Some?
      ==> x.Key() != y.Key()
  }

  /** An activity is submitted only when none that takes its answers, or its children's, is outstanding. */
  ghost predicate Spaced(s: State, acts: seq<Action>) {
    acts == [] ||
    var before, act := acts[..|acts| - 1], acts[|acts| - 1];
    && Spaced(s, before)
    && (Run(s, before).Next? && act.Post? ==> Free(Run(s, before).state, act.a))
  }

  ghost predicate KeysDiffer(s: State) {
    forall x, y :: x in s.known && y in s.known && x !in s.completed && y !in s.completed && x != y && x.Key().Some?
      ==> x.Key() != y.Key()
  }

  lemma KnownStays(s: State)
    requires Step(s, Process).Next?
    ensures Step(s, Process).state.known == s.known
  {
    hide TellAll, Without, IndexOf, Viable, Starts, Requests;
    if s.queue[0].Complete? {
      var t := s.(queue := s.queue[1..]);
      TellAllFrame(t, Told(t.lists, s.queue[0].a), s.queue[0].a);
    }
  }

  lemma KeysStep(s: State, act: Action)
    requires KeysDiffer(s) && Step(s, act).Next? && (act.Post? ==> Free(s, act.a))
    ensures KeysDiffer(Step(s, act).state)
  {
    var n := Step(s, act).state;
    match act
    case Process =>
      KnownStays(s);
      ProcessExtends(s);
      hide Step;
    case Arrive(_) =>
    case Post(a) =>
      assert n.known == s.known + Family(a);
      hide Step, Family;
  }

  lemma NoClash(s: State)
    requires Inv(s) && KeysDiffer(s)
    ensures !Clash(s)
  {
    hide ListsOk, ParentsOk, Families, AskersOk;
    StartedSplits(s);
    var active := s.lists.active;
    forall i, j | 0 <= i < j < |active| ensures !Rivals(s, active[i], active[j]) {
      assert active[i] in active && active[j] in active;
      if active[i] == active[j] { OnceAt(active, i, j); }
    }
  }

  /** Runs in which activities are submitted like that have no clash, so they never throw. */
  lemma {:induction false} SpacedRunsAreCalm(acts: seq<Action>)
    requires Spaced(Init(), acts)
    ensures Calm(Init(), acts)
    ensures Run(Init(), acts).Next? ==> KeysDiffer(Run(Init(), acts).state)
  {
    hide Step, KeysDiffer, Free, Clash, Inv;
    if acts == [] {
      assert KeysDiffer(Init()) by { NothingKnown(); }
    } else {
      SpacedRunsAreCalm(acts[..|acts| - 1]);
      if Run(Init(), acts).Next? {
        KeysStep(Run(Init(), acts[..|acts| - 1]).state, acts[|acts| - 1]);
      }
    }
    if Run(Init(), acts).Next? {
      RunKeeps(acts);
      NoClash(Run(Init(), acts).state);
    }
  }

  lemma NothingKnown()
    ensures KeysDiffer(Init())
  {
  }

  // ---- A run that throws ----

  const TEST_A := Activity(1, None, Asks(0, {7}))
  const TEST_B := Activity(2, None, Asks(0, {7}))

  /** Two tests of one client are active, their requests sent. */
  lemma BothSent() returns (acts: seq<Action>, s: State)
    ensures Reaches(acts, s) && s.lists == Lists([TEST_A, TEST_B], []) && s.queue == [] && s.posts == []
    ensures s.left == map[TEST_A := {7}, TEST_B := {7}] && s.flight == multiset{Reply(0, 7), Reply(0, 7)}
    ensures s.completed == []
  {
    acts, s := BothSubmitted();
    hide Reaches, Run, IsNew;
    OneRequest();
    acts, s := Go(acts, s, Process);
    assert s.queue == [Start(TEST_B)] && s.flight == multiset{Reply(0, 7)};
    acts, s := Go(acts, s, Process);
    assert s.left == map[TEST_A := {7}, TEST_B := {7}];
  }

  lemma BothSubmitted() returns (acts: seq<Action>, s: State)
    ensures Reaches(acts, s) && s.lists == Lists([], []) && s.queue == [Start(TEST_A), Start(TEST_B)] && s.posts == []
    ensures s.left == map[] && s.flight == multiset{} && s.completed == []
  {
    acts, s := [], Init();
    assert Reaches(acts, s);
    hide Reaches, Run, ProcessStart, ProcessComplete, ProcessAnswer;
    NoDuplicateChildren(TEST_A);
    acts, s := Go(acts, s, Post(TEST_A));
    assert s.known == {TEST_A} && s.queue == [Start(TEST_A)];
    NoDuplicateChildren(TEST_B);
    acts, s := Go(acts, s, Post(TEST_B));
  }

  lemma NoDuplicateChildren(a: Activity)
    ensures a.role.Asks? ==> NoDuplicates(a.Children())
  {
  }

  lemma OneRequest()
    ensures Requests(0, {7}) == multiset{Reply(0, 7)}
  {
    NoRequests(0);
    OneMoreRequest(0, {}, 7);
    assert {} + {7} == {7};
  }

  /**
   Both answers arrive before the first is handled: the first test takes them both and posts its completion twice, the
   second of which is not found; the second test has had no answer.
   */
  lemma TwoTestsThrow() returns (acts: seq<Action>, s: State)
    ensures Reaches(acts, s) && s.queue == [Complete(TEST_A), Complete(TEST_A)]
    ensures s.lists == Lists([TEST_A, TEST_B], []) && TEST_B !in s.posts && s.flight == multiset{}
    ensures Run(s, [Process, Process]) == Crash
  {
    acts, s := BothSent();
    hide Reaches, Run, Step;
    var r := Reply(0, 7);
    ArriveStep(s, r);
    acts, s := Go(acts, s, Arrive(r));
    ArriveStep(s, r);
    acts, s := Go(acts, s, Arrive(r));
    assert s.queue == [Answer(r), Answer(r)];
    FirstTest(s, r);
    acts, s := Go(acts, s, Process);
    assert s.queue == [Answer(r), Complete(TEST_A)];
    FirstTest(s, r);
    acts, s := Go(acts, s, Process);
    assert s.queue == [Complete(TEST_A), Complete(TEST_A)];
    ReachedInv(acts, s);
    SecondThrows(s);
  }

  lemma FirstTest(s: State, r: Reply)
    requires s.lists.active == [TEST_A, TEST_B] && r == Reply(0, 7) && s.queue != [] && s.queue[0] == Answer(r)
    requires TEST_A in s.left && s.left[TEST_A] <= {7}
    ensures Step(s, Process) == Next(s.(queue := s.queue[1..] + [Complete(TEST_A)], left := s.left[TEST_A := {}],
                                        posts := s.posts + [TEST_A]))
  {
    assert s.left[TEST_A] - {7} == {};
  }

  lemma ReachedInv(acts: seq<Action>, s: State)
    requires Reaches(acts, s)
    ensures Inv(s)
  {
    RunKeeps(acts);
  }

  lemma SecondThrows(s: State)
    requires Inv(s) && |s.queue| == 2 && s.queue[0].Complete? && s.queue[1] == s.queue[0]
    requires s.queue[0].a in s.lists.active
    ensures Run(s, [Process, Process]) == Crash
  {
    hide Inv;
    StepKeeps(s, Process);
    CompletedIsActive(s, s.queue[0].a);
    CanStep(s);
    ProcessExtends(s);
    hide Step;
    var n := Step(s, Process).state;
    assert n.queue[0] == s.queue[1] && s.queue[0].a in n.completed;
    StepKeeps(n, Process);
    RunOne(n, Process);
    RunFront(s, Process, n, [Process]);
    assert [Process] + [Process] == [Process, Process];
  }
}
