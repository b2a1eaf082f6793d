/**
 The activity scheduler (src/core/queue.cpp:80-193): a FIFO of posted events, the active list and the
 pending list, exclusive activities (api/megastructure/activity.hpp:23-55), activities that never complete
 (src/master/master.cpp:29-30, src/slave/slave.cpp:79-85), activities that send requests and complete when the
 answers are in (src/master/activities.cpp:16-54, 196-276, 383-515, src/slave/activitiesHost.cpp:15-51, 142-182,
 372-446), and activities that start children and complete when the last child has
 (src/master/activities.cpp:58-95, src/slave/activitiesHost.cpp:56-91, 186-345, 450-490), the slave's
 LoadHostsProgram and HostsConfig being exclusive as well.
 */
module ActivityQueue {
  import opened Prelude

  /**
   `Asks` sends a request to each of the clients in start(), or posts its completion there when it reaches none; the
   key says which messages it takes for an answer, for a test those of one client's alive messages. A resident
   activity never completes; `Tests` stands for one whose start() starts the listed children and that completes with
   the last of them.
   */
  datatype Role = Asks(key: nat, clients: set<nat>) | Resident | Tests(children: seq<Activity>)

  /** An activity; the id makes it the identity of a shared pointer, the group is its exclusive class. */
  datatype Activity = Activity(id: nat, group: Option<nat>, role: Role) {
    function Children(): seq<Activity> {
      if role.Tests? then role.children else []
    }

    function Key(): Option<nat> {
      if role.Asks? then Some(role.key) else None
    }

    predicate Simple() {
      role.Asks? && group.None?
    }
  }

  /** Activity::precondition and ExclusiveActivity::precondition. */
  predicate Viable(a: Activity, active: seq<Activity>) {
    a.group.Some? ==> forall i :: 0 <= i < |active| ==> active[i].group != a.group
  }

  ghost predicate NoDuplicates(s: seq<Activity>) {
    forall x :: multiset(s)[x] <= 1
  }

  function IndexOf(s: seq<Activity>, a: Activity): (k: nat)
    ensures k <= |s| && a !in s[..k]
    ensures k < |s| ==> s[k] == a
    ensures k < |s| <==> a in s
  {
    if s == [] || s[0] == a then 0 else 1 + IndexOf(s[1..], a)
  }

  function Without(s: seq<Activity>, a: Activity): seq<Activity> {
    var k := IndexOf(s, a);
    if k < |s| then s[..k] + s[k + 1..] else s
  }

  datatype Lists = Lists(active: seq<Activity>, pending: seq<Activity>)

  /** OnStartActivity: the new lists, and whether the activity became active. */
  function Admit(l: Lists, a: Activity): (Lists, bool) {
    if l.pending == [] && Viable(a, l.active) then (l.(active := l.active + [a]), true)
    else (l.(pending := l.pending + [a]), false)
  }

  /** OnActivityComplete once the activity was found: it leaves, and at most one pending activity enters. */
  function Retire(l: Lists, a: Activity): (Lists, Option<Activity>) {
    var rest := Without(l.active, a);
    if l.pending != [] && Viable(l.pending[0], rest) then
      (Lists(rest + [l.pending[0]], l.pending[1..]), Some(l.pending[0]))
    else (Lists(rest, l.pending), None)
  }

  /** The active activities told of a completion: those before it, or all when it is not there. */
  function Told(l: Lists, a: Activity): seq<Activity> {
    l.active[..IndexOf(l.active, a)]
  }

  // ---- The scheduler with its event queue ----

  /** An answer of a client. */
  datatype Reply = Reply(key: nat, client: nat)

  datatype Event = Start(a: Activity) | Complete(a: Activity) | Answer(reply: Reply)

  datatype State = State(
    queue: seq<Event>,
    lists: Lists,
    waiting: map<Activity, seq<Activity>>,   // m_activities of the started parents
    left: map<Activity, set<nat>>,           // the clients a started activity still waits for
    flight: multiset<Reply>,                 // requests sent and not yet answered
    // history
    known: set<Activity>,
    born: seq<Activity>,        // activities posted for starting
    started: seq<Activity>,     // activities whose start() ran
    posts: seq<Activity>,       // completions posted
    completed: seq<Activity>,   // completions handled
    promoted: set<Activity>     // activities started from the pending list
  )

  datatype Action =
    | Post(a: Activity)       // startActivity from outside
    | Arrive(reply: Reply)    // a client's answer is posted to the queue
    | Process

  datatype Outcome = Next(state: State) | Disabled | Crash

  function Starts(s: seq<Activity>): (r: seq<Event>)
    ensures |r| == |s|
    ensures forall i :: 0 <= i < |s| ==> r[i] == Start(s[i])
  {
    seq(|s|, i requires 0 <= i < |s| => Start(s[i]))
  }

  function PostCompletion(s: State, a: Activity): State {
    s.(queue := s.queue + [Complete(a)], posts := s.posts + [a])
  }

  function PostChildren(s: State, a: Activity): State {
    s.(queue := s.queue + Starts(a.Children()), born := s.born + a.Children(), waiting := s.waiting[a := a.Children()])
  }

  function Requests(key: nat, clients: set<nat>): multiset<Reply> {
    multiset(set c | c in clients :: Reply(key, c))
  }

  function SendRequests(s: State, a: Activity): State
    requires a.role.Asks?
  {
    s.(left := s.left[a := a.role.clients], flight := s.flight + Requests(a.role.key, a.role.clients))
  }

  /** start(). */
  function Begin(s: State, a: Activity): State {
    var t := s.(started := s.started + [a]);
    match a.role
    case Resident => t
    case Asks(_, clients) => if clients == {} then PostCompletion(SendRequests(t, a), a) else SendRequests(t, a)
    case Tests(children) => if children == [] then PostCompletion(PostChildren(t, a), a) else PostChildren(t, a)
  }

  /** clientMessage() of the active activity that takes the answer: it may have posted its completion already. */
  function Take(s: State, a: Activity, client: nat): State {
    var rest := (if a in s.left then s.left[a] else {}) - {client};
    var t := s.(left := s.left[a := rest]);
    if rest == {} then PostCompletion(t, a) else t
  }

  /** The index of the first active activity that takes answers with the key. */
  function TakerIndex(active: seq<Activity>, key: nat): (k: nat)
    ensures k <= |active| && forall i :: 0 <= i < k ==> active[i].Key() != Some(key)
    ensures k < |active| ==> active[k].Key() == Some(key)
  {
    if active == [] || active[0].Key() == Some(key) then 0 else 1 + TakerIndex(active[1..], key)
  }

  function ProcessAnswer(s: State, r: Reply): State {
    var k := TakerIndex(s.lists.active, r.key);
    if k < |s.lists.active| then Take(s, s.lists.active[k], r.client) else s
  }

  /** activityComplete() of one active activity. */
  function Tell(s: State, p: Activity, a: Activity): State {
    if p in s.waiting && a in s.waiting[p] then
      var left := Without(s.waiting[p], a);
      var t := s.(waiting := s.waiting[p := left]);
      if left == [] then PostCompletion(t, p) else t
    else s
  }

  function TellAll(s: State, told: seq<Activity>, a: Activity): State
    decreases |told|
  {
    if told == [] then s else TellAll(Tell(s, told[0], a), told[1..], a)
  }

  function ProcessStart(s: State, a: Activity): Outcome {
    var (lists, started) := Admit(s.lists, a);
    var t := s.(lists := lists);
    Next(if started then Begin(t, a) else t)
  }

  function ProcessComplete(s: State, a: Activity): Outcome {
    var t := TellAll(s, Told(s.lists, a), a);
    if a !in s.lists.active then Crash
    else
      var (lists, next) := Retire(s.lists, a);
      var u := t.(lists := lists, completed := t.completed + [a]);
      match next
      case None => Next(u)
      case Some(b) => Next(Begin(u.(promoted := u.promoted + {b}), b))
  }

  /** A new activity and its children are new objects. */
  ghost predicate IsNew(s: State, a: Activity) {
    && a !in s.known
    && NoDuplicates(a.Children())
    && forall i :: 0 <= i < |a.Children()| ==>
         var c := a.Children()[i]; c !in s.known && c != a && c.Simple()
  }

  ghost function Step(s: State, act: Action): Outcome {
    match act
    case Post(a) =>
      if IsNew(s, a) then
        Next(s.(queue := s.queue + [Start(a)], born := s.born + [a],
                known := s.known + {a} + set i | 0 <= i < |a.Children()| :: a.Children()[i]))
      else Disabled
    case Arrive(r) =>
      if r in s.flight then Next(s.(queue := s.queue + [Answer(r)], flight := s.flight - multiset{r})) else Disabled
    case Process =>
      if s.queue == [] then Disabled
      else
        var t := s.(queue := s.queue[1..]);
        match s.queue[0]
        case Start(a) => ProcessStart(t, a)
        case Complete(a) => ProcessComplete(t, a)
        case Answer(r) => Next(ProcessAnswer(t, r))
  }

  function Init(): State {
    State([], Lists([], []), map[], map[], multiset{}, {}, [], [], [], [], {})
  }

  ghost function Run(s: State, acts: seq<Action>): Outcome {
    if acts == [] then Next(s)
    else
      match Run(s, acts[..|acts| - 1])
      case Next(m) => Step(m, acts[|acts| - 1])
      case o => o
  }

  // ---- The invariant ----

  function StartsIn(q: seq<Event>): seq<Activity> {
    if q == [] then [] else (if q[0].Start? then [q[0].a] else []) + StartsIn(q[1..])
  }

  function CompletesIn(q: seq<Event>): seq<Activity> {
    if q == [] then [] else (if q[0].Complete? then [q[0].a] else []) + CompletesIn(q[1..])
  }

  /** Activities become active, and completions are handled, in the order they were posted. */
  ghost predicate InOrder(s: State) {
    && s.born == s.started + s.lists.pending + StartsIn(s.queue)
    && s.posts == s.completed + CompletesIn(s.queue)
  }

  ghost predicate Once(s: State) {
    && NoDuplicates(s.born)
    && multiset(s.started) == multiset(s.lists.active) + multiset(s.completed)
    && (forall a :: a in s.posts ==> a in s.started)
    && (forall a :: a in s.born ==> a in s.known)
  }

  ghost predicate Families(known: set<Activity>) {
    && (forall p, c :: p in known && c in p.Children() ==> c in known && c.Simple())
    && (forall p, q, c :: p in known && q in known && c in p.Children() && c in q.Children() ==> p == q)
    && (forall p :: p in known ==> NoDuplicates(p.Children()))
  }

  /** What a parent waits for. */
  ghost predicate ParentOk(s: State, p: Activity) {
    if p !in s.started then forall c :: c in p.Children() ==> c !in s.born
    else
      && p in s.waiting && NoDuplicates(s.waiting[p])
      && (forall c :: c in p.Children() ==> c in s.born)
      && (forall c :: c in s.waiting[p] <==> c in p.Children() && c !in s.completed)
      && multiset(s.posts)[p] == if s.waiting[p] == [] then 1 else 0
  }

  ghost predicate ParentsOk(s: State) {
    && (forall p :: p in s.known && p.role.Tests? ==> ParentOk(s, p))
    && (forall p :: p in s.waiting ==> p in s.known && p.role.Tests? && p in s.started)
  }

  /** What an activity that has sent its requests waits for. */
  ghost predicate AskerOk(s: State, a: Activity)
    requires a.role.Asks?
  {
    a in s.left && s.left[a] <= a.role.clients && (a in s.posts <==> s.left[a] == {})
  }

  ghost predicate AskersOk(s: State) {
    forall a :: a in s.started && a.role.Asks? ==> AskerOk(s, a)
  }

  /** A parent stands before its children in the active list. */
  ghost predicate ParentsFirst(active: seq<Activity>) {
    forall i, j :: 0 <= i < |active| && 0 <= j < |active| && active[i] in active[j].Children() ==> j < i
  }

  ghost predicate ExclusiveOnce(active: seq<Activity>) {
    forall i, j :: 0 <= i < j < |active| && active[i].group.Some? ==> active[i].group != active[j].group
  }

  /** The first pending activity is blocked, or one started from the pending list is still active. */
  ghost predicate NotStranded(l: Lists, promoted: set<Activity>) {
    l.pending == [] || !Viable(l.pending[0], l.active) || exists i :: 0 <= i < |l.active| && l.active[i] in promoted
  }

  ghost predicate ListsOk(s: State) {
    ParentsFirst(s.lists.active) && ExclusiveOnce(s.lists.active) && NotStranded(s.lists, s.promoted)
  }

  ghost predicate Inv(s: State) {
    InOrder(s) && Once(s) && Families(s.known) && ParentsOk(s) && AskersOk(s) && ListsOk(s)
  }

  // ---- Sequences ----

  lemma {:induction false} StartsAppend(q: seq<Event>, r: seq<Event>)
    ensures StartsIn(q + r) == StartsIn(q) + StartsIn(r)
  {
    if q == [] {
      assert q + r == r;
    } else {
      assert (q + r)[0] == q[0] && (q + r)[1..] == q[1..] + r;
      StartsAppend(q[1..], r);
    }
  }

  lemma {:induction false} CompletesAppend(q: seq<Event>, r: seq<Event>)
    ensures CompletesIn(q + r) == CompletesIn(q) + CompletesIn(r)
  {
    if q == [] {
      assert q + r == r;
    } else {
      assert (q + r)[0] == q[0] && (q + r)[1..] == q[1..] + r;
      CompletesAppend(q[1..], r);
    }
  }

  lemma EventsAppend(q: seq<Event>, r: seq<Event>)
    ensures StartsIn(q + r) == StartsIn(q) + StartsIn(r)
    ensures CompletesIn(q + r) == CompletesIn(q) + CompletesIn(r)
  {
    StartsAppend(q, r);
    CompletesAppend(q, r);
  }

  lemma {:induction false} StartsAre(s: seq<Activity>)
    ensures StartsIn(Starts(s)) == s && CompletesIn(Starts(s)) == []
  {
    if s != [] {
      assert Starts(s)[1..] == Starts(s[1..]);
      StartsAre(s[1..]);
    }
  }

  lemma JoinNoDuplicates(s: seq<Activity>, r: seq<Activity>)
    ensures NoDuplicates(s + r) <==> NoDuplicates(s) && NoDuplicates(r) && forall x :: !(x in s && x in r)
  {
    assert forall x :: multiset(s + r)[x] == multiset(s)[x] + multiset(r)[x];
    if NoDuplicates(s + r) {
      forall x ensures multiset(s)[x] <= 1 && multiset(r)[x] <= 1 && !(x in s && x in r) {
        assert multiset(s + r)[x] == multiset(s)[x] + multiset(r)[x];
      }
    } else if NoDuplicates(s) && NoDuplicates(r) && forall x :: !(x in s && x in r) {
      forall x ensures multiset(s + r)[x] <= 1 {
        assert x in s || multiset(s)[x] == 0;
        assert x in r || multiset(r)[x] == 0;
      }
    }
  }

  lemma AppendNoDuplicates(s: seq<Activity>, a: Activity)
    requires NoDuplicates(s) && a !in s
    ensures NoDuplicates(s + [a])
  {
    JoinNoDuplicates(s, [a]);
  }

  lemma WithoutIs(s: seq<Activity>, a: Activity)
    requires a in s
    ensures multiset(s) == multiset(Without(s, a)) + multiset{a}
    ensures NoDuplicates(s) ==> NoDuplicates(Without(s, a)) && forall x :: x in Without(s, a) <==> x in s && x != a
  {
    var k := IndexOf(s, a);
    assert s == s[..k] + [a] + s[k + 1..];
    if NoDuplicates(s) {
      forall x ensures multiset(Without(s, a))[x] == multiset(s)[x] - (if x == a then 1 else 0) {
        assert multiset(s)[x] == multiset(Without(s, a))[x] + multiset{a}[x];
      }
      forall x ensures x in Without(s, a) <==> x in s && x != a {
        assert multiset(s)[x] <= 1;
        assert x in Without(s, a) <==> multiset(Without(s, a))[x] > 0;
      }
    }
  }

  /** Started activities are active or completed, never both, each once. */
  lemma StartedSplit(s: State)
    requires NoDuplicates(s.born) && s.started <= s.born
    requires multiset(s.started) == multiset(s.lists.active) + multiset(s.completed)
    ensures NoDuplicates(s.started) && NoDuplicates(s.lists.active) && NoDuplicates(s.completed)
    ensures forall a :: a in s.started <==> a in s.lists.active || a in s.completed
    ensures forall a :: !(a in s.lists.active && a in s.completed)
  {
    assert s.born == s.started + s.born[|s.started|..];
    JoinNoDuplicates(s.started, s.born[|s.started|..]);
    assert multiset(s.lists.active + s.completed) == multiset(s.started);
    assert NoDuplicates(s.lists.active + s.completed);
    JoinNoDuplicates(s.lists.active, s.completed);
    forall a ensures a in s.started <==> a in s.lists.active || a in s.completed {
      assert multiset(s.started)[a] == multiset(s.lists.active)[a] + multiset(s.completed)[a];
    }
  }

  // ---- Steps keep the invariant ----

  lemma PostKeeps(s: State, a: Activity)
    requires Inv(s) && IsNew(s, a)
    ensures Inv(Step(s, Post(a)).state)
  {
    hide NoDuplicates, ParentOk, InOrder;
    var n := Step(s, Post(a)).state;
    PostOrder(s, a);
    PostFamilies(s, a, n.known);
    assert forall c :: c in s.started ==> c in s.known by { StartedKnown(s); }
    PostParents(s, n, a);
  }

  lemma StartedKnown(s: State)
    requires InOrder(s) && Once(s)
    ensures forall c :: c in s.started ==> c in s.born && c in s.known
  {
  }

  lemma PostOrder(s: State, a: Activity)
    requires InOrder(s) && Once(s) && IsNew(s, a)
    ensures InOrder(Step(s, Post(a)).state) && Once(Step(s, Post(a)).state)
  {
    hide NoDuplicates;
    EventsAppend(s.queue, [Start(a)]);
    Associate(s.started, s.lists.pending, StartsIn(s.queue), [a]);
    AppendNoDuplicates(s.born, a);
  }

  lemma PostFamilies(s: State, a: Activity, known: set<Activity>)
    requires Families(s.known) && IsNew(s, a)
    requires forall c :: c in known <==> c in s.known || c == a || c in a.Children()
    ensures Families(known)
  {
    forall p, c | p in known && c in p.Children() ensures c in known && c.Simple() && (p in s.known <==> c in s.known) {
      assert p in s.known || p == a;
    }
  }

  lemma PostParents(s: State, n: State, a: Activity)
    requires ParentsOk(s) && IsNew(s, a) && Families(s.known)
    requires n.started == s.started && n.born == s.born + [a] && n.waiting == s.waiting
             && n.completed == s.completed && n.posts == s.posts
    requires forall c :: c in n.known <==> c in s.known || c == a || c in a.Children()
    requires forall c :: c in s.born || c in s.started ==> c in s.known
    ensures ParentsOk(n)
  {
    forall p | p in n.known && p.role.Tests? ensures ParentOk(n, p) {
      assert p == a || p in s.known;
    }
  }

  lemma CompletionOrder(s: State, a: Activity)
    requires InOrder(s) && Once(s) && a in s.started
    ensures InOrder(PostCompletion(s, a)) && Once(PostCompletion(s, a))
  {
    hide NoDuplicates;
    EventsAppend(s.queue, [Complete(a)]);
  }

  lemma ArriveKeeps(s: State, r: Reply)
    requires Inv(s) && Step(s, Arrive(r)).Next?
    ensures Inv(Step(s, Arrive(r)).state)
  {
    hide Inv;
    EventsAppend(s.queue, [Answer(r)]);
    assert [] == StartsIn([Answer(r)]) == CompletesIn([Answer(r)]);
    SameEvents(s, Step(s, Arrive(r)).state);
  }

  /** Answers that come or go do not matter to the invariant. */
  lemma SameEvents(s: State, n: State)
    requires Inv(s) && n == s.(queue := n.queue, flight := n.flight)
    requires StartsIn(n.queue) == StartsIn(s.queue) && CompletesIn(n.queue) == CompletesIn(s.queue)
    ensures Inv(n)
  {
    hide NoDuplicates, ParentsOk, AskersOk, Families, ListsOk;
    SameParents(s, n);
    SameAskers(s, n);
    SameLists(s, n);
  }

  lemma SameParents(s: State, n: State)
    requires ParentsOk(s) && n.known == s.known && n.waiting == s.waiting && n.started == s.started
    requires n.born == s.born && n.completed == s.completed
    requires forall p: Activity :: p.role.Tests? ==> multiset(n.posts)[p] == multiset(s.posts)[p]
    ensures ParentsOk(n)
  {
    forall p | p in n.known && p.role.Tests? ensures ParentOk(n, p) {
      assert ParentOk(s, p);
    }
  }

  /** The activity an answer goes to is active. */
  lemma TakeKeeps(s: State, a: Activity, client: nat)
    requires Inv(s) && a in s.lists.active && a.role.Asks?
    ensures Inv(Take(s, a, client))
  {
    hide NoDuplicates, InOrder, ParentsOk, ListsOk, Families;
    assert a in s.started by { StartedSplits(s); }
    var rest := s.left[a] - {client};
    var t := s.(left := s.left[a := rest]);
    var n := Take(s, a, client);
    assert InOrder(t) && Once(t) by { SameOrder(s, t); }
    if rest == {} {
      CompletionOrder(t, a);
    }
    assert AskersOk(n) by { TakeAskers(s, n, a, rest); }
    SameParents(s, n);
    assert ListsOk(n) by { SameLists(s, n); }
  }

  lemma SameAskers(s: State, n: State)
    requires AskersOk(s) && n.started == s.started && n.left == s.left && n.posts == s.posts
    ensures AskersOk(n)
  {
    forall b | b in n.started && b.role.Asks? ensures AskerOk(n, b) {
      assert AskerOk(s, b);
    }
  }

  lemma TakeAskers(s: State, n: State, a: Activity, rest: set<nat>)
    requires AskersOk(s) && a in s.started && a.role.Asks? && rest <= s.left[a]
    requires n.started == s.started && n.left == s.left[a := rest]
    requires n.posts == if rest == {} then s.posts + [a] else s.posts
    ensures AskersOk(n)
  {
    forall b | b in n.started && b.role.Asks? ensures AskerOk(n, b) {
      assert AskerOk(s, b) && AskerOk(s, a);
    }
  }

  lemma SameLists(s: State, n: State)
    requires ListsOk(s) && n.lists == s.lists && n.promoted == s.promoted
    ensures ListsOk(n)
  {
  }

  lemma AnswerKeeps(s: State, r: Reply)
    requires Inv(s) && s.queue != [] && s.queue[0] == Answer(r)
    ensures Inv(ProcessAnswer(s.(queue := s.queue[1..]), r))
  {
    hide Inv, Take;
    var t := s.(queue := s.queue[1..]);
    SameEvents(s, t);
    var k := TakerIndex(s.lists.active, r.key);
    if k < |s.lists.active| {
      TakeKeeps(t, s.lists.active[k], r.client);
    }
  }

  lemma StartedSplits(s: State)
    requires InOrder(s) && Once(s)
    ensures NoDuplicates(s.started) && NoDuplicates(s.lists.active) && NoDuplicates(s.completed)
    ensures forall a :: a in s.started <==> a in s.lists.active || a in s.completed
    ensures forall a :: !(a in s.lists.active && a in s.completed)
  {
    StartedSplit(s);
  }

  /** The part of the invariant that does not concern the order of starting. */
  ghost predicate Settled(s: State) {
    && s.posts == s.completed + CompletesIn(s.queue)
    && Once(s) && Families(s.known) && ParentsOk(s) && AskersOk(s)
    && ParentsFirst(s.lists.active) && ExclusiveOnce(s.lists.active)
  }

  /** The state after activity a has been started, the given activities staying pending. */
  function Activated(s: State, a: Activity, pending: seq<Activity>, promoted: set<Activity>): State {
    Begin(s.(lists := Lists(s.lists.active + [a], pending), promoted := promoted), a)
  }

  lemma ActivateKeeps(s: State, a: Activity, pending: seq<Activity>, promoted: set<Activity>)
    requires Settled(s) && Viable(a, s.lists.active)
    requires s.born == s.started + [a] + pending + StartsIn(s.queue)
    requires NotStranded(Lists(s.lists.active + [a], pending), promoted)
    ensures Inv(Activated(s, a, pending, promoted))
  {
    hide NoDuplicates, NotStranded, Viable, Once, InOrder, Activated, Settled, ParentsOk, AskersOk, Families, ParentOk,
      ParentsFirst, ExclusiveOnce;
    var n := Activated(s, a, pending, promoted);
    NextToStart(s, a, pending);
    ActivateOrder(s, a, pending, promoted);
    ActivatedFields(s, a, pending, promoted);
    SettledParts(s);
    ActivateParents(s, n, a);
    ActivateAskers(s, n, a);
    ActivateLists(s, a);
  }

  lemma SettledParts(s: State)
    requires Settled(s)
    ensures Families(s.known) && AskersOk(s)
  {
  }

  /** What starting an activity changes. */
  lemma ActivatedFields(s: State, a: Activity, pending: seq<Activity>, promoted: set<Activity>)
    ensures var n := Activated(s, a, pending, promoted);
            && n.known == s.known && n.completed == s.completed && n.promoted == promoted
            && n.lists == Lists(s.lists.active + [a], pending)
            && n.started == s.started + [a] && n.born == s.born + a.Children()
            && n.waiting == (if a.role.Tests? then s.waiting[a := a.Children()] else s.waiting)
            && n.left == (if a.role.Asks? then s.left[a := a.role.clients] else s.left)
            && n.posts == if AtOnce(a) then s.posts + [a] else s.posts
  {
    hide Starts, Requests;
  }

  /** The next activity in the order has not been started, and neither have its children been posted. */
  lemma NextToStart(s: State, a: Activity, pending: seq<Activity>)
    requires Settled(s) && s.born == s.started + [a] + pending + StartsIn(s.queue)
    ensures a in s.born && a !in s.started && a !in s.posts && a in s.known
    ensures forall c :: c in a.Children() ==> c !in s.born && c in s.known
    ensures NoDuplicates(a.Children()) && (a.role.Tests? ==> ParentOk(s, a))
    ensures forall c :: c in s.lists.active || c in s.completed ==> c in s.born
  {
    hide NoDuplicates, ParentsFirst, ExclusiveOnce;
    assert s.born == s.started + ([a] + pending + StartsIn(s.queue));
    StartedSplit(s);
    JoinNoDuplicates(s.started, [a] + pending + StartsIn(s.queue));
    assert a in s.born && a !in s.started;
    assert a.role.Tests? ==> ParentOk(s, a);
  }

  lemma ActivateOrder(s: State, a: Activity, pending: seq<Activity>, promoted: set<Activity>)
    requires Settled(s) && a !in s.started && a !in s.posts && a in s.known
    requires s.born == s.started + [a] + pending + StartsIn(s.queue)
    requires forall c :: c in a.Children() ==> c !in s.born && c in s.known
    requires NoDuplicates(a.Children())
    ensures var n := Activated(s, a, pending, promoted); InOrder(n) && Once(n)
  {
    hide NoDuplicates, InOrder, Once, Settled;
    var t := s.(lists := Lists(s.lists.active + [a], pending), promoted := promoted, started := s.started + [a]);
    assert InOrder(t) && Once(t) && a in t.started by { StartedOrder(s, t, a); }
    match a.role
    case Tests(_) =>
      ChildrenOrder(t, a);
      CompletionOrder(PostChildren(t, a), a);
    case Asks(_, _) => RequestsOrder(t, a);
    case Resident =>
  }

  lemma StartedOrder(s: State, t: State, a: Activity)
    requires Settled(s) && a !in s.started
    requires t == s.(lists := t.lists, promoted := t.promoted, started := s.started + [a])
    requires t.lists.active == s.lists.active + [a] && s.born == s.started + [a] + t.lists.pending + StartsIn(s.queue)
    ensures InOrder(t) && Once(t) && a in t.started
  {
    hide NoDuplicates, Families, ParentsOk, AskersOk, ParentsFirst, ExclusiveOnce;
    assert t.started[|s.started|] == a;
    assert multiset(t.started) == multiset(s.started) + multiset{a};
    assert multiset(t.lists.active) == multiset(s.lists.active) + multiset{a};
  }

  lemma RequestsOrder(s: State, a: Activity)
    requires InOrder(s) && Once(s) && a.role.Asks? && a in s.started
    ensures var u := SendRequests(s, a);
            && InOrder(u) && Once(u) && InOrder(PostCompletion(u, a)) && Once(PostCompletion(u, a))
  {
    hide NoDuplicates, InOrder, Once;
    var u := SendRequests(s, a);
    SameOrder(s, u);
    CompletionOrder(u, a);
  }

  lemma ChildrenOrder(s: State, a: Activity)
    requires InOrder(s) && Once(s) && NoDuplicates(a.Children())
    requires forall c :: c in a.Children() ==> c !in s.born && c in s.known
    ensures InOrder(PostChildren(s, a)) && Once(PostChildren(s, a))
  {
    hide Once;
    var n := PostChildren(s, a);
    StartsAre(a.Children());
    EventsAppend(s.queue, Starts(a.Children()));
    Associate(s.started, s.lists.pending, StartsIn(s.queue), a.Children());
    assert InOrder(n);
    ChildrenOnce(s, a);
  }

  lemma Associate(a: seq<Activity>, b: seq<Activity>, c: seq<Activity>, d: seq<Activity>)
    ensures a + b + c + d == a + b + (c + d)
  {
  }

  lemma ChildrenOnce(s: State, a: Activity)
    requires Once(s) && NoDuplicates(a.Children())
    requires forall c :: c in a.Children() ==> c !in s.born && c in s.known
    ensures Once(PostChildren(s, a))
  {
    hide NoDuplicates;
    JoinNoDuplicates(s.born, a.Children());
  }

  /** start() posts the completion of an activity that has nothing to wait for. */
  predicate AtOnce(a: Activity) {
    (a.role.Tests? && a.Children() == []) || (a.role.Asks? && a.role.clients == {})
  }

  lemma ActivateParents(s: State, n: State, a: Activity)
    requires Settled(s) && a !in s.started && a in s.known && a !in s.posts
    requires a.role.Tests? ==> ParentOk(s, a)
    requires n.known == s.known && n.completed == s.completed
    requires n.started == s.started + [a] && n.born == s.born + a.Children()
    requires n.waiting == if a.role.Tests? then s.waiting[a := a.Children()] else s.waiting
    requires n.posts == if AtOnce(a) then s.posts + [a] else s.posts
    requires forall c :: c in s.completed ==> c in s.born
    ensures ParentsOk(n)
  {
    forall p | p in n.known && p.role.Tests? ensures ParentOk(n, p) {
      assert ParentOk(s, p);
    }
  }

  lemma ActivateAskers(s: State, n: State, a: Activity)
    requires AskersOk(s) && a !in s.started && a !in s.posts && n.started == s.started + [a]
    requires n.left == if a.role.Asks? then s.left[a := a.role.clients] else s.left
    requires n.posts == if AtOnce(a) then s.posts + [a] else s.posts
    ensures AskersOk(n)
  {
    forall b | b in n.started && b.role.Asks? ensures AskerOk(n, b) {
      assert b != a ==> AskerOk(s, b);
    }
  }

  lemma ActivateLists(s: State, a: Activity)
    requires Settled(s) && Viable(a, s.lists.active) && a in s.born
    requires forall c :: c in a.Children() ==> c !in s.born
    requires forall c :: c in s.lists.active ==> c in s.born
    ensures ParentsFirst(s.lists.active + [a]) && ExclusiveOnce(s.lists.active + [a])
  {
  }

  lemma StartKeeps(s: State, a: Activity)
    requires Inv(s) && s.queue != [] && s.queue[0] == Start(a)
    ensures ProcessStart(s.(queue := s.queue[1..]), a).Next? && Inv(ProcessStart(s.(queue := s.queue[1..]), a).state)
  {
    hide Inv, Settled, Begin, Viable, NotStranded;
    var t := s.(queue := s.queue[1..]);
    Popped(s, a);
    if Admit(s.lists, a).1 {
      assert s.started + [] + ([a] + StartsIn(t.queue)) == s.started + [a] + [] + StartsIn(t.queue);
      assert NotStranded(Lists(t.lists.active + [a], []),
        s.promoted) by { NothingPending(t.lists.active + [a], s.promoted); }
      ActivateKeeps(t, a, [], s.promoted);
    } else {
      Associate(s.started, s.lists.pending, [a], StartsIn(t.queue));
      PendKeeps(s, t.(lists := t.lists.(pending := t.lists.pending + [a])), a);
    }
  }

  lemma Popped(s: State, a: Activity)
    requires Inv(s) && s.queue != [] && s.queue[0] == Start(a)
    ensures var t := s.(queue := s.queue[1..]);
            Settled(t) && t.born == s.started + s.lists.pending + ([a] + StartsIn(t.queue))
  {
    hide NoDuplicates, ParentsFirst, ExclusiveOnce, NotStranded;
    var t := s.(queue := s.queue[1..]);
    assert CompletesIn(s.queue) == [] + CompletesIn(t.queue);
  }

  lemma NothingPending(active: seq<Activity>, promoted: set<Activity>)
    ensures NotStranded(Lists(active, []), promoted)
  {
  }

  lemma PendKeeps(s: State, n: State, a: Activity)
    requires Inv(s) && s.queue != [] && s.queue[0] == Start(a)
    requires n == s.(queue := s.queue[1..], lists := s.lists.(pending := s.lists.pending + [a]))
    requires s.lists.pending != [] || !Viable(a, s.lists.active)
    requires n.born == n.started + n.lists.pending + StartsIn(n.queue)
    ensures Inv(n)
  {
    hide NoDuplicates, Viable, ParentsOk, AskersOk, Families, ParentsFirst, ExclusiveOnce, Once, InOrder, NotStranded;
    SameParents(s, n);
    SameAskers(s, n);
    PendOrder(s, n, a);
    assert NotStranded(n.lists, n.promoted) by {
      PendStranded(s, n, a);
    }
  }

  lemma PendOrder(s: State, n: State, a: Activity)
    requires InOrder(s) && Once(s) && s.queue != [] && s.queue[0] == Start(a)
    requires n == s.(queue := s.queue[1..], lists := s.lists.(pending := s.lists.pending + [a]))
    requires n.born == n.started + n.lists.pending + StartsIn(n.queue)
    ensures InOrder(n) && Once(n)
  {
    hide NoDuplicates;
    assert CompletesIn(s.queue) == [] + CompletesIn(n.queue);
  }

  lemma PendStranded(s: State, n: State, a: Activity)
    requires NotStranded(s.lists, s.promoted) && n.promoted == s.promoted
    requires n.lists == s.lists.(pending := s.lists.pending + [a])
    requires s.lists.pending != [] || !Viable(a, s.lists.active)
    ensures NotStranded(n.lists, n.promoted)
  {
    hide Viable;
    assert n.lists.pending[0] == if s.lists.pending == [] then a else s.lists.pending[0];
  }

  /** At most one parent waits for an activity, so only that one reacts. */
  lemma {:induction false} TellAllIs(s: State, told: seq<Activity>, a: Activity)
    requires forall p, q :: p in s.waiting && q in s.waiting && a in s.waiting[p] && a in s.waiting[q] ==> p == q
    requires forall p :: p in s.waiting ==> NoDuplicates(s.waiting[p])
    ensures (forall p :: p in told && p in s.waiting ==> a !in s.waiting[p]) ==> TellAll(s, told, a) == s
    ensures forall p :: p in told && p in s.waiting && a in s.waiting[p] ==> TellAll(s, told, a) == Tell(s, p, a)
    decreases |told|
  {
    hide NoDuplicates, Without;
    if told != [] {
      var p := told[0];
      if p in s.waiting && a in s.waiting[p] {
        WithoutIs(s.waiting[p], a);
      }
      TellAllIs(Tell(s, p, a), told[1..], a);
    }
  }

  /** An activity whose completion comes up is active unless it has been completed before. */
  lemma CompletedIsActive(s: State, a: Activity)
    requires Inv(s) && s.queue != [] && s.queue[0] == Complete(a)
    ensures a in s.posts && a in s.born && (a in s.lists.active <==> a !in s.completed)
    ensures s.posts == s.completed + [a] + CompletesIn(s.queue[1..])
  {
    assert s.posts == s.completed + ([a] + CompletesIn(s.queue[1..]));
    StartedSplits(s);
  }

  /** The part of the invariant that does not mention the event queue. */
  ghost predicate Parts(s: State) {
    && s.started <= s.born && s.completed <= s.posts
    && Once(s) && Families(s.known) && ParentsOk(s) && AskersOk(s) && ParentsFirst(s.lists.active)
  }

  /** The parent that waits for an activity, if any, is active and is told. */
  lemma ParentIsTold(s: State, a: Activity, p: Activity)
    requires Parts(s) && a in s.lists.active && a !in s.completed && a in s.born
    requires p in s.known && a in p.Children()
    ensures p in s.waiting && a in s.waiting[p] && p in Told(s.lists, a)
  {
    assert ParentOk(s, p);
    StartedSplit(s);
    assert p in s.lists.active by {
      assert s.waiting[p] != [];
      assert p !in s.completed by { assert forall x :: x in s.completed ==> x in s.posts; }
    }
    var k, i := IndexOf(s.lists.active, a), IndexOf(s.lists.active, p);
    assert i < k;
    assert Told(s.lists, a)[i] == p;
  }

  /** What telling the active activities of a completion amounts to. */
  lemma TellAllParent(s: State, a: Activity)
    requires Parts(s) && a in s.lists.active && a !in s.completed && a in s.born
    ensures forall p :: p in s.known && a in p.Children() ==> TellAll(s, Told(s.lists, a), a) == Tell(s, p, a)
    ensures (forall p :: p in s.known ==> a !in p.Children()) ==> TellAll(s, Told(s.lists, a), a) == s
  {
    forall p | p in s.waiting ensures ParentOk(s, p) {
    }
    TellAllIs(s, Told(s.lists, a), a);
    forall p | p in s.known && a in p.Children() ensures TellAll(s, Told(s.lists, a), a) == Tell(s, p, a) {
      ParentIsTold(s, a, p);
    }
  }

  /** The state once the completed activity has left and before a pending one may enter. */
  function Left(s: State, a: Activity): State {
    TellAll(s, Told(s.lists, a), a).(lists := s.lists.(active := Without(s.lists.active, a)),
      completed := s.completed + [a])
  }

  lemma {:induction false} TellAllFrame(s: State, told: seq<Activity>, a: Activity)
    ensures var t := TellAll(s, told, a);
            t == s.(queue := t.queue, waiting := t.waiting, posts := t.posts)
    decreases |told|
  {
    if told != [] {
      TellAllFrame(Tell(s, told[0], a), told[1..], a);
    }
  }

  lemma LeftOnce(s: State, a: Activity)
    requires s.started <= s.born && Once(s) && a in s.lists.active
    ensures Once(s.(lists := s.lists.(active := Without(s.lists.active, a)), completed := s.completed + [a]))
  {
    StartedSplit(s);
    WithoutIs(s.lists.active, a);
  }

  lemma LeftLists(s: State, a: Activity)
    requires ParentsFirst(s.lists.active) && ExclusiveOnce(s.lists.active)
    ensures ParentsFirst(Without(s.lists.active, a)) && ExclusiveOnce(Without(s.lists.active, a))
  {
    var r := Without(s.lists.active, a);
    var k := IndexOf(s.lists.active, a);
    assert forall i :: 0 <= i < |r| ==> r[i] == s.lists.active[if i < k then i else i + 1];
  }

  /** After the completion of a child its parent waits for the others, and posts its own if there are none. */
  lemma LeftParents(s: State, n: State, a: Activity)
    requires Families(s.known) && ParentsOk(s) && a in s.posts
    requires forall p :: p in s.known && a in p.Children() ==>
               && p in s.waiting && a in s.waiting[p]
               && n.waiting == s.waiting[p := Without(s.waiting[p], a)]
               && n.posts == if Without(s.waiting[p], a) == [] then s.posts + [p] else s.posts
    requires (forall p :: p in s.known ==> a !in p.Children()) ==> n.waiting == s.waiting && n.posts == s.posts
    requires n.known == s.known && n.born == s.born && n.started == s.started && n.completed == s.completed + [a]
    ensures ParentsOk(n)
  {
    hide ParentOk, Families, Without;
    forall p | p in n.known && p.role.Tests? ensures ParentOk(n, p) {
      assert ParentOk(s, p);
      if a in p.Children() {
        ChildLeft(s, n, a, p);
      } else {
        if q :| q in s.known && a in q.Children() { assert n.waiting == s.waiting[q := Without(s.waiting[q], a)]; }
        OtherLeft(s, n, a, p);
      }
    }
  }

  lemma ChildLeft(s: State, n: State, a: Activity, p: Activity)
    requires ParentOk(s, p) && p in s.started && p in s.waiting && a in s.waiting[p]
    requires n.waiting == s.waiting[p := Without(s.waiting[p], a)]
    requires n.posts == if Without(s.waiting[p], a) == [] then s.posts + [p] else s.posts
    requires n.born == s.born && n.started == s.started && n.completed == s.completed + [a]
    ensures ParentOk(n, p)
  {
    hide NoDuplicates, Without;
    WithoutIs(s.waiting[p], a);
    assert multiset(s.posts + [p])[p] == multiset(s.posts)[p] + 1;
  }

  lemma OtherLeft(s: State, n: State, a: Activity, p: Activity)
    requires ParentOk(s, p) && a !in p.Children()
    requires p in s.waiting ==> p in n.waiting && n.waiting[p] == s.waiting[p]
    requires multiset(n.posts)[p] == multiset(s.posts)[p]
    requires n.born == s.born && n.started == s.started && n.completed == s.completed + [a]
    ensures ParentOk(n, p)
  {
    hide NoDuplicates;
  }

  lemma LeftOrder(s: State, a: Activity)
    requires Inv(s) && s.queue != [] && s.queue[0] == Complete(a) && a in s.lists.active
    ensures var v := Left(s.(queue := s.queue[1..]), a); InOrder(v) && Once(v)
  {
    hide NoDuplicates, Inv, InOrder, Once, ListsOk, ParentsOk, Families, TellAll, Without;
    var t := s.(queue := s.queue[1..]);
    assert Parts(t) && a in t.lists.active && a !in t.completed && a in t.born by { HeadParts(s, a); }
    TellAllParent(t, a);
    var w := t.(lists := t.lists.(active := Without(t.lists.active, a)), completed := t.completed + [a]);
    assert InOrder(w) && Once(w) by { RemovedOrder(s, a); }
    if p :| p in s.known && a in p.Children() {
      ParentIsTold(t, a, p);
      var left := Without(s.waiting[p], a);
      var x := w.(waiting := s.waiting[p := left]);
      assert InOrder(x) && Once(x) by { SameOrder(w, x); }
      if left == [] {
        assert p in x.started by { WaitingParent(t, a, p); }
        CompletionOrder(x, p);
      }
    }
  }

  lemma HeadParts(s: State, a: Activity)
    requires Inv(s) && s.queue != [] && s.queue[0] == Complete(a) && a in s.lists.active
    ensures Parts(s.(queue := s.queue[1..])) && a in s.lists.active && a !in s.completed && a in s.born
  {
    CompletedIsActive(s, a);
  }

  lemma SameOrder(s: State, n: State)
    requires InOrder(s) && Once(s) && n == s.(waiting := n.waiting, left := n.left, flight := n.flight)
    ensures InOrder(n) && Once(n)
  {
  }

  lemma RemovedOrder(s: State, a: Activity)
    requires Inv(s) && s.queue != [] && s.queue[0] == Complete(a) && a in s.lists.active
    ensures var w := s.(queue := s.queue[1..], lists := s.lists.(active := Without(s.lists.active, a)),
            completed := s.completed + [a]);
            InOrder(w) && Once(w)
  {
    hide NoDuplicates, Without;
    CompletedIsActive(s, a);
    assert Inv(s) ==> Once(s) && InOrder(s);
    hide Inv;
    LeftOnce(s, a);
  }

  lemma WaitingParent(s: State, a: Activity, p: Activity)
    requires ParentsOk(s) && p in s.waiting && a in s.waiting[p]
    ensures p in s.started
  {
    assert ParentOk(s, p);
  }

  lemma LeftSettles(s: State, a: Activity)
    requires Inv(s) && s.queue != [] && s.queue[0] == Complete(a) && a in s.lists.active
    ensures var v := Left(s.(queue := s.queue[1..]), a); Settled(v) && InOrder(v)
  {
    hide NoDuplicates, InOrder, Once, TellAll, Without, Families;
    var t := s.(queue := s.queue[1..]);
    LeftOrder(s, a);
    HeadParts(s, a);
    CompletedIsActive(s, a);
    TellAllParent(t, a);
    TellAllFrame(t, Told(t.lists, a), a);
    LeftLists(t, a);
    forall p | p in t.known && a in p.Children() ensures p in t.waiting && a in t.waiting[p] {
      ParentIsTold(t, a, p);
    }
    LeftParents(t, Left(t, a), a);
    LeftAskers(t, Left(t, a), a);
    assert Left(t, a).posts == Left(t, a).completed + CompletesIn(Left(t, a).queue) by { OrderPosts(Left(t, a)); }
  }

  lemma LeftAskers(s: State, n: State, a: Activity)
    requires AskersOk(s) && Families(s.known) && ParentsOk(s)
    requires forall p :: p in s.known && a in p.Children() ==>
               p in s.waiting && n.posts == if Without(s.waiting[p], a) == [] then s.posts + [p] else s.posts
    requires (forall p :: p in s.known ==> a !in p.Children()) ==> n.posts == s.posts
    requires n.started == s.started && n.left == s.left
    ensures AskersOk(n)
  {
    forall b | b in n.started && b.role.Asks? ensures AskerOk(n, b) {
      assert AskerOk(s, b);
    }
  }

  lemma OrderPosts(s: State)
    requires InOrder(s)
    ensures s.posts == s.completed + CompletesIn(s.queue)
  {
  }

  lemma CompleteKeeps(s: State, a: Activity)
    requires Inv(s) && s.queue != [] && s.queue[0] == Complete(a) && a in s.lists.active
    ensures ProcessComplete(s.(queue := s.queue[1..]), a).Next?
            && Inv(ProcessComplete(s.(queue := s.queue[1..]), a).state)
  {
    hide Once, Families, ParentsOk, Without, Begin, TellAll, Inv, Settled, InOrder, NotStranded, Viable;
    var t := s.(queue := s.queue[1..]);
    var v := Left(t, a);
    TellAllFrame(t, Told(t.lists, a), a);
    CompletedIsActive(s, a);
    LeftSettles(s, a);
    if s.lists.pending != [] && Viable(s.lists.pending[0], v.lists.active) {
      PromoteKeeps(v);
    } else {
      assert NotStranded(v.lists, v.promoted) by { BlockedOrEmpty(v.lists, v.promoted); }
      SettledInv(v);
    }
  }

  lemma BlockedOrEmpty(l: Lists, promoted: set<Activity>)
    requires l.pending == [] || !Viable(l.pending[0], l.active)
    ensures NotStranded(l, promoted)
  {
  }

  lemma PromoteKeeps(v: State)
    requires Settled(v) && InOrder(v) && v.lists.pending != [] && Viable(v.lists.pending[0], v.lists.active)
    ensures Inv(Activated(v, v.lists.pending[0], v.lists.pending[1..], v.promoted + {v.lists.pending[0]}))
  {
    hide Settled, Inv, Activated, Viable;
    var b, rest := v.lists.pending[0], v.lists.pending[1..];
    assert v.lists.pending == [b] + rest;
    Associate(v.started, [b], rest, StartsIn(v.queue));
    assert (v.lists.active + [b])[|v.lists.active|] in v.promoted + {b};
    ActivateKeeps(v, b, rest, v.promoted + {b});
  }

  lemma SettledInv(s: State)
    requires Settled(s) && InOrder(s) && NotStranded(s.lists, s.promoted)
    ensures Inv(s)
  {
  }

  /** Every step keeps the invariant, and the one that throws is a completion handled for a second time. */
  lemma StepKeeps(s: State, act: Action)
    requires Inv(s)
    ensures Step(s, act).Next? ==> Inv(Step(s, act).state)
    ensures Step(s, act) == Crash <==>
            act.Process? && s.queue != [] && s.queue[0].Complete? && s.queue[0].a in s.completed
  {
    hide Inv, ProcessStart, ProcessAnswer;
    if act.Process? && s.queue != [] && s.queue[0].Complete? {
      CompletedIsActive(s, s.queue[0].a);
    }
    if act.Process? && s.queue != [] && s.queue[0].Start? {
      StartKeeps(s, s.queue[0].a);
    }
    if Step(s, act).Next? {
      match act
      case Post(a) => PostKeeps(s, a);
      case Arrive(r) => ArriveKeeps(s, r);
      case Process =>
        match s.queue[0]
        case Start(a) =>
        case Complete(a) => CompleteKeeps(s, a);
        case Answer(r) => AnswerKeeps(s, r);
    }
  }

  lemma {:induction false} RunInv(s: State, acts: seq<Action>)
    requires Inv(s)
    ensures Run(s, acts).Next? ==> Inv(Run(s, acts).state)
  {
    hide Step, Inv;
    if acts != [] {
      RunInv(s, acts[..|acts| - 1]);
      if Run(s, acts[..|acts| - 1]).Next? {
        StepKeeps(Run(s, acts[..|acts| - 1]).state, acts[|acts| - 1]);
      }
    }
  }

  /** In every run the invariant holds. */
  lemma RunKeeps(acts: seq<Action>)
    ensures Run(Init(), acts).Next? ==> Inv(Run(Init(), acts).state)
  {
    RunInv(Init(), acts);
  }

  // ---- Theorems: every run ----

  ghost predicate Reaches(acts: seq<Action>, s: State) {
    Run(Init(), acts) == Next(s)
  }

  /** At most one activity of each exclusive class is active. */
  lemma AtMostOneOfEachExclusiveClass(acts: seq<Action>, s: State, i: nat, j: nat)
    requires Reaches(acts, s)
    requires i < |s.lists.active| && j < |s.lists.active|
    requires s.lists.active[i].group.Some? && s.lists.active[i].group == s.lists.active[j].group
    ensures i == j
  {
    RunKeeps(acts);
  }

  /** Activities start in the order they were submitted, whether at once or from the pending list. */
  lemma StartedInSubmissionOrder(acts: seq<Action>, s: State)
    requires Reaches(acts, s)
    ensures s.born == s.started + s.lists.pending + StartsIn(s.queue)
  {
    RunKeeps(acts);
  }

  /** Every submitted activity is in exactly one place: still posted, pending, active or completed. */
  lemma InExactlyOnePlace(acts: seq<Action>, s: State, a: Activity)
    requires Reaches(acts, s) && a in s.born
    ensures multiset(StartsIn(s.queue))[a] + multiset(s.lists.pending)[a] + multiset(s.lists.active)[a]
            + multiset(s.completed)[a] == 1
  {
    RunKeeps(acts);
    assert multiset(s.born)[a] == 1;
    assert multiset(s.started)[a] == multiset(s.lists.active)[a] + multiset(s.completed)[a];
  }

  /** While something is pending, an active exclusive activity blocks the first of them or an activity that
      was itself started from the pending list is active. */
  lemma PendingHasABlocker(acts: seq<Action>, s: State)
    requires Reaches(acts, s) && s.lists.pending != []
    ensures exists i :: 0 <= i < |s.lists.active| &&
              var b := s.lists.active[i];
              b in s.promoted || (b.group.Some? && b.group == s.lists.pending[0].group)
  {
    RunKeeps(acts);
    hide Once, Families, ParentsOk, InOrder, ParentsFirst, ExclusiveOnce;
    if !Viable(s.lists.pending[0], s.lists.active) {
      var i :| 0 <= i < |s.lists.active| && s.lists.active[i].group == s.lists.pending[0].group;
    }
  }

  /** A parent posts its completion exactly once, when its last child has completed. */
  lemma ParentCompletesOnce(acts: seq<Action>, s: State, p: Activity)
    requires Reaches(acts, s) && p in s.known && p.role.Tests?
    ensures multiset(s.posts)[p] ==
            if p in s.started && forall c :: c in p.Children() ==> c in s.completed then 1 else 0
  {
    hide NoDuplicates, ListsOk, Families;
    RunKeeps(acts);
    assert ParentOk(s, p);
    if p in s.started {
      var w := s.waiting[p];
      if w != [] {
        assert w[0] in w;
        assert w[0] in p.Children() && w[0] !in s.completed;
      } else {
        forall c | c in p.Children() ensures c in s.completed {
          assert c !in w;
        }
      }
    }
  }

  lemma CompleteLists(s: State, a: Activity)
    requires a in s.lists.active
    ensures var r := ProcessComplete(s, a);
            r.Next? && r.state.lists == Retire(s.lists, a).0
  {
    hide TellAll, Without, IndexOf, Viable;
    TellAllFrame(s, Told(s.lists, a), a);
  }

  /** Handling a completion for the first time always makes the active and pending lists one shorter together; for
      the second time it throws. */
  lemma EachCompletionCounts(acts: seq<Action>, s: State)
    requires Reaches(acts, s) && s.queue != [] && s.queue[0].Complete?
    ensures Step(s, Process).Next? <==> s.queue[0].a !in s.completed
    ensures Step(s, Process).Next? ==>
              var n := Step(s, Process).state;
              |n.lists.active| + |n.lists.pending| == |s.lists.active| + |s.lists.pending| - 1
  {
    hide ProcessComplete, Inv, Viable;
    RunKeeps(acts);
    StepKeeps(s, Process);
    CompletedIsActive(s, s.queue[0].a);
    if s.queue[0].a in s.lists.active {
      CompleteLists(s.(queue := s.queue[1..]), s.queue[0].a);
    }
  }

  // ---- Composing runs ----

  lemma {:induction false} RunFront(s: State, act: Action, m: State, acts: seq<Action>)
    requires Step(s, act) == Next(m)
    ensures Run(s, [act] + acts) == Run(m, acts)
  {
    hide Step;
    var all := [act] + acts;
    if acts == [] {
      assert all[..|all| - 1] == [] && all[|all| - 1] == act;
    } else {
      assert all[..|all| - 1] == [act] + acts[..|acts| - 1];
      RunFront(s, act, m, acts[..|acts| - 1]);
    }
  }

  lemma Advance(acts: seq<Action>, s: State, act: Action, n: State)
    requires Reaches(acts, s) && Step(s, act) == Next(n)
    ensures Reaches(acts + [act], n)
  {
    assert (acts + [act])[..|acts + [act]| - 1] == acts;
  }

  lemma Go(acts: seq<Action>, s: State, act: Action) returns (more: seq<Action>, n: State)
    requires Reaches(acts, s) && Step(s, act).Next?
    ensures Reaches(more, n) && Step(s, act) == Next(n) && more == acts + [act]
  {
    n := Step(s, act).state;
    more := acts + [act];
    Advance(acts, s, act, n);
  }

  // ---- The scheduler as the program writes it ----

  /** No other activity of its exclusive class, if it has one. */
  predicate Alone(a: Activity, others: seq<Activity>) {
    a.group == None || forall x :: x in others ==> x.group != a.group
  }

  class Queue {
    var active: seq<Activity>
    var pending: seq<Activity>

    constructor ()
      ensures active == [] && pending == []
    {
      active, pending := [], [];
    }

    method Precondition(a: Activity, others: seq<Activity>) returns (viable: bool)
      ensures viable == Viable(a, others) == Alone(a, others)
    {
      if a.group.None? { return true; }
      for i := 0 to |others|
        invariant forall j :: 0 <= j < i ==> others[j].group != a.group
      {
        if others[i].group == a.group { return false; }
      }
      return true;
    }

    method OnStartActivity(a: Activity) returns (started: bool)
      modifies this
      ensures (Lists(active, pending), started) == Admit(Lists(old(active), old(pending)), a)
      ensures started <==> old(pending) == [] && Alone(a, old(active))
      ensures active == old(active) + (if started then [a] else [])
      ensures pending == old(pending) + (if started then [] else [a])
    {
      started := pending == [];
      if started {
        started := Precondition(a, active);
      }
      if started {
        active := active + [a];
      } else {
        pending := pending + [a];
      }
    }

    /** The first active activity that takes the message gets it. */
    method OnClientMessage(r: Reply) returns (taker: Option<Activity>)
      ensures var k := TakerIndex(active, r.key);
              taker == if k < |active| then Some(active[k]) else None
      ensures taker.None? ==> forall x :: x in active && x.role.Asks? ==> x.role.key != r.key
      ensures taker.Some? ==>
                && taker.value.role.Asks? && taker.value.role.key == r.key
                && exists k :: 0 <= k < |active| && active[k] == taker.value
                               && forall j :: 0 <= j < k && active[j].role.Asks? ==> active[j].role.key != r.key
    {
      for i := 0 to |active|
        invariant forall j :: 0 <= j < i ==> active[j].Key() != Some(r.key)
      {
        if active[i].Key() == Some(r.key) { return Some(active[i]); }
      }
      return None;
    }

    /** `told` lists the activities whose activityComplete was called, in order; not found is the throw. */
    method OnActivityComplete(a: Activity) returns (found: bool, told: seq<Activity>, next: Option<Activity>)
      modifies this
      ensures told == Told(Lists(old(active), old(pending)), a)
      ensures found <==> a in old(active)
      ensures found ==> (Lists(active, pending), next) == Retire(Lists(old(active), old(pending)), a)
      ensures !found ==> active == old(active) && pending == old(pending) && next == None
      ensures told <= old(active) && a !in told && (!found ==> told == old(active))
      ensures found ==>
                && |told| < |old(active)| && old(active)[|told|] == a
                && var rest := told + old(active)[|told| + 1..];
                   if old(pending) != [] && Alone(old(pending)[0], rest) then
                     active == rest + [old(pending)[0]] && pending == old(pending)[1..] && next == Some(old(pending)[0])
                   else active == rest && pending == old(pending) && next == None
    {
      found, told, next := false, [], None;
      var i := 0;
      while i < |active|
        invariant 0 <= i <= |active| && active == old(active) && pending == old(pending)
        invariant !found && told == active[..i] && a !in told
      {
        if active[i] == a {
          IndexIs(active, a, i);
          active := active[..i] + active[i + 1..];
          found := true;
          break;
        }
        told := told + [active[i]];
        i := i + 1;
      }
      if !found { return; }
      if pending != [] {
        var first := pending[0];
        var viable := Precondition(first, active);
        if viable {
          pending := pending[1..];
          active := active + [first];
          next := Some(first);
        }
      }
    }
  }

  lemma {:induction false} IndexIs(s: seq<Activity>, a: Activity, i: nat)
    requires i < |s| && s[i] == a && a !in s[..i]
    ensures IndexOf(s, a) == i
  {
  }

  /** An activity that sends a request to each of its clients and completes when all have answered. */
  class AskClients {
    const self: Activity
    var clientIDs: set<nat>
    var sent: multiset<Reply>
    var posted: seq<Event>

    constructor (self: Activity)
      ensures this.self == self && clientIDs == {} && sent == multiset{} && posted == []
    {
      this.self, clientIDs, sent, posted := self, {}, multiset{}, [];
    }

    method Start()
      requires self.role.Asks? && clientIDs == {}
      modifies this
      ensures clientIDs == self.role.clients
      ensures sent == old(sent) + Requests(self.role.key, self.role.clients)
      ensures forall r: Reply :: sent[r] ==
                old(sent)[r] + (if r.key == self.role.key && r.client in self.role.clients then 1 else 0)
      ensures posted == old(posted) + if self.role.clients == {} then [Complete(self)] else []
    {
      hide Requests;
      var rest := self.role.clients;
      RequestsAre(self.role.key, {});
      RequestsAre(self.role.key, self.role.clients);
      while rest != {}
        invariant rest !! clientIDs && rest + clientIDs == self.role.clients
        invariant sent == old(sent) + Requests(self.role.key, clientIDs) && posted == old(posted)
        decreases rest
      {
        var c :| c in rest;
        OneMoreRequest(self.role.key, clientIDs, c);
        sent := sent + multiset{Reply(self.role.key, c)};
        clientIDs, rest := clientIDs + {c}, rest - {c};
      }
      if self.role.clients == {} {
        posted := posted + [Complete(self)];
      }
    }

    /** It does not ask whether it has posted its completion before. */
    method ClientMessage(r: Reply) returns (handled: bool)
      modifies this
      ensures handled <==> self.role.Asks? && self.role.key == r.key
      ensures clientIDs == if handled then old(clientIDs) - {r.client} else old(clientIDs)
      ensures sent == old(sent)
      ensures posted == old(posted) + if handled && clientIDs == {} then [Complete(self)] else []
    {
      handled := self.Key() == Some(r.key);
      if handled {
        clientIDs := clientIDs - {r.client};
        if clientIDs == {} {
          posted := posted + [Complete(self)];
        }
      }
    }
  }

  lemma RequestsAre(key: nat, clients: set<nat>)
    ensures forall r: Reply :: Requests(key, clients)[r] == if r.key == key && r.client in clients then 1 else 0
  {
    forall r: Reply ensures Requests(key, clients)[r] == if r.key == key && r.client in clients then 1 else 0 {
      var all := set c | c in clients :: Reply(key, c);
      assert r in all <==> r.key == key && r.client in clients;
    }
  }

  /** A test that starts posts its children, in order, or its completion when there is none. */
  lemma TestBegins(s: State, a: Activity, children: seq<Activity>)
    requires a.role == Tests(children)
    ensures var t := Begin(s, a);
            && t.started == s.started + [a] && t.lists == s.lists && t.completed == s.completed
            && t.flight == s.flight && a in t.waiting && t.waiting[a] == children
            && t.queue == s.queue + (if children == [] then [Complete(a)]
                 else seq(|children|, i requires 0 <= i < |children| => Start(children[i])))
  {
    var posts := Starts(children);
    if children == [] {
      assert posts == [] && s.queue + posts == s.queue;
    } else {
      assert posts == seq(|children|, i requires 0 <= i < |children| => Start(children[i]));
    }
    hide Starts;
  }

  /** One that asks sends a request to each client, or posts its completion when it reaches none. */
  lemma AskerBegins(s: State, a: Activity, key: nat, clients: set<nat>)
    requires a.role == Asks(key, clients)
    ensures var t := Begin(s, a);
            && t.started == s.started + [a] && t.lists == s.lists && t.completed == s.completed
            && a in t.left && t.left[a] == clients
            && t.queue == s.queue + (if clients == {} then [Complete(a)] else [])
            && forall r: Reply ::
                 t.flight[r] == s.flight[r] + (if r.key == key && r.client in clients then 1 else 0)
  {
    hide Requests;
    RequestsAre(key, clients);
  }

  /** Those told of a completion are told one after the other; a parent strikes it off and completes with the last. */
  lemma {:induction false} TellIs(s: State, told: seq<Activity>, p: Activity, a: Activity)
    ensures TellAll(s, [], a) == s
    ensures var t, u := TellAll(s, told, a), TellAll(s, told + [p], a);
            if p in t.waiting && a in t.waiting[p] then
              exists k ::
                && 0 <= k < |t.waiting[p]| && t.waiting[p][k] == a && a !in t.waiting[p][..k]
                && var left := t.waiting[p][..k] + t.waiting[p][k + 1..];
                   && u.waiting == t.waiting[p := left]
                   && u.queue == t.queue + (if left == [] then [Complete(p)] else [])
            else u == t
    decreases |told|
  {
    hide Tell;
    if told == [] {
      assert [] + [p] == [p] && [p][1..] == [];
      TellOne(s, p, a);
    } else {
      assert (told + [p])[0] == told[0] && (told + [p])[1..] == told[1..] + [p];
      TellIs(Tell(s, told[0], a), told[1..], p, a);
    }
  }

  lemma TellOne(s: State, p: Activity, a: Activity)
    ensures var u := Tell(s, p, a);
            if p in s.waiting && a in s.waiting[p] then
              exists k ::
                && 0 <= k < |s.waiting[p]| && s.waiting[p][k] == a && a !in s.waiting[p][..k]
                && var left := s.waiting[p][..k] + s.waiting[p][k + 1..];
                   && u.waiting == s.waiting[p := left]
                   && u.queue == s.queue + (if left == [] then [Complete(p)] else [])
            else u == s
  {
    if p in s.waiting && a in s.waiting[p] {
      var w := s.waiting[p];
      var k := IndexOf(w, a);
      assert w[k] == a && a !in w[..k];
      assert Without(w, a) == w[..k] + w[k + 1..];
    }
  }

  /** The activity that takes an answer strikes its client off, and posts its completion whenever none is left. */
  lemma AnswerIs(s: State, r: Reply, k: nat)
    requires k < |s.lists.active| && s.lists.active[k].role.Asks? && s.lists.active[k].role.key == r.key
    requires forall i :: 0 <= i < k && s.lists.active[i].role.Asks? ==> s.lists.active[i].role.key != r.key
    ensures var a, t := s.lists.active[k], ProcessAnswer(s, r);
            && a in t.left && t.left[a] == (if a in s.left then s.left[a] else {}) - {r.client}
            && t.queue == s.queue + (if t.left[a] == {} then [Complete(a)] else [])
            && t.lists == s.lists && t.waiting == s.waiting && t.flight == s.flight
  {
    var i := TakerIndex(s.lists.active, r.key);
    assert i == k;
  }

  lemma OneMoreRequest(key: nat, clients: set<nat>, c: nat)
    requires c !in clients
    ensures Requests(key, clients + {c}) == Requests(key, clients) + multiset{Reply(key, c)}
  {
    assert (set d | d in clients + {c} :: Reply(key, d)) == (set d | d in clients :: Reply(key, d)) + {Reply(key, c)};
  }

  /** An activity that starts one child for each client and completes with the last of them. */
  class TestClients {
    const self: Activity
    var activities: seq<Activity>
    var posted: seq<Event>

    constructor (self: Activity)
      ensures this.self == self && activities == [] && posted == []
    {
      this.self, activities, posted := self, [], [];
    }

    method Start()
      requires activities == []
      modifies this
      ensures activities == if self.role.Tests? then self.role.children else []
      ensures posted == old(posted) + Starts(activities) + if activities == [] then [Complete(self)] else []
    {
      var children := self.Children();
      for i := 0 to |children|
        invariant activities == children[..i]
        invariant posted == old(posted) + Starts(children[..i])
      {
        assert Starts(children[..i + 1]) == Starts(children[..i]) + [Event.Start(children[i])];
        activities := activities + [children[i]];
        posted := posted + [Event.Start(children[i])];
      }
      if activities == [] {
        posted := posted + [Complete(self)];
      }
    }

    method ActivityComplete(a: Activity) returns (handled: bool)
      modifies this
      ensures handled <==> a in old(activities)
      ensures activities == Without(old(activities), a)
      ensures !handled ==> activities == old(activities)
      ensures handled ==> exists k :: 0 <= k < |old(activities)| && old(activities)[k] == a
                                      && a !in old(activities)[..k]
                                      && activities == old(activities)[..k] + old(activities)[k + 1..]
      ensures posted == old(posted) + if handled && activities == [] then [Complete(self)] else []
    {
      var i := 0;
      while i < |activities| && activities[i] != a
        invariant 0 <= i <= |activities| && a !in activities[..i] && activities == old(activities)
                  && posted == old(posted)
      {
        i := i + 1;
      }
      if i == |activities| {
        return false;
      }
      IndexIs(activities, a, i);
      activities := activities[..i] + activities[i + 1..];
      if activities == [] {
        posted := posted + [Complete(self)];
      }
      return true;
    }
  }
}
