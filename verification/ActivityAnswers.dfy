/**
 Who gets the answers. An answer goes to the first active activity that takes it, which does not ask whether it has
 posted its completion before (src/core/queue.cpp:118-128, src/master/activities.cpp:31-54, 230-276). While no two
 activities that wait for the same answers are active, each answer reaches the one that asked and each completion is
 posted once.
 */
module ActivityAnswers {
  import opened Prelude
  import opened ActivityQueue

  /** Two activities that take the same answers and have not posted their completions. */
  predicate Rivals(s: State, a: Activity, b: Activity) {
    a.Key().Some? && a.Key() == b.Key() && a !in s.posts && b !in s.posts
  }

  predicate Clash(s: State) {
    exists i, j :: 0 <= i < j < |s.lists.active| && Rivals(s, s.lists.active[i], s.lists.active[j])
  }

  // ---- The answers that are still to come ----

  function AnswersIn(q: seq<Event>): multiset<Reply> {
    if q == [] then multiset{} else (if q[0].Answer? then multiset{q[0].reply} else multiset{}) + AnswersIn(q[1..])
  }

  function Open(s: State): multiset<Reply> {
    s.flight + AnswersIn(s.queue)
  }

  function Owed(a: Activity, left: map<Activity, set<nat>>): multiset<Reply> {
    if a.role.Asks? && a in left then Requests(a.role.key, left[a]) else multiset{}
  }

  function OwedBy(active: seq<Activity>, left: map<Activity, set<nat>>): multiset<Reply> {
    if active == [] then multiset{} else Owed(active[0], left) + OwedBy(active[1..], left)
  }

  ghost predicate Before(active: seq<Activity>, a: Activity, b: Activity) {
    exists i, j :: 0 <= i < j < |active| && active[i] == a && active[j] == b
  }

  /** Some activity that still waits for such answers stands before the activity. */
  ghost predicate Shielded(s: State, a: Activity) {
    exists u: Activity :: u.Key() == a.Key() && u !in s.posts && Before(s.lists.active, u, a)
  }

  /** An answer with the key of an activity and the completion of that activity. */
  predicate Crosses(e: Event, f: Event) {
    e.Answer? && f.Complete? && f.a.Key() == Some(e.reply.key)
  }

  /** An answer that is handled before an activity has left does not go to it once its completion is posted. */
  ghost predicate Behind(s: State) {
    forall i, j :: 0 <= i < j < |s.queue| && Crosses(s.queue[i], s.queue[j]) ==> Shielded(s, s.queue[j].a)
  }

  /** Every completion is posted once, and every answer that is still to come is awaited by the one that asked. */
  ghost predicate Sound(s: State) {
    Inv(s) && NoDuplicates(s.posts) && Open(s) == OwedBy(s.lists.active, s.left) && Behind(s)
  }

  lemma {:induction false} AnswersAppend(q: seq<Event>, r: seq<Event>)
    ensures AnswersIn(q + r) == AnswersIn(q) + AnswersIn(r)
  {
    if q == [] {
      assert q + r == r;
    } else {
      assert (q + r)[0] == q[0] && (q + r)[1..] == q[1..] + r;
      AnswersAppend(q[1..], r);
    }
  }

  lemma {:induction false} NoAnswersIn(q: seq<Event>)
    requires forall i :: 0 <= i < |q| ==> !q[i].Answer?
    ensures AnswersIn(q) == multiset{}
  {
    if q != [] {
      NoAnswersIn(q[1..]);
    }
  }

  lemma {:induction false} AnswerIsIn(q: seq<Event>, i: nat)
    requires i < |q| && q[i].Answer?
    ensures q[i].reply in AnswersIn(q)
  {
    if i > 0 {
      AnswerIsIn(q[1..], i - 1);
    }
  }

  lemma {:induction false} OwedAppend(active: seq<Activity>, a: Activity, left: map<Activity, set<nat>>)
    ensures OwedBy(active + [a], left) == OwedBy(active, left) + Owed(a, left)
  {
    hide Owed;
    if active == [] {
      assert (active + [a])[1..] == [];
    } else {
      assert (active + [a])[0] == active[0] && (active + [a])[1..] == active[1..] + [a];
      OwedAppend(active[1..], a, left);
    }
  }

  lemma {:induction false} OwedSame(active: seq<Activity>, left: map<Activity, set<nat>>, now: map<Activity, set<nat>>)
    requires forall a :: a in active ==> Owed(a, left) == Owed(a, now)
    ensures OwedBy(active, left) == OwedBy(active, now)
  {
    hide Owed;
    if active != [] {
      OwedSame(active[1..], left, now);
    }
  }

  lemma {:induction false} OwedSplit(active: seq<Activity>, i: nat, left: map<Activity, set<nat>>)
    requires i < |active|
    ensures OwedBy(active, left) == OwedBy(active[..i] + active[i + 1..], left) + Owed(active[i], left)
  {
    hide Owed;
    var rest := active[..i] + active[i + 1..];
    if i == 0 {
      assert rest == active[1..];
    } else {
      assert rest[0] == active[0] && rest[1..] == active[1..][..i - 1] + active[1..][i..];
      OwedSplit(active[1..], i - 1, left);
    }
  }

  lemma {:induction false} OwedBySome(active: seq<Activity>, left: map<Activity, set<nat>>, r: Reply)
    returns (u: Activity)
    requires r in OwedBy(active, left)
    ensures u in active && u.Key() == Some(r.key) && u in left && r.client in left[u]
  {
    if r in Owed(active[0], left) {
      u := active[0];
    } else {
      u := OwedBySome(active[1..], left, r);
    }
  }

  lemma RequestsTake(key: nat, clients: set<nat>, c: nat)
    requires c in clients
    ensures Requests(key, clients) == Requests(key, clients - {c}) + multiset{Reply(key, c)}
  {
    OneMoreRequest(key, clients - {c}, c);
    assert clients - {c} + {c} == clients;
  }

  /** The one that asked takes its answer. */
  lemma OwedTake(active: seq<Activity>, k: nat, left: map<Activity, set<nat>>, c: nat)
    requires NoDuplicates(active) && k < |active| && active[k].role.Asks? && active[k] in left && c in left[active[k]]
    ensures var f := active[k];
            OwedBy(active, left) == OwedBy(active, left[f := left[f] - {c}]) + multiset{Reply(f.role.key, c)}
  {
    var f := active[k];
    var now := left[f := left[f] - {c}];
    var rest := active[..k] + active[k + 1..];
    assert active == active[..k] + [f] + active[k + 1..];
    assert f !in rest by {
      assert multiset(active)[f] == multiset(rest)[f] + 1;
    }
    OwedSplit(active, k, left);
    OwedSplit(active, k, now);
    OwedSame(rest, left, now);
    RequestsTake(f.role.key, left[f], c);
  }

  // ---- Steps keep this while nobody clashes ----

  /** More events at the end, none of them a completion that crosses an answer, and nobody leaves. */
  lemma BehindGrows(s: State, n: State, more: seq<Event>)
    requires Behind(s) && n.queue == s.queue + more && s.lists.active <= n.lists.active
    requires forall u :: u in s.lists.active ==> (u in n.posts <==> u in s.posts)
    requires forall i, j :: 0 <= i < j < |n.queue| && j >= |s.queue| && Crosses(n.queue[i], n.queue[j]) ==>
               Shielded(n, n.queue[j].a)
    ensures Behind(n)
  {
    forall i, j | 0 <= i < j < |n.queue| && Crosses(n.queue[i], n.queue[j]) ensures Shielded(n, n.queue[j].a) {
      if j < |s.queue| {
        assert Crosses(s.queue[i], s.queue[j]);
        StaysShielded(s, n, s.queue[j].a);
      }
    }
  }

  lemma StaysShielded(s: State, n: State, a: Activity)
    requires Shielded(s, a) && s.lists.active <= n.lists.active
    requires forall u :: u in s.lists.active ==> (u in n.posts <==> u in s.posts)
    ensures Shielded(n, a)
  {
    var u: Activity :| u.Key() == a.Key() && u !in s.posts && Before(s.lists.active, u, a);
    var i, j :| 0 <= i < j < |s.lists.active| && s.lists.active[i] == u && s.lists.active[j] == a;
    assert n.lists.active[i] == u && n.lists.active[j] == a;
  }

  /** Whoever an open answer is owed to is active and waits. */
  lemma OpenIsAwaited(s: State, r: Reply) returns (u: Activity)
    requires AskersOk(s) && (forall a :: a in s.lists.active ==> a in s.started)
    requires r in OwedBy(s.lists.active, s.left)
    ensures u in s.lists.active && u.Key() == Some(r.key) && u !in s.posts && u in s.left && r.client in s.left[u]
  {
    u := OwedBySome(s.lists.active, s.left, r);
    assert AskerOk(s, u);
  }

  lemma ActiveIsStarted(s: State)
    requires Inv(s)
    ensures forall a :: a in s.lists.active || a in s.posts ==> a in s.started
    ensures forall u :: u in s.lists.active && u.role.Asks? ==> AskerOk(s, u)
    ensures NoDuplicates(s.lists.active)
  {
    hide ListsOk, ParentsOk, Families, AskerOk;
    StartedSplits(s);
  }

  lemma PostSound(s: State, a: Activity)
    requires Sound(s) && Step(s, Post(a)).Next?
    ensures Sound(Step(s, Post(a)).state)
  {
    hide Inv, NoDuplicates, IsNew;
    var n := Step(s, Post(a)).state;
    StepKeeps(s, Post(a));
    AnswersAppend(s.queue, [Start(a)]);
    NoAnswersIn([Start(a)]);
    BehindGrows(s, n, [Start(a)]);
  }

  lemma ArriveSound(s: State, r: Reply)
    requires Sound(s) && Step(s, Arrive(r)).Next?
    ensures Sound(Step(s, Arrive(r)).state)
  {
    hide Inv, NoDuplicates;
    var n := Step(s, Arrive(r)).state;
    StepKeeps(s, Arrive(r));
    AnswersAppend(s.queue, [Answer(r)]);
    assert AnswersIn([Answer(r)]) == multiset{r} + AnswersIn([]) by { assert [Answer(r)][1..] == []; }
    assert s.flight - multiset{r} + multiset{r} == s.flight;
    BehindGrows(s, n, [Answer(r)]);
  }

  /** The part of it that the next event leaves. */
  ghost predicate Rest(s: State) {
    && NoDuplicates(s.posts) && Open(s) == OwedBy(s.lists.active, s.left) && Behind(s)
    && (forall a :: a in s.posts || a in s.lists.active ==> a in s.started)
    && (forall u :: u in s.lists.active && u.role.Asks? ==> AskerOk(s, u))
  }

  lemma StillBehind(s: State, n: State)
    requires s.queue != [] && Behind(s) && n.queue == s.queue[1..] && n.lists.active == s.lists.active
             && n.posts == s.posts
    ensures Behind(n)
  {
    forall i, j | 0 <= i < j < |n.queue| && Crosses(n.queue[i], n.queue[j]) ensures Shielded(n, n.queue[j].a) {
      assert n.queue[i] == s.queue[i + 1] && n.queue[j] == s.queue[j + 1];
      assert Shielded(s, s.queue[j + 1].a);
    }
  }

  lemma SoundTail(s: State)
    requires Sound(s) && s.queue != [] && !s.queue[0].Answer?
    ensures Rest(s.(queue := s.queue[1..]))
  {
    hide Inv, NoDuplicates, Behind;
    ActiveIsStarted(s);
    var t := s.(queue := s.queue[1..]);
    assert AnswersIn(s.queue) == multiset{} + AnswersIn(t.queue);
    StillBehind(s, t);
    forall u | u in t.lists.active && u.role.Asks? ensures AskerOk(t, u) {
      assert AskerOk(s, u);
    }
  }

  /** Starting one more activity. */
  lemma ActivatedSound(s: State, a: Activity, pending: seq<Activity>, promoted: set<Activity>)
    requires Rest(s) && a !in s.started
    ensures var n := Activated(s, a, pending, promoted);
            NoDuplicates(n.posts) && Open(n) == OwedBy(n.lists.active, n.left) && Behind(n)
  {
    hide NoDuplicates, Activated, Owed, Begin, AskerOk;
    var n := Activated(s, a, pending, promoted);
    ActivatedEvents(s, a, pending, promoted);
    var more := n.queue[|s.queue|..];
    assert n.queue == s.queue + more;
    ActivatedLeft(s, a, pending, promoted);
    ActivatedOpen(s, n, a, more);
    forall i, j | 0 <= i < j < |n.queue| && j >= |s.queue| && Crosses(n.queue[i], n.queue[j])
      ensures Shielded(n, n.queue[j].a)
    {
      assert n.queue[j].a == a && i < |s.queue|;
      AnswerIsIn(s.queue, i);
      NewOneIsLast(s, n, a, n.queue[i].reply);
    }
    BehindGrows(s, n, more);
  }

  lemma ActivatedLeft(s: State, a: Activity, pending: seq<Activity>, promoted: set<Activity>)
    ensures var n := Activated(s, a, pending, promoted);
            && n.lists.active == s.lists.active + [a] && n.flight == s.flight + Owed(a, n.left)
            && forall b :: b != a ==> Owed(b, n.left) == Owed(b, s.left)
  {
    hide Requests, Starts;
    var n := Activated(s, a, pending, promoted);
    assert n.lists.active == s.lists.active + [a];
    if a.role.Asks? {
      assert n.left == s.left[a := a.role.clients];
    } else {
      assert n.left == s.left && n.flight == s.flight + multiset{};
    }
  }

  lemma ActivatedOpen(s: State, n: State, a: Activity, more: seq<Event>)
    requires Open(s) == OwedBy(s.lists.active, s.left) && a !in s.lists.active
    requires n.queue == s.queue + more && forall i :: 0 <= i < |more| ==> !more[i].Answer?
    requires n.lists.active == s.lists.active + [a] && n.flight == s.flight + Owed(a, n.left)
    requires forall b :: b != a ==> Owed(b, n.left) == Owed(b, s.left)
    ensures Open(n) == OwedBy(n.lists.active, n.left)
  {
    hide Owed;
    AnswersAppend(s.queue, more);
    NoAnswersIn(more);
    OwedAppend(s.lists.active, a, n.left);
    OwedSame(s.lists.active, s.left, n.left);
    assert s.flight + Owed(a, n.left) + AnswersIn(s.queue) == s.flight + AnswersIn(s.queue) + Owed(a, n.left);
  }

  /** Whoever waits for an answer when an activity starts stands before it. */
  lemma NewOneIsLast(s: State, n: State, a: Activity, r: Reply)
    requires Rest(s) && a !in s.started && n.lists.active == s.lists.active + [a] && a.Key() == Some(r.key)
    requires r in AnswersIn(s.queue) && (n.posts == s.posts || n.posts == s.posts + [a])
    ensures Shielded(n, a)
  {
    hide NoDuplicates, Behind;
    var u := OwedBySome(s.lists.active, s.left, r);
    assert AskerOk(s, u);
    var x :| 0 <= x < |s.lists.active| && s.lists.active[x] == u;
    assert n.lists.active[x] == u && n.lists.active[|s.lists.active|] == a;
    assert u != a;
  }

  /** start() posts no answers, and no completion but its own. */
  lemma ActivatedEvents(s: State, a: Activity, pending: seq<Activity>, promoted: set<Activity>)
    requires NoDuplicates(s.posts) && a !in s.posts
    ensures var n := Activated(s, a, pending, promoted);
            && s.queue <= n.queue && NoDuplicates(n.posts)
            && (n.posts == s.posts || n.posts == s.posts + [a])
            && forall j :: |s.queue| <= j < |n.queue| ==>
                 !n.queue[j].Answer? && (n.queue[j].Complete? ==> n.queue[j].a == a)
  {
    hide NoDuplicates;
    AppendNoDuplicates(s.posts, a);
  }

  lemma StartSound(s: State, a: Activity)
    requires Sound(s) && s.queue != [] && s.queue[0] == Start(a)
    ensures Sound(ProcessStart(s.(queue := s.queue[1..]), a).state)
  {
    hide Inv, NoDuplicates, Behind, Begin, Viable, Rest;
    var t := s.(queue := s.queue[1..]);
    StartKeeps(s, a);
    SoundTail(s);
    var n := ProcessStart(t, a).state;
    if Admit(t.lists, a).1 {
      assert a !in s.started by { FirstStart(s, a); }
      ActivatedSound(t, a, [], t.promoted);
      assert n == Activated(t, a, [], t.promoted);
    } else {
      SameRest(t, n);
    }
  }

  lemma SameRest(s: State, n: State)
    requires Rest(s) && n == s.(lists := n.lists) && n.lists.active == s.lists.active
    ensures NoDuplicates(n.posts) && Open(n) == OwedBy(n.lists.active, n.left) && Behind(n)
  {
    hide NoDuplicates;
    forall i, j | 0 <= i < j < |n.queue| && Crosses(n.queue[i], n.queue[j]) ensures Shielded(n, n.queue[j].a) {
      assert Shielded(s, s.queue[j].a);
    }
  }

  lemma FirstStart(s: State, a: Activity)
    requires Inv(s) && s.queue != [] && s.queue[0] == Start(a)
    ensures a !in s.started
  {
    hide ListsOk, ParentsOk, Families;
    var late := s.lists.pending + ([a] + StartsIn(s.queue[1..]));
    assert s.born == s.started + late;
    JoinNoDuplicates(s.started, late);
    assert late[|s.lists.pending|] == a;
  }

  /** Telling the others of a completion posts at most the completion of a parent. */
  lemma LeftEvents(s: State, a: Activity) returns (more: seq<Activity>)
    requires Inv(s) && s.queue != [] && s.queue[0] == Complete(a) && a in s.lists.active
    ensures var t := s.(queue := s.queue[1..]);
            var v := Left(t, a);
            && |more| <= 1 && (forall p :: p in more ==> p.role.Tests?)
            && v.posts == t.posts + more && v.queue == t.queue + Completions(more)
            && v == t.(queue := v.queue, waiting := v.waiting, posts := v.posts, completed := v.completed,
                       lists := t.lists.(active := Without(t.lists.active, a)))
  {
    hide Parts, Inv, Without, NoDuplicates;
    var t := s.(queue := s.queue[1..]);
    HeadParts(s, a);
    TellAllParent(t, a);
    TellAllFrame(t, Told(t.lists, a), a);
    more := [];
    if p :| p in s.known && a in p.Children() {
      assert p.role.Tests?;
      if Tell(t, p, a).posts != t.posts {
        more := [p];
      }
    }
  }

  function Completions(s: seq<Activity>): (r: seq<Event>)
    ensures |r| == |s| && forall i :: 0 <= i < |s| ==> r[i] == Complete(s[i])
  {
    seq(|s|, i requires 0 <= i < |s| => Complete(s[i]))
  }

  /** An activity that has posted its completion waits for nobody. */
  lemma PostedOwesNothing(s: State, a: Activity)
    requires a.role.Asks? ==> AskerOk(s, a)
    requires a in s.posts
    ensures Owed(a, s.left) == multiset{}
  {
    if a.role.Asks? {
      NoRequests(a.role.key);
    }
  }

  lemma NoRequests(key: nat)
    ensures Requests(key, {}) == multiset{}
  {
    var none: set<nat> := {};
    assert (set c | c in none :: Reply(key, c)) == {};
  }

  lemma OnceMore(posts: seq<Activity>, more: seq<Activity>)
    requires NoDuplicates(posts) && |more| <= 1 && forall p :: p in more ==> multiset(posts + more)[p] <= 1
    ensures NoDuplicates(posts + more)
  {
    if more != [] {
      assert more == [more[0]];
      assert multiset(posts + more)[more[0]] == multiset(posts)[more[0]] + 1;
      AppendNoDuplicates(posts, more[0]);
    }
  }

  lemma WithoutBefore(active: seq<Activity>, a: Activity, u: Activity, b: Activity)
    requires Before(active, u, b) && u != a && b != a
    ensures Before(Without(active, a), u, b)
  {
    var i, j :| 0 <= i < j < |active| && active[i] == u && active[j] == b;
    var k, r := IndexOf(active, a), Without(active, a);
    if k < |active| {
      var x, y := if i < k then i else i - 1, if j < k then j else j - 1;
      assert r[x] == u && r[y] == b;
    }
  }

  /** The completed activity leaves; nobody else's answers or place change. */
  lemma LeftBehind(s: State, a: Activity, v: State, more: seq<Activity>)
    requires Behind(s) && NoDuplicates(s.posts) && s.queue != [] && s.queue[0] == Complete(a) && a in s.posts
    requires v.queue == s.queue[1..] + Completions(more) && v.posts == s.posts + more
             && forall p :: p in more ==> p.role.Tests?
    requires v.lists.active == Without(s.lists.active, a)
    requires a !in CompletesIn(s.queue[1..])
    ensures Behind(v)
  {
    hide NoDuplicates, Without, Before;
    forall i, j | 0 <= i < j < |v.queue| && Crosses(v.queue[i], v.queue[j]) ensures Shielded(v, v.queue[j].a) {
      assert j < |s.queue[1..]|;
      assert v.queue[i] == s.queue[i + 1] && v.queue[j] == s.queue[j + 1];
      var b := s.queue[j + 1].a;
      assert Shielded(s, b);
      var u: Activity :| u.Key() == b.Key() && u !in s.posts && Before(s.lists.active, u, b);
      assert b != a by { CompletionIsIn(s.queue[1..], j); }
      WithoutBefore(s.lists.active, a, u, b);
      assert u !in v.posts;
    }
  }

  lemma {:induction false} CompletionIsIn(q: seq<Event>, i: nat)
    requires i < |q| && q[i].Complete?
    ensures q[i].a in CompletesIn(q)
  {
    if i > 0 {
      CompletionIsIn(q[1..], i - 1);
    }
  }

  lemma PostedOnce(s: State, a: Activity)
    requires Inv(s) && NoDuplicates(s.posts) && s.queue != [] && s.queue[0] == Complete(a)
    ensures a in s.lists.active && a in s.posts && a !in CompletesIn(s.queue[1..])
  {
    hide Inv;
    CompletedIsActive(s, a);
    var late := CompletesIn(s.queue[1..]);
    assert s.completed + [a] + late == s.completed + ([a] + late);
    JoinNoDuplicates(s.completed, [a] + late);
    JoinNoDuplicates([a], late);
    assert a in [a] + late by { assert ([a] + late)[0] == a; }
  }

  lemma LeftSound(s: State, a: Activity)
    requires Sound(s) && s.queue != [] && s.queue[0] == Complete(a)
    ensures a in s.lists.active && Rest(Left(s.(queue := s.queue[1..]), a))
  {
    hide Inv, NoDuplicates, Behind, Without, OwedBy, Settled, Left, AnswersIn, AskerOk;
    var v := Left(s.(queue := s.queue[1..]), a);
    PostedOnce(s, a);
    var more := LeftEvents(s, a);
    LeftSettles(s, a);
    SettledFacts(v);
    assert forall p :: p in more ==> p in v.posts;
    OnceMore(s.posts, more);
    LeftBehind(s, a, v, more);
    LeftOpen(s, v, a, more);
  }

  lemma LeftOpen(s: State, v: State, a: Activity, more: seq<Activity>)
    requires Open(s) == OwedBy(s.lists.active, s.left) && Inv(s) && a in s.lists.active && a in s.posts
    requires s.queue != [] && s.queue[0].Complete? && v.queue == s.queue[1..] + Completions(more)
    requires v.lists.active == Without(s.lists.active, a) && v.left == s.left && v.flight == s.flight
    ensures Open(v) == OwedBy(v.lists.active, v.left)
  {
    hide Inv, Without, OwedBy;
    AnswersAppend(s.queue[1..], Completions(more));
    NoAnswersIn(Completions(more));
    assert AnswersIn(s.queue) == multiset{} + AnswersIn(s.queue[1..]);
    ActiveIsStarted(s);
    PostedOwesNothing(s, a);
    WithoutOwed(s.lists.active, a, s.left);
  }

  lemma WithoutOwed(active: seq<Activity>, a: Activity, left: map<Activity, set<nat>>)
    requires a in active && Owed(a, left) == multiset{}
    ensures OwedBy(Without(active, a), left) == OwedBy(active, left)
  {
    OwedSplit(active, IndexOf(active, a), left);
  }

  lemma SettledFacts(s: State)
    requires Settled(s) && InOrder(s)
    ensures forall a :: a in s.lists.active || a in s.posts ==> a in s.started
    ensures forall u :: u in s.lists.active && u.role.Asks? ==> AskerOk(s, u)
    ensures forall p :: p in s.posts && p.role.Tests? ==> multiset(s.posts)[p] <= 1
  {
    hide ParentsFirst, ExclusiveOnce, AskerOk, Families;
    StartedSplits(s);
    forall p | p in s.posts && p.role.Tests? ensures multiset(s.posts)[p] <= 1 {
      assert ParentOk(s, p);
    }
  }

  lemma CompleteSound(s: State, a: Activity)
    requires Sound(s) && s.queue != [] && s.queue[0] == Complete(a)
    ensures ProcessComplete(s.(queue := s.queue[1..]), a).Next?
    ensures Sound(ProcessComplete(s.(queue := s.queue[1..]), a).state)
  {
    hide Inv, NoDuplicates, Behind, Without, OwedBy, Settled, Begin, Viable, Rest, TellAll;
    var t := s.(queue := s.queue[1..]);
    var v := Left(t, a);
    LeftSound(s, a);
    CompleteKeeps(s, a);
    TellAllFrame(t, Told(t.lists, a), a);
    if v.lists.pending != [] && Viable(v.lists.pending[0], v.lists.active) {
      var b, rest := v.lists.pending[0], v.lists.pending[1..];
      LeftSettles(s, a);
      NextPending(v);
      ActivatedSound(v, b, rest, v.promoted + {b});
    } else {
      SameRest(v, v);
    }
  }

  lemma NextPending(v: State)
    requires Settled(v) && InOrder(v) && v.lists.pending != []
    ensures v.lists.pending[0] !in v.started
  {
    hide Settled;
    var b, rest := v.lists.pending[0], v.lists.pending[1..];
    assert v.lists.pending == [b] + rest;
    Associate(v.started, [b], rest, StartsIn(v.queue));
    NextToStart(v, b, rest);
  }

  lemma {:induction false} CompletionAt(q: seq<Event>, a: Activity) returns (i: nat)
    requires a in CompletesIn(q)
    ensures i < |q| && q[i] == Complete(a)
  {
    if q[0] == Complete(a) {
      i := 0;
    } else {
      var k := CompletionAt(q[1..], a);
      i := k + 1;
    }
  }

  /** The completion of an active activity that has posted it is in the queue. */
  lemma PostedIsQueued(s: State, a: Activity) returns (i: nat)
    requires InOrder(s) && Once(s) && a in s.lists.active && a in s.posts
    ensures i < |s.queue| && s.queue[i] == Complete(a)
  {
    StartedSplits(s);
    i := CompletionAt(s.queue, a);
  }

  lemma ClashOf(s: State, a: Activity, b: Activity)
    requires a in s.lists.active && b in s.lists.active && a != b && Rivals(s, a, b)
    ensures Clash(s)
  {
    var i :| 0 <= i < |s.lists.active| && s.lists.active[i] == a;
    var j :| 0 <= j < |s.lists.active| && s.lists.active[j] == b;
    assert Rivals(s, b, a);
  }

  lemma Shields(s: State, k: nat)
    requires k < |s.lists.active| && NoDuplicates(s.lists.active) && Shielded(s, s.lists.active[k])
    ensures exists i :: 0 <= i < k && s.lists.active[i].Key() == s.lists.active[k].Key()
  {
    var active := s.lists.active;
    var u: Activity :| u.Key() == active[k].Key() && u !in s.posts && Before(active, u, active[k]);
    var i, j :| 0 <= i < j < |active| && active[i] == u && active[j] == active[k];
    OnceAt(active, j, k);
  }

  lemma OnceAt(active: seq<Activity>, j: nat, k: nat)
    requires NoDuplicates(active) && j < |active| && k < |active| && active[j] == active[k]
    ensures j == k
  {
    hide NoDuplicates;
    if j < k {
      Twice(active, j, k);
    } else if k < j {
      Twice(active, k, j);
    }
  }

  lemma Twice(active: seq<Activity>, j: nat, k: nat)
    requires j < k < |active| && active[j] == active[k]
    ensures !NoDuplicates(active)
  {
    hide NoDuplicates;
    assert active == active[..k] + active[k..];
    assert active[..k][j] == active[j] && active[k..][0] == active[j];
    assert active[j] in active[..k] && active[j] in active[k..];
    JoinNoDuplicates(active[..k], active[k..]);
  }

  /** While nobody clashes an answer goes to the activity that asked for it. */
  lemma RightTaker(s: State, r: Reply)
    requires Sound(s) && !Clash(s) && s.queue != [] && s.queue[0] == Answer(r)
    ensures var k := TakerIndex(s.lists.active, r.key);
            k < |s.lists.active| &&
            var f := s.lists.active[k];
            f !in s.posts && f in s.left && r.client in s.left[f] && f.role.Asks? && f.role.key == r.key
  {
    hide NoDuplicates, Families, ParentsOk, ListsOk, Clash, OwedBy;
    ActiveIsStarted(s);
    AnswerIsIn(s.queue, 0);
    var u := OpenIsAwaited(s, r);
    var k := TakerIndex(s.lists.active, r.key);
    var f := s.lists.active[k];
    if f in s.posts {
      var j := PostedIsQueued(s, f);
      assert Crosses(s.queue[0], s.queue[j]);
      assert Shielded(s, f);
      Shields(s, k);
      assert false;
    } else if f != u {
      ClashOf(s, f, u);
    }
  }

  lemma AnswerSound(s: State, r: Reply)
    requires Sound(s) && !Clash(s) && s.queue != [] && s.queue[0] == Answer(r)
    ensures Sound(ProcessAnswer(s.(queue := s.queue[1..]), r))
  {
    hide Inv, NoDuplicates, OwedBy, Behind, Clash, AnswersIn;
    var t := s.(queue := s.queue[1..]);
    var n := ProcessAnswer(t, r);
    AnswerKeeps(s, r);
    RightTaker(s, r);
    var k := TakerIndex(s.lists.active, r.key);
    var f := s.lists.active[k];
    TakenOpen(s, f, k, r, n);
    StillBehind(s, t);
    TakenBehind(s, f, n);
    AppendNoDuplicates(s.posts, f);
  }

  lemma TakenOpen(s: State, f: Activity, k: nat, r: Reply, n: State)
    requires Inv(s) && s.queue != [] && s.queue[0] == Answer(r) && k < |s.lists.active| && s.lists.active[k] == f
    requires f.role.Asks? && f.role.key == r.key && f in s.left && r.client in s.left[f]
    requires Open(s) == OwedBy(s.lists.active, s.left) && n == Take(s.(queue := s.queue[1..]), f, r.client)
    ensures Open(n) == OwedBy(n.lists.active, n.left)
  {
    hide Inv, NoDuplicates, OwedBy;
    ActiveIsStarted(s);
    OwedTake(s.lists.active, k, s.left, r.client);
    var t := s.queue[1..];
    assert AnswersIn(s.queue) == multiset{r} + AnswersIn(t);
    hide AnswersIn;
    assert n.left == s.left[f := s.left[f] - {r.client}] && n.lists == s.lists && n.flight == s.flight;
    if n.queue != t {
      AnswersAppend(t, [Complete(f)]);
      NoAnswersIn([Complete(f)]);
      assert n.queue == t + [Complete(f)];
    }
    assert AnswersIn(n.queue) == AnswersIn(t);
    TakeOne(s.flight, AnswersIn(t), r, OwedBy(n.lists.active, n.left));
  }

  lemma TakeOne(a: multiset<Reply>, b: multiset<Reply>, r: Reply, c: multiset<Reply>)
    requires a + (multiset{r} + b) == c + multiset{r}
    ensures a + b == c
  {
    assert a + b == a + (multiset{r} + b) - multiset{r};
    assert c == c + multiset{r} - multiset{r};
  }

  /** Once its completion is posted no answer that it would take is left. */
  lemma TakenBehind(s: State, f: Activity, n: State)
    requires Sound(s) && !Clash(s) && s.queue != [] && f in s.lists.active && f.role.Asks? && f !in s.posts
    requires Behind(s.(queue := s.queue[1..])) && Inv(n) && Open(n) == OwedBy(n.lists.active, n.left)
    requires n.lists == s.lists
    requires (n.queue == s.queue[1..] && n.posts == s.posts)
             || (n.queue == s.queue[1..] + [Complete(f)] && n.posts == s.posts + [f])
    ensures Behind(n)
  {
    hide Inv, NoDuplicates, OwedBy, Clash, Before;
    var t := s.(queue := s.queue[1..]);
    forall i, j | 0 <= i < j < |n.queue| && Crosses(n.queue[i], n.queue[j]) ensures Shielded(n, n.queue[j].a) {
      assert n.queue[i] == t.queue[i];
      if n.posts != s.posts && n.queue[i].reply.key == f.role.key {
        AnswerIsIn(n.queue, i);
        ActiveIsStarted(n);
        InvAskers(n);
        var w := OpenIsAwaited(n, n.queue[i].reply);
        ClashOf(s, f, w);
        assert false;
      }
      assert j < |t.queue| && Shielded(t, t.queue[j].a);
      var u: Activity :| u.Key() == t.queue[j].a.Key() && u !in t.posts && Before(t.lists.active, u, t.queue[j].a);
      assert u !in n.posts;
    }
  }

  lemma InvAskers(s: State)
    requires Inv(s)
    ensures AskersOk(s)
  {
  }

  /** A sound scheduler does not throw, and stays sound unless two activities clash. */
  lemma StepSound(s: State, act: Action)
    requires Sound(s)
    ensures Step(s, act) != Crash
    ensures Step(s, act).Next? && !Clash(s) ==> Sound(Step(s, act).state)
  {
    hide Sound, Inv, Clash, ProcessStart, ProcessComplete, ProcessAnswer;
    SoundInv(s);
    StepKeeps(s, act);
    if act.Process? && s.queue != [] && s.queue[0].Complete? {
      CompleteSound(s, s.queue[0].a);
    } else if Step(s, act).Next? && !Clash(s) {
      match act
      case Post(a) => PostSound(s, a);
      case Arrive(r) => ArriveSound(s, r);
      case Process =>
        if s.queue[0].Start? {
          StartSound(s, s.queue[0].a);
          StartKeeps(s, s.queue[0].a);
        } else {
          AnswerSound(s, s.queue[0].reply);
        }
    }
  }

  lemma SoundInv(s: State)
    requires Sound(s)
    ensures Inv(s)
  {
  }
}
