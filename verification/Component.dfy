/**
 The lock server as the program writes it: SimulationLock (api/megastructure/component.hpp), the lock
 fields of Component (src/component/component.cpp) and EGRequestManagerActivity
 (src/component/activities.cpp). Every method is proved to compute the function of the same purpose in
 LockServer, which is what the step system of LockProtocol runs.
 */
module Component {
  import opened Prelude
  import opened LockTable
  import opened LockServer
  import opened LockProtocol

  class SimulationLock {
    var entries: seq<Entry>

    constructor ()
      ensures entries == []
    {
      entries := [];
    }

    method IsIn(state: LockState) returns (r: bool)
      ensures r == Has(entries, state)
    {
      var i := 0;
      while i < |entries|
        invariant 0 <= i <= |entries|
        invariant forall j :: 0 <= j < i ==> entries[j].state != state
      {
        if entries[i].state == state { return true; }
        i := i + 1;
      }
      return false;
    }

    method IsRead() returns (r: bool)
      ensures r == Has(entries, Read)
    {
      r := IsIn(Read);
    }

    method IsReading() returns (r: bool)
      ensures r == Has(entries, Reading)
    {
      r := IsIn(Reading);
    }

    method IsAllFinished() returns (r: bool)
      ensures r == AllFinished(entries)
    {
      var i := 0;
      while i < |entries|
        invariant 0 <= i <= |entries|
        invariant forall j :: 0 <= j < i ==> entries[j].state == Finished
      {
        if entries[i].state != Finished { return false; }
        i := i + 1;
      }
      return true;
    }

    method GetHostCycleState(host: nat) returns (found: Option<Entry>)
      ensures found == Lookup(entries, host)
    {
      var i := 0;
      while i < |entries|
        invariant 0 <= i <= |entries|
        invariant forall j :: 0 <= j < i ==> entries[j].host != host
      {
        if entries[i].host == host {
          FindIs(entries, host, i);
          return Some(entries[i]);
        }
        i := i + 1;
      }
      FindIs(entries, host, i);
      return None;
    }

    method SetHostCycleState(a: Addr, cycle: nat, state: LockState) returns (hcs: Entry)
      modifies this
      ensures entries == Put(old(entries), a, cycle, state)
      ensures Lookup(entries, a.host) == Some(hcs) && hcs.host == a.host
    {
      var i := 0;
      while i < |entries|
        invariant 0 <= i <= |entries| && entries == old(entries)
        invariant forall j :: 0 <= j < i ==> entries[j].host != a.host
      {
        if entries[i].host == a.host {
          FindIs(entries, a.host, i);
          hcs := entries[i].(cycle := cycle, state := state);
          entries := entries[i := hcs];
          FindIs(entries, a.host, i);
          return;
        }
        i := i + 1;
      }
      FindIs(entries, a.host, i);
      hcs := Entry(a.coordinator, a.host, cycle, state);
      entries := entries + [hcs];
      FindIs(entries, a.host, i);
    }
  }

  /** A response on its way out, with the address issueLockResponse or OnReadRequest puts on it. */
  datatype Sent = Sent(to: Addr, response: Response)

  class Component {
    var current: SimulationLock?
    var future: SimulationLock?
    var released: bool
    var program: Option<Store>
    var clock: nat
    var startPosted: nat      // start tokens posted to the message queue
    var outbox: seq<Sent>

    ghost predicate Valid()
      reads this
    {
      current != null ==> current != future
    }

    ghost function Locks(): set<object>
      reads this
    {
      (if current == null then {} else {current}) + (if future == null then {} else {future})
    }

    ghost function Server(): Server
      reads this, Locks()
    {
      LockServer.Server(if current == null then None else Some(current.entries),
                        if future == null then None else Some(future.entries))
    }

    /** The component is as the step system has it. */
    ghost predicate Shows(s: State)
      reads this, Locks()
    {
      Server() == s.server && released == s.released && program == s.program && clock == s.clock
    }

    constructor (program: Option<Store>)
      ensures Valid() && Server() == LockServer.Server(None, None) && !released && outbox == []
      ensures this.program == program && clock == 0 && startPosted == 0
    {
      current, future, released := null, null, false;
      this.program, clock, startPosted, outbox := program, 0, 0, [];
    }

    method GetCurrentCycle() returns (c: nat)
      ensures c == if program.Some? then clock else 0
    {
      c := if program.Some? then clock else 0;
    }

    method GetOrCreateCurrentLock() returns (l: SimulationLock)
      requires Valid()
      modifies this`current, this`future
      ensures Valid() && l == current
      ensures Server() == WithCurrent(old(Server()))
      ensures old(current) != null ==> current == old(current) && future == old(future)
      ensures old(current) == null && old(future) != null ==> current == old(future) && future == null
      ensures old(current) == null && old(future) == null ==> fresh(current) && current.entries == [] && future == null
      ensures fresh(Locks() - old(Locks()))
    {
      if current == null {
        if future != null {
          current, future := future, current;
        } else {
          current := new SimulationLock();
        }
      }
      l := current;
    }

    method GetOrCreateFutureLock() returns (l: SimulationLock)
      requires Valid()
      modifies this`future
      ensures Valid() && l == future
      ensures Server() == WithFuture(old(Server()))
      ensures if old(future) != null then future == old(future) else fresh(future) && future.entries == []
      ensures fresh(Locks() - old(Locks()))
    {
      if future == null {
        future := new SimulationLock();
      }
      l := future;
    }

    method ReleaseCurrentLock()
      requires Valid()
      modifies this`current, this`future, this`released
      ensures Valid() && released && current == old(future) && future == null
      ensures Server() == LockServer.Server(old(Server()).future, None)
      ensures Locks() <= old(Locks())
    {
      current := null;
      if future != null {
        current, future := future, current;
      }
      released := true;
    }

    /**
     The guarded block of runCycle up to its wait: post a start token and await the release. It is the step of the
     main thread out of its jobs, whatever the clients and the channels are doing.
     */
    method BeginRound() returns (wait: bool)
      requires Valid()
      modifies this`startPosted, this`released
      ensures wait <==> current != null
      ensures wait ==> startPosted == old(startPosted) + 1 && !released
      ensures !wait ==> startPosted == old(startPosted) && released == old(released)
      ensures forall s: State :: old(Shows(s)) && s.main == Jobs ==>
                var o := Step(s, if wait then EnterWait else SkipWait);
                && o.Next? && Shows(o.state)
                && o.state.main == (if wait then Waiting else Running)
                && o.state.queue == s.queue + (if startPosted > old(startPosted) then [StartToken] else [])
    {
      wait := current != null;
      if wait {
        startPosted := startPosted + 1;
        released := false;
      }
    }
  }

  /** Grants as responses. */
  function GrantsTo(grants: seq<Addr>, cycle: nat): (r: seq<Sent>)
    ensures |r| == |grants|
    ensures forall i :: 0 <= i < |r| ==> r[i] == Sent(grants[i], Grant(cycle))
  {
    seq(|grants|, i requires 0 <= i < |grants| => Sent(grants[i], Grant(cycle)))
  }

  lemma {:induction false} AddressesAppend(t: Table, e: Entry, state: LockState)
    ensures Addresses(t + [e], state) == Addresses(t, state) + (if e.state == state then [e.Address()] else [])
  {
    var last := if e.state == state then [e.Address()] else [];
    if t == [] {
      assert t + [e] == [e];
    } else {
      var first := if t[0].state == state then [t[0].Address()] else [];
      assert (t + [e])[0] == t[0] && (t + [e])[1..] == t[1..] + [e];
      AddressesAppend(t[1..], e, state);
      assert Addresses(t + [e], state) == first + (Addresses(t[1..], state) + last);
    }
  }

  class EGRequestManager {
    const component: Component

    constructor (c: Component)
      ensures component == c
    {
      component := c;
    }

    /** What a handler does to the component: the locks, the grants sent, the released flag. */
    twostate predicate Handles(r: Handled)
      reads component, component.Locks()
      requires r.Done?
    {
      && component.Valid()
      && component.Server() == r.server
      && component.outbox == old(component.outbox) + GrantsTo(r.grants,
           if old(component.program).Some? then old(component.clock) else 0)
      && component.released == (old(component.released) || r.released)
      && component.program == old(component.program) && component.clock == old(component.clock)
      && component.startPosted == old(component.startPosted)
      && fresh(component.Locks() - old(component.Locks()))
    }

    method IssueLockResponse(hcs: Entry)
      modifies component`outbox
      ensures component.outbox == old(component.outbox) + [Sent(Addr(hcs.coordinator, hcs.host),
                Grant(if component.program.Some? then component.clock else 0))]
    {
      var c := component.GetCurrentCycle();
      component.outbox := component.outbox + [Sent(hcs.Address(), Grant(c))];
    }

    /** Start all readers of the current lock. */
    method StartAllReaders(lock: SimulationLock)
      modifies lock, component`outbox
      ensures lock.entries == StartReaders(old(lock.entries))
      ensures component.outbox == old(component.outbox) + GrantsTo(Addresses(old(lock.entries), Read),
                if component.program.Some? then component.clock else 0)
    {
      ghost var was := lock.entries;
      ghost var sent, now := component.outbox, if component.program.Some? then component.clock else 0;
      var i := 0;
      while i < |lock.entries|
        invariant 0 <= i <= |lock.entries| == |was|
        invariant forall j :: 0 <= j < i ==> lock.entries[j] == StartReaders(was)[j]
        invariant forall j :: i <= j < |was| ==> lock.entries[j] == was[j]
        invariant component.outbox == sent + GrantsTo(Addresses(was[..i], Read), now)
      {
        assert was[..i + 1] == was[..i] + [was[i]];
        AddressesAppend(was[..i], was[i], Read);
        if lock.entries[i].state == Read {
          lock.entries := lock.entries[i := lock.entries[i].(state := Reading)];
          IssueLockResponse(lock.entries[i]);
        }
        i := i + 1;
      }
      assert was[..i] == was;
    }

    /** Start the first waiting writer, if there is one. */
    method StartFirstWriter(lock: SimulationLock) returns (found: bool)
      modifies lock, component`outbox
      ensures var t := old(lock.entries);
              var k := FirstWriter(t);
              && (found <==> k < |t|)
              && lock.entries == (if k < |t| then t[k := t[k].(state := Writing)] else t)
              && component.outbox == old(component.outbox) +
                   GrantsTo(if k < |t| then [t[k].Address()] else [],
                     if component.program.Some? then component.clock else 0)
    {
      var i := 0;
      while i < |lock.entries|
        invariant 0 <= i <= |lock.entries| && lock.entries == old(lock.entries)
        invariant component.outbox == old(component.outbox)
        invariant forall j :: 0 <= j < i ==> lock.entries[j].state != Write
      {
        if lock.entries[i].state == Write {
          assert FirstWriter(lock.entries) == i;
          lock.entries := lock.entries[i := lock.entries[i].(state := Writing)];
          IssueLockResponse(lock.entries[i]);
          return true;
        }
        i := i + 1;
      }
      assert FirstWriter(lock.entries) == i;
      return false;
    }

    method HandOn(lock: SimulationLock, none: Fault) returns (fault: Option<Fault>)
      requires component.Valid() && component.current == lock
      modifies lock, component`outbox
      ensures var r := GrantNext(old(component.Server()), old(lock.entries), none);
              match r
              case Thrown(f) => fault == Some(f)
              case Done(_, _, _) => fault == None && Handles(r)
    {
      var read := lock.IsRead();
      if read {
        StartAllReaders(lock);
        fault := None;
      } else {
        var found := StartFirstWriter(lock);
        fault := if found then None else Some(none);
      }
    }

    method OnLockRequest(a: Addr, cycle: nat, read: bool) returns (fault: Option<Fault>)
      requires component.Valid()
      modifies component, component.Locks()
      ensures var r := OnLock(old(component.Server()), a, cycle, !read);
              match r
              case Thrown(f) => fault == Some(f)
              case Done(_, _, _) => fault == None && Handles(r)
    {
      if read {
        fault := OnReadLockRequest(a, cycle);
      } else {
        fault := OnWriteLockRequest(a, cycle);
      }
    }

    method OnReadLockRequest(a: Addr, cycle: nat) returns (fault: Option<Fault>)
      requires component.Valid()
      modifies component, component.Locks()
      ensures var r := OnReadLock(old(component.Server()), a, cycle);
              match r
              case Thrown(f) => fault == Some(f)
              case Done(_, _, _) => fault == None && Handles(r)
    {
      var lock := component.GetOrCreateCurrentLock();
      var e := lock.GetHostCycleState(a.host);
      if e.Some? {
        if e.value.cycle == cycle {
          return Some(ReadLockTwice);
        }
        var next := component.GetOrCreateFutureLock();
        var f := next.GetHostCycleState(a.host);
        if f.Some? {
          return Some(FutureReadTwice);
        }
        var _ := next.SetHostCycleState(a, cycle, Read);
      } else {
        var reading := lock.IsReading();
        if reading {
          var hcs := lock.SetHostCycleState(a, cycle, Reading);
          PutAddress(old(component.Server()), a, cycle, Reading);
          IssueLockResponse(hcs);
        } else {
          var _ := lock.SetHostCycleState(a, cycle, Read);
        }
      }
      return None;
    }

    method OnWriteLockRequest(a: Addr, cycle: nat) returns (fault: Option<Fault>)
      requires component.Valid()
      modifies component, component.Locks()
      ensures var r := OnWriteLock(old(component.Server()), a, cycle);
              match r
              case Thrown(f) => fault == Some(f)
              case Done(_, _, _) => fault == None && Handles(r)
    {
      var lock := component.GetOrCreateCurrentLock();
      var e := lock.GetHostCycleState(a.host);
      if e.Some? {
        if e.value.cycle == cycle {
          if e.value.state == Read {
            var _ := lock.SetHostCycleState(a, cycle, Write);
          } else if e.value.state == Reading {
            ghost var t := lock.entries;
            var _ := lock.SetHostCycleState(a, cycle, Write);
            var reading := lock.IsReading();
            if !reading {
              var hcs := lock.SetHostCycleState(a, cycle, Writing);
              PutPutAddress(t, a, cycle);
              IssueLockResponse(hcs);
            }
          } else {
            return Some(WriteLockTwice);
          }
        } else {
          var next := component.GetOrCreateFutureLock();
          var f := next.GetHostCycleState(a.host);
          if f.Some? && !(f.value.cycle == cycle && f.value.state == Read) {
            return Some(FutureWriteTwice);
          }
          var _ := next.SetHostCycleState(a, cycle, Write);
        }
      } else {
        var _ := lock.SetHostCycleState(a, cycle, Write);
      }
      return None;
    }

    method OnUnlockRequest(a: Addr, cycle: nat) returns (fault: Option<Fault>)
      requires component.Valid()
      modifies component, component.Locks()
      ensures var r := OnUnlock(old(component.Server()), a, cycle);
              match r
              case Thrown(f) => fault == Some(f)
              case Done(_, _, _) => fault == None && Handles(r)
    {
      var lock := component.current;
      if lock == null {
        return Some(UnlockNoCurrent);
      }
      var e := lock.GetHostCycleState(a.host);
      if e.None? {
        return Some(UnlockNoEntry);
      }
      var _ := lock.SetHostCycleState(a, cycle, Finished);
      var done := lock.IsAllFinished();
      if done {
        component.ReleaseCurrentLock();
        return None;
      }
      var reading := lock.IsReading();
      if reading {
        return None;
      }
      fault := HandOn(lock, UnlockNoWriter);
    }

    method SimulationLockStarted() returns (fault: Option<Fault>)
      requires component.Valid()
      modifies component, component.Locks()
      ensures var r := OnStart(old(component.Server()));
              match r
              case Thrown(f) => fault == Some(f)
              case Done(_, _, _) => fault == None && Handles(r)
    {
      var lock := component.current;
      if lock == null {
        return Some(StartNoCurrent);
      }
      fault := HandOn(lock, StartNoWriter);
    }

    method OnReadRequest(a: Addr, cell: Cell) returns (fault: Option<Fault>)
      requires component.Valid()
      modifies component
      ensures component.Valid() && component.program == old(component.program)
      ensures match OnAccess(old(component.Server()), a, false)
              case Thrown(f) => fault == Some(f)
              case Done(sv, _, _) =>
                && component.Server() == sv
                && match component.program
                   case None => fault == None && component.outbox == old(component.outbox) + [Sent(a, Refused)]
                   case Some(store) =>
                     if cell in store then fault == None
                       && component.outbox == old(component.outbox) + [Sent(a, Answer(cell, store[cell]))]
                     else fault == Some(UnknownType)
    {
      var lock := component.GetOrCreateCurrentLock();
      var e := lock.GetHostCycleState(a.host);
      match e {
        case None => return Some(ReadNoEntry);
        case Some(hcs) =>
          if hcs.state != Reading && hcs.state != Writing {
            return Some(ReadNotHeld);
          }
      }
      match component.program {
        case None => component.outbox := component.outbox + [Sent(a, Refused)];
        case Some(store) =>
          if cell !in store {
            return Some(UnknownType);
          }
          component.outbox := component.outbox + [Sent(a, Answer(cell, store[cell]))];
      }
      return None;
    }

    method OnWriteRequest(a: Addr, writes: Store) returns (fault: Option<Fault>)
      requires component.Valid()
      modifies component
      ensures component.Valid() && component.outbox == old(component.outbox)
      ensures match OnAccess(old(component.Server()), a, true)
              case Thrown(f) => fault == Some(f)
              case Done(sv, _, _) =>
                && component.Server() == sv
                && match old(component.program)
                   case None => fault == None && component.program == None
                   case Some(store) =>
                     if writes.Keys <= store.Keys then fault == None && component.program == Some(store + writes)
                     else fault == Some(UnknownType)
    {
      var lock := component.GetOrCreateCurrentLock();
      var e := lock.GetHostCycleState(a.host);
      match e {
        case None => return Some(WriteNoEntry);
        case Some(hcs) =>
          if hcs.state != Writing {
            return Some(WriteNotHeld);
          }
      }
      if component.program.Some? {
        if !(writes.Keys <= component.program.value.Keys) {
          return Some(UnknownType);
        }
        component.program := Some(component.program.value + writes);
      }
      return None;
    }
  }

  /** A new entry is sent its grant at the address that asked. */
  lemma PutAddress(sv: Server, a: Addr, cycle: nat, state: LockState)
    requires Lookup(WithCurrent(sv).current.value, a.host).None?
    ensures var t := Put(WithCurrent(sv).current.value, a, cycle, state);
            Lookup(t, a.host) == Some(Entry(a.coordinator, a.host, cycle, state))
  {
    var t := WithCurrent(sv).current.value;
    FindIs(Put(t, a, cycle, state), a.host, |t|);
  }

  /** An upgraded entry keeps the address it joined with. */
  lemma PutPutAddress(t: Table, a: Addr, cycle: nat)
    requires Lookup(t, a.host).Some?
    ensures var u := Put(Put(t, a, cycle, Write), a, cycle, Writing);
            Lookup(u, a.host).Some? && Lookup(u, a.host).value.Address() == t[Find(t, a.host)].Address()
  {
    PutTwice(t, a, cycle, Write, Writing);
    FindIs(Put(t, a, cycle, Writing), a.host, Find(t, a.host));
  }
}
