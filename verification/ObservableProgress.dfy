/** What the operations of the observable achieve: emits come to their end, destructors give the mutex back, and whoever
    is connected can read everything that was emitted for it. */
module ObservableProgress {
  import opened Lists
  import opened Observable

  /** The steps `xs` lead from `c` to `c'`. */
  ghost predicate Leads(c: State, xs: seq<Action>, c': State) { Runs(c, xs) && After(c, xs) == c' }

  lemma {:induction false} LeadsJoin(c: State, xs: seq<Action>, c1: State, ys: seq<Action>, c2: State)
    requires Leads(c, xs, c1) && Leads(c1, ys, c2)
    ensures Leads(c, xs + ys, c2)
    decreases |ys|
  {
    hide Step, Enabled;
    if ys == [] {
      assert xs + ys == xs;
    } else {
      var n := |ys| - 1;
      LeadsJoin(c, xs, c1, ys[..n], After(c1, ys[..n]));
      assert (xs + ys)[..|xs + ys| - 1] == xs + ys[..n];
    }
  }

  lemma LeadsNowhere(c: State)
    ensures Leads(c, [], c)
  {
  }

  lemma LeadsOne(c: State, a: Action)
    requires Enabled(c, a)
    ensures Leads(c, [a], Step(c, a))
  {
    assert [a][..0] == [];
    LeadsNowhere(c);
  }

  // ---------------------------------------------------------------------------------------------
  // Reading

  /** How much the observers still have to do with what they have. */
  ghost function Weight(queues: seq<seq<Ref>>, obs: seq<Observer>): nat
    requires |queues| == |obs|
  {
    if obs == [] then 0
    else
      var n := |obs| - 1;
      Weight(queues[..n], obs[..n]) + 2 * |queues[n]| + |obs[n].guards|
  }

  lemma {:induction false} WeightUpdate(queues: seq<seq<Ref>>, obs: seq<Observer>, o: nat, q: seq<Ref>, ob: Observer)
    requires |queues| == |obs| && o < |obs|
    ensures Weight(queues[o := q], obs[o := ob])
         == Weight(queues, obs) - 2 * |queues[o]| - |obs[o].guards| + 2 * |q| + |ob.guards|
  {
    var n := |obs| - 1;
    var qs', os' := queues[o := q], obs[o := ob];
    if o == n {
      assert qs'[..n] == queues[..n] && os'[..n] == obs[..n];
    } else {
      assert qs'[..n] == queues[..n][o := q] && os'[..n] == obs[..n][o := ob];
      WeightUpdate(queues[..n], obs[..n], o, q, ob);
    }
  }

  /** Emit `e` sleeps on its latch, and nobody links nodes. */
  ghost predicate Draining(s: State, g: View, e: nat) {
    Inv(s, g) && !s.mutex.ByEmit? && e < |s.emits| && s.emits[e].phase == Waiting
  }

  /** What observers do when they read does not disturb emits and destructors. */
  ghost predicate Undisturbed(s: State, s': State) {
    && s'.mutex == s.mutex && |s'.obs| == |s.obs| && |s'.emits| == |s.emits|
    && (forall o :: 0 <= o < |s.obs| && s.obs[o].link.Leaving? ==> s'.obs[o] == s.obs[o])
    && (forall e :: 0 <= e < |s.emits| ==> s'.emits[e].phase == s.emits[e].phase)
  }

  lemma UndisturbedMore(s: State, s1: State, s2: State)
    requires Undisturbed(s, s1) && Undisturbed(s1, s2)
    ensures Undisturbed(s, s2)
  {
  }

  ghost predicate Lighter(s: State, g: View, s': State, g': View) {
    |g.queues| == |s.obs| && |g'.queues| == |s'.obs| && Weight(g'.queues, s'.obs) < Weight(g.queues, s.obs)
  }

  lemma ReadFrame(s: State, g: View, e: nat, o: nat, s': State, g': View)
    requires Draining(s, g, e) && Inv(s', g') && o < |s.obs| == |s'.obs| && !s.obs[o].link.Leaving?
    requires s'.obs == s.obs[o := s'.obs[o]] && s'.mutex == s.mutex && |s'.emits| == |s.emits|
    requires forall e :: 0 <= e < |s.emits| ==> s'.emits[e].phase == s.emits[e].phase
    ensures Draining(s', g', e) && Undisturbed(s, s') && |g.queues| == |s.obs| && |g'.queues| == |s'.obs|
  {
    assert Sizes(s, g) && Sizes(s', g');
    hide Inv, Sizes;
  }

  lemma WeightSame(queues: seq<seq<Ref>>, obs: seq<Observer>, o: nat, ob: Observer)
    requires |queues| == |obs| && o < |obs|
    ensures Weight(queues, obs[o := ob]) == Weight(queues, obs) - |obs[o].guards| + |ob.guards|
  {
    WeightUpdate(queues, obs, o, queues[o], ob);
    assert queues[o := queues[o]] == queues;
  }

  lemma DropEffect(s: State, g: View, o: nat, i: nat)
    requires Inv(s, g) && o < |s.obs| && i < |s.obs[o].guards|
    ensures Enabled(s, DropGuard(o, i)) && Inv(Step(s, DropGuard(o, i)), ViewStep(s, g, DropGuard(o, i)))
    ensures ViewStep(s, g, DropGuard(o, i)).queues == g.queues
    ensures var s' := Step(s, DropGuard(o, i));
      && |s'.obs| == |s.obs| && s'.obs == s.obs[o := s'.obs[o]] && |s'.obs[o].guards| == |s.obs[o].guards| - 1
      && s'.mutex == s.mutex && |s'.emits| == |s.emits|
      && forall e :: 0 <= e < |s.emits| ==> s'.emits[e].phase == s.emits[e].phase
  {
    GuardIsAlive(s, g, o, i);
    DropKeeps(s, g, o, i);
    hide Inv;
  }

  /** An observer lets go of a result. */
  lemma DropOne(s: State, g: View, e: nat, o: nat, i: nat) returns (s': State, g': View)
    requires Draining(s, g, e) && o < |s.obs| && !s.obs[o].link.Leaving? && i < |s.obs[o].guards|
    ensures Leads(s, [DropGuard(o, i)], s') && Draining(s', g', e) && Undisturbed(s, s') && Lighter(s, g, s', g')
  {
    DropEffect(s, g, o, i);
    LeadsOne(s, DropGuard(o, i));
    s', g' := Step(s, DropGuard(o, i)), ViewStep(s, g, DropGuard(o, i));
    hide Inv, Step, ViewStep, Leads;
    ReadFrame(s, g, e, o, s', g');
    hide Draining, Undisturbed;
    WeightSame(g.queues, s.obs, o, s'.obs[o]);
  }

  lemma TakeEffect(s: State, g: View, o': nat)
    requires Inv(s, g) && Enabled(s, Take(o'))
    ensures var s', g' := Step(s, Take(o')), ViewStep(s, g, Take(o'));
      && o' < |s.obs| == |s'.obs| == |g.queues| && g.queues[o'] != [] && s'.emits == s.emits && s'.mutex == s.mutex
      && s'.obs == s.obs[o' := s'.obs[o']] && g'.queues == g.queues[o' := g.queues[o'][1..]]
      && |s'.obs[o'].guards| == |s.obs[o'].guards| + 1
  {
    TakeMoves(s, g, o');
    var r := g.queues[o'][0];
    assert s.emits[r.e := s.emits[r.e].(count := s.emits[r.e].count - 0)] == s.emits;
    assert |g.queues| == |s.obs|;
    hide Step, ViewStep, Inv;
  }

  /** An observer reads its next result. */
  lemma TakeOne(s: State, g: View, e: nat, o: nat) returns (s': State, g': View)
    requires Draining(s, g, e) && Enabled(s, Take(o))
    ensures Leads(s, [Take(o)], s') && Draining(s', g', e) && Undisturbed(s, s') && Lighter(s, g, s', g')
  {
    LeadsOne(s, Take(o));
    TakeKeeps(s, g, o);
    TakeEffect(s, g, o);
    assert o < |s.obs| && !s.obs[o].link.Leaving?;
    s', g' := Step(s, Take(o)), ViewStep(s, g, Take(o));
    hide Inv, Step, ViewStep, Leads;
    ReadFrame(s, g, e, o, s', g');
    hide Draining, Undisturbed;
    WeightUpdate(g.queues, s.obs, o, g.queues[o][1..], s'.obs[o]);
  }

  lemma AwaitEffect(s: State, o: nat)
    requires Enabled(s, Await(o)) && s.obs[o].link.result != Null
    ensures Step(s, Await(o)) == s.(obs := s.obs[o := s.obs[o].(consumer := Woken)])
    ensures Enabled(Step(s, Await(o)), Take(o))
  {
  }

  /** A connected observer with results asks for the next one. */
  lemma AwaitOne(s: State, g: View, e: nat, o: nat) returns (s': State)
    requires Draining(s, g, e) && Enabled(s, Await(o)) && s.obs[o].link.result != Null
    ensures Leads(s, [Await(o)], s') && Draining(s', g, e) && Undisturbed(s, s') && Enabled(s', Take(o))
    ensures |g.queues| == |s.obs| == |s'.obs| && Weight(g.queues, s'.obs) == Weight(g.queues, s.obs)
  {
    LeadsOne(s, Await(o));
    AwaitKeeps(s, g, o);
    AwaitEffect(s, o);
    s' := Step(s, Await(o));
    hide Inv, Step, Leads;
    ReadFrame(s, g, e, o, s', g);
    hide Draining, Undisturbed;
    WeightSame(g.queues, s.obs, o, s.obs[o].(consumer := Woken));
  }

  /** A connected observer with results reads the next one. */
  lemma OneResult(s: State, g: View, e: nat, o: nat) returns (xs: seq<Action>, s': State, g': View)
    requires Draining(s, g, e) && o < |s.obs| && s.obs[o].link.Connected? && s.obs[o].link.result != Null
    requires s.obs[o].consumer != Suspended
    ensures Leads(s, xs, s') && Draining(s', g', e) && Undisturbed(s, s') && Lighter(s, g, s', g')
  {
    assert s.obs[o].consumer == Free ==> Enabled(s, Await(o));
    assert s.obs[o].consumer == Woken ==> Enabled(s, Take(o));
    hide Leads, Draining, Undisturbed, Enabled;
    if s.obs[o].consumer == Free {
      var s1 := AwaitOne(s, g, e, o);
      s', g' := TakeOne(s1, g, e, o);
      LeadsJoin(s, [Await(o)], s1, [Take(o)], s');
      UndisturbedMore(s, s1, s');
      xs := [Await(o)] + [Take(o)];
    } else {
      s', g' := TakeOne(s, g, e, o);
      xs := [Take(o)];
    }
  }

  /** Where an unread node is: among the guards of its observer, or in his queue, and then he is connected and awake. */
  lemma NodePlace(s: State, g: View, e: nat, k: nat)
    requires Inv(s, g) && e < |s.emits| && k < |s.emits[e].targets|
    ensures e < |g.status| && k < |g.status[e]|
    ensures var o := s.emits[e].targets[k];
      && o < |s.obs| && o < |g.queues|
      && (g.status[e][k] == Guarded ==> Ref(e, k) in s.obs[o].guards)
      && (g.status[e][k] == Queued && !s.obs[o].link.Leaving? ==>
            && g.queues[o] != [] && s.obs[o].link == Connected(PtrAt(g.queues[o], 0))
            && s.obs[o].consumer != Suspended)
  {
    assert EmitOk(s.emits[e], g.status[e]);
    assert Placed(s, g, e, k);
    var o := s.emits[e].targets[k];
    assert ObserverOk(s.emits, g.status, o, s.obs[o], g.queues[o]);
    hide QueueOk, GuardsOk, EmitsOk, ObserversOk, AllPlaced, Levels, History;
  }

  /** Whoever holds node `k` of the emit, and is not being destroyed, gets on with it. */
  lemma OneReads(s: State, g: View, e: nat, k: nat) returns (xs: seq<Action>, s': State, g': View)
    requires Draining(s, g, e) && k < |s.emits[e].targets| && e < |g.status| && k < |g.status[e]|
    requires g.status[e][k] == Queued || g.status[e][k] == Guarded
    requires s.emits[e].targets[k] < |s.obs| && !s.obs[s.emits[e].targets[k]].link.Leaving?
    ensures Leads(s, xs, s') && Draining(s', g', e) && Undisturbed(s, s') && Lighter(s, g, s', g')
  {
    NodePlace(s, g, e, k);
    hide Leads, Draining, Undisturbed, Lighter;
    var o := s.emits[e].targets[k];
    if g.status[e][k] == Guarded {
      var i :| 0 <= i < |s.obs[o].guards| && s.obs[o].guards[i] == Ref(e, k);
      s', g' := DropOne(s, g, e, o, i);
      xs := [DropGuard(o, i)];
    } else {
      xs, s', g' := OneResult(s, g, e, o);
    }
  }

  // ---------------------------------------------------------------------------------------------
  // An emit comes to its end

  lemma UnreadNode(s: State, g: View, e: nat) returns (k: nat)
    requires Draining(s, g, e) && s.emits[e].count != 0
    ensures k < |s.emits[e].targets| && e < |g.status| && k < |g.status[e]|
    ensures g.status[e][k] == Queued || g.status[e][k] == Guarded
  {
    assert EmitOk(s.emits[e], g.status[e]);
    hide ObserversOk, Lock, Levels, AllPlaced, History;
    CountPositive(g.status[e], Unread);
    k :| 0 <= k < |g.status[e]| && Unread(g.status[e][k]);
  }

  lemma NobodyLeaves(s: State, g: View, o: nat)
    requires Inv(s, g) && s.mutex == Unlocked && o < |s.obs|
    ensures !s.obs[o].link.Leaving?
  {
    hide EmitsOk, ObserversOk, Levels, AllPlaced, History;
  }

  /** With the mutex free everybody can read and let go of the nodes of a waiting emit. */
  lemma {:induction false} EmitDrains(s: State, g: View, e: nat) returns (xs: seq<Action>, s': State, g': View)
    requires Draining(s, g, e) && s.mutex == Unlocked
    ensures Leads(s, xs, s') && Draining(s', g', e) && s'.emits[e].count == 0 && Undisturbed(s, s')
    decreases if |g.queues| == |s.obs| then Weight(g.queues, s.obs) else 0
  {
    if s.emits[e].count == 0 {
      LeadsNowhere(s);
      xs, s', g' := [], s, g;
    } else {
      var k := UnreadNode(s, g, e);
      NodePlace(s, g, e, k);
      NobodyLeaves(s, g, s.emits[e].targets[k]);
      hide Leads, Draining;
      var ys, s1, g1 := OneReads(s, g, e, k);
      xs, s', g' := EmitDrains(s1, g1, e);
      LeadsJoin(s, ys, s1, xs, s');
      UndisturbedMore(s, s1, s');
      xs := ys + xs;
    }
  }

  // ---------------------------------------------------------------------------------------------
  // The mutex comes free

  /** No destructor is about to read a link that is gone. */
  ghost predicate AllIntact(s: State) { forall o :: 0 <= o < |s.obs| ==> Intact(s, o) }

  lemma HolderAppends(s: State, g: View)
    requires Inv(s, g) && s.mutex.ByEmit?
    ensures var e := s.mutex.e;
      && e < |s.emits| == |g.status| && EmitIn(s, e, Appending)
      && |s.emits[e].next| <= |s.emits[e].targets|
  {
    var e := s.mutex.e;
    assert EmitOk(s.emits[e], g.status[e]);
    hide ObserversOk, Levels, AllPlaced, History;
  }

  lemma AppendMakes(s: State, g: View, e: nat)
    requires Inv(s, g) && Enabled(s, Append(e))
    ensures var s' := Step(s, Append(e));
      && |s'.emits| == |s.emits| && s'.mutex == s.mutex && s.mutex == ByEmit(e)
      && |s'.emits[e].next| == |s.emits[e].next| + 1 && s'.emits[e].targets == s.emits[e].targets
      && forall e' :: 0 <= e' < |s.emits| ==> s'.emits[e'].phase == s.emits[e'].phase
  {
    AppendEffect(s, g, e);
    hide Inv, Step;
  }

  /** emit() links all its nodes, gives the mutex back, and gets to its latch. */
  lemma {:induction false} EmitUnlocks(s: State, g: View) returns (xs: seq<Action>, s': State, g': View)
    requires Inv(s, g) && s.mutex.ByEmit?
    ensures Leads(s, xs, s') && Inv(s', g') && s'.mutex == Unlocked && |s'.emits| == |s.emits| && s.mutex.e < |s.emits|
    ensures forall e :: 0 <= e < |s.emits| ==>
      s'.emits[e].phase == if e == s.mutex.e then Arriving else s.emits[e].phase
    decreases if s.mutex.e < |s.emits| then |s.emits[s.mutex.e].targets| - |s.emits[s.mutex.e].next| else 0
  {
    HolderAppends(s, g);
    var e := s.mutex.e;
    if |s.emits[e].next| < |s.emits[e].targets| {
      AppendMakes(s, g, e);
      AppendKeeps(s, g, e);
      LeadsOne(s, Append(e));
      var s1, g1 := Step(s, Append(e)), ViewStep(s, g, Append(e));
      hide Inv, Leads, Step, ViewStep;
      xs, s', g' := EmitUnlocks(s1, g1);
      LeadsJoin(s, [Append(e)], s1, xs, s');
      xs := [Append(e)] + xs;
    } else {
      UnlockKeeps(s, g, e);
      LeadsOne(s, Unlock(e));
      xs, s', g' := [Unlock(e)], Step(s, Unlock(e)), g;
      hide Inv, Leads;
    }
  }

  /** What a destructor's step leaves alone. */
  ghost predicate OnlyLeaves(s: State, o: nat, s': State) {
    && |s'.obs| == |s.obs| && o < |s.obs| && s'.obs == s.obs[o := s'.obs[o]] && |s'.emits| == |s.emits|
    && forall e :: 0 <= e < |s.emits| ==> s'.emits[e].phase == s.emits[e].phase
  }

  lemma LeavesMore(s: State, o: nat, s1: State, s2: State)
    requires OnlyLeaves(s, o, s1) && OnlyLeaves(s1, o, s2)
    ensures OnlyLeaves(s, o, s2)
  {
  }

  /** One node of the queue is given up. */
  lemma LeaveOne(s: State, g: View, o: nat) returns (s': State, g': View)
    requires Inv(s, g) && Enabled(s, LeaveCount(o))
    ensures Leads(s, [LeaveCount(o)], s') && Inv(s', g') && OnlyLeaves(s, o, s') && s'.mutex == s.mutex
    ensures o < |g.queues| && g.queues[o] != [] && |g'.queues| == |g.queues| && g'.queues[o] == g.queues[o][1..]
    ensures s'.obs[o].link == Leaving(To(g.queues[o][0]), true) && Enabled(s', LeaveNext(o)) && InTime(s', LeaveNext(o))
  {
    LeaveCountMoves(s, g, o);
    LeaveCountKeeps(s, g, o);
    HeadIsAlive(s, g, o);
    LeadsOne(s, LeaveCount(o));
    s', g' := Step(s, LeaveCount(o)), ViewStep(s, g, LeaveCount(o));
    assert Sizes(s, g);
    hide Inv, Leads, Step, ViewStep;
  }

  /** A destructor that is in time goes on to the next node. */
  lemma NextOne(s: State, g: View, o: nat) returns (s': State)
    requires Inv(s, g) && Enabled(s, LeaveNext(o)) && InTime(s, LeaveNext(o))
    ensures Leads(s, [LeaveNext(o)], s') && Inv(s', g) && OnlyLeaves(s, o, s') && s'.mutex == s.mutex
    ensures s'.obs[o].link.Leaving? && !s'.obs[o].link.counted
  {
    LeaveNextKeeps(s, g, o);
    LeadsOne(s, LeaveNext(o));
    s' := Step(s, LeaveNext(o));
    hide Leads;
  }

  /** The end of a destructor. */
  lemma LastOne(s: State, g: View, o: nat) returns (s': State)
    requires Inv(s, g) && Enabled(s, EndLeave(o))
    ensures Leads(s, [EndLeave(o)], s') && Inv(s', g) && OnlyLeaves(s, o, s') && s'.mutex == Unlocked
    ensures s'.obs[o].link == Gone
  {
    EndLeaveKeeps(s, g, o);
    LeadsOne(s, EndLeave(o));
    s' := Step(s, EndLeave(o));
    hide Leads, Inv;
  }

  lemma LeaverAt(s: State, g: View, o: nat)
    requires Inv(s, g) && s.mutex == ByLeaver(o) && o < |s.obs|
    ensures s.obs[o].link.Leaving? && o < |g.queues|
    ensures s.obs[o].link.counted ==> Enabled(s, LeaveNext(o))
    ensures !s.obs[o].link.counted ==>
      if s.obs[o].link.ptr == Null then Enabled(s, EndLeave(o)) else Enabled(s, LeaveCount(o))
  {
    assert ObserverOk(s.emits, g.status, o, s.obs[o], g.queues[o]);
    hide EmitsOk, ObserversOk, Levels, AllPlaced, History;
  }

  /** A destructor that is not late gives up all it has not read, and gives the mutex back, by its own steps. */
  lemma {:induction false} LeaverEnds(s: State, g: View, o: nat) returns (xs: seq<Action>, s': State, g': View)
    requires Inv(s, g) && s.mutex == ByLeaver(o) && o < |s.obs| && Intact(s, o)
    ensures Leads(s, xs, s') && Inv(s', g') && s'.mutex == Unlocked && OnlyLeaves(s, o, s') && s'.obs[o].link == Gone
    decreases if o < |g.queues| then |g.queues[o]| else 0, s.obs[o].link.Leaving? && s.obs[o].link.counted
  {
    LeaverAt(s, g, o);
    hide Inv, Leads, OnlyLeaves, Enabled, InTime;
    if s.obs[o].link.counted {
      var s1 := NextOne(s, g, o);
      SameMutex(s, o, s1);
      NotCounted(s1, o);
      xs, s', g' := LeaverEnds(s1, g, o);
      LeadsJoin(s, [LeaveNext(o)], s1, xs, s');
      LeavesMore(s, o, s1, s');
      xs := [LeaveNext(o)] + xs;
    } else if s.obs[o].link.ptr == Null {
      s' := LastOne(s, g, o);
      xs, g' := [EndLeave(o)], g;
    } else {
      var s1, g1 := LeaveOne(s, g, o);
      SameMutex(s, o, s1);
      xs, s', g' := LeaverEnds(s1, g1, o);
      LeadsJoin(s, [LeaveCount(o)], s1, xs, s');
      LeavesMore(s, o, s1, s');
      xs := [LeaveCount(o)] + xs;
    }
  }

  lemma SameMutex(s: State, o: nat, s1: State)
    requires OnlyLeaves(s, o, s1)
    ensures |s1.obs| == |s.obs| && o < |s1.obs|
  {
  }

  lemma NotCounted(s: State, o: nat)
    requires o < |s.obs| && s.obs[o].link.Leaving? && !s.obs[o].link.counted
    ensures Intact(s, o)
  {
  }

  /** Who holds the mutex gives it back. */
  lemma MutexFrees(s: State, g: View) returns (xs: seq<Action>, s': State, g': View)
    requires Inv(s, g) && AllIntact(s)
    ensures Leads(s, xs, s') && Inv(s', g') && s'.mutex == Unlocked && |s'.emits| == |s.emits|
    ensures forall e :: 0 <= e < |s.emits| && s.emits[e].phase != Finished ==> s'.emits[e].phase != Finished
  {
    hide Leads;
    match s.mutex
    case Unlocked =>
      LeadsNowhere(s);
      xs, s', g' := [], s, g;
    case ByEmit(_) =>
      hide Inv;
      xs, s', g' := EmitUnlocks(s, g);
    case ByLeaver(o) =>
      LeaverIs(s, g);
      hide Inv, Intact;
      xs, s', g' := LeaverEnds(s, g, o);
  }

  lemma LeaverIs(s: State, g: View)
    requires Inv(s, g) && s.mutex.ByLeaver?
    ensures s.mutex.o < |s.obs|
  {
    hide EmitsOk, ObserversOk, Levels, AllPlaced, History;
  }

  // ---------------------------------------------------------------------------------------------
  // What that means for the observable

  lemma EmitPhase(s: State, g: View, e: nat)
    requires Inv(s, g) && s.mutex == Unlocked && e < |s.emits| && s.emits[e].phase != Finished
    ensures s.emits[e].phase == Arriving || s.emits[e].phase == Waiting
  {
    hide EmitsOk, ObserversOk, Levels, AllPlaced, History;
  }

  /** An unfinished emit outside the mutex arrives at its latch, is read by everybody, and resumes. */
  lemma EmitEnds(s: State, g: View, e: nat) returns (xs: seq<Action>, s': State)
    requires Inv(s, g) && s.mutex == Unlocked && e < |s.emits| && s.emits[e].phase != Finished
    ensures Leads(s, xs, s') && e < |s'.emits| && s'.emits[e].phase == Finished && !s'.crashed
  {
    EmitPhase(s, g, e);
    var ys, s1: State := [], s;
    LeadsNowhere(s);
    if s.emits[e].phase == Arriving {
      ArriveKeeps(s, g, e);
      LeadsOne(s, Arrive(e));
      ys, s1 := [Arrive(e)], Step(s, Arrive(e));
    }
    assert Draining(s1, g, e) && s1.mutex == Unlocked;
    hide Leads, Inv;
    var zs, s2, g2 := EmitDrains(s1, g, e);
    LeadsJoin(s, ys, s1, zs, s2);
    FinishKeeps(s2, g2, e);
    LeadsOne(s2, Finish(e));
    s' := Step(s2, Finish(e));
    LeadsJoin(s, ys + zs, s2, [Finish(e)], s');
    xs := ys + zs + [Finish(e)];
    NotCrashed(s', g2);
  }

  lemma NotCrashed(s: State, g: View)
    requires Inv(s, g)
    ensures !s.crashed
  {
  }

  /** Every emit can come to its end: from every reachable state in which no destructor is about to be late, and for every
      emit, there is a way to go on after which it has resumed, everybody having read it. */
  lemma {:induction false} EveryEmitCanFinish(s: State, acts: seq<Action>, e: nat) returns (xs: seq<Action>, s': State)
    requires Init(s) && Runs(s, acts) && AllInTime(s, acts) && AllIntact(After(s, acts)) && e < |After(s, acts).emits|
    ensures Leads(After(s, acts), xs, s') && e < |s'.emits| && s'.emits[e].phase == Finished && !s'.crashed
  {
    var g := RunKeeps(s, acts);
    var c := After(s, acts);
    hide Runs, After, AllInTime, AllReceived, Inv, Leads, AllIntact;
    NotCrashed(c, g);
    if c.emits[e].phase == Finished {
      LeadsNowhere(c);
      xs, s' := [], c;
    } else {
      var ys, c1, g1 := MutexFrees(c, g);
      xs, s' := EmitEnds(c1, g1, e);
      LeadsJoin(c, ys, c1, xs, s');
      xs := ys + xs;
    }
  }

  /** Every destructor that is not late comes to its end by its own steps, and gives the mutex back. */
  lemma {:induction false} EveryLeaverCanEnd(s: State, acts: seq<Action>, o: nat) returns (xs: seq<Action>, s': State)
    requires Init(s) && Runs(s, acts) && AllInTime(s, acts)
    requires After(s, acts).mutex == ByLeaver(o) && o < |After(s, acts).obs| && Intact(After(s, acts), o)
    ensures Leads(After(s, acts), xs, s') && s'.mutex == Unlocked && !s'.crashed
    ensures OnlyLeaves(After(s, acts), o, s') && s'.obs[o].link == Gone
  {
    var g := RunKeeps(s, acts);
    hide Runs, After, AllInTime, AllReceived, Inv, Leads, Intact, OnlyLeaves;
    var g';
    xs, s', g' := LeaverEnds(After(s, acts), g, o);
    NotCrashed(s', g');
  }

  /** A connected observer reads all that was emitted for it: from every reachable state with the mutex free it can take
      its next result, asleep or not, whenever there is one. */
  lemma {:induction false} NextResultCanBeTaken(s: State, acts: seq<Action>, o: nat) returns (xs: seq<Action>, s': State)
    requires Init(s) && Runs(s, acts) && AllInTime(s, acts) && o < |After(s, acts).obs|
    requires var ob := After(s, acts).obs[o]; ob.link.Connected? && ob.link.result != Null
    ensures var c := After(s, acts); var ob, r := c.obs[o], c.obs[o].link.result.ref;
      && Leads(c, xs, s') && Alive(c.emits, r) && o < |s'.obs| && !s'.crashed
      && s'.obs[o] == ob.(link := Connected(c.emits[r.e].next[r.k]), consumer := Free, guards := ob.guards + [r],
                          taken := ob.taken + 1)
      && (forall i :: 0 <= i < |xs| ==> xs[i] == Await(o) || xs[i] == Take(o))
  {
    var g := RunKeeps(s, acts);
    hide Runs, After, AllInTime, AllReceived;
    xs, s' := TakeNext(After(s, acts), g, o);
  }

  lemma TakeNext(c: State, g: View, o: nat) returns (xs: seq<Action>, s': State)
    requires Inv(c, g) && o < |c.obs| && c.obs[o].link.Connected? && c.obs[o].link.result != Null
    ensures var ob, r := c.obs[o], c.obs[o].link.result.ref;
      && Leads(c, xs, s') && Alive(c.emits, r) && o < |s'.obs| && !s'.crashed
      && s'.obs[o] == ob.(link := Connected(c.emits[r.e].next[r.k]), consumer := Free, guards := ob.guards + [r],
                          taken := ob.taken + 1)
      && (forall i :: 0 <= i < |xs| ==> xs[i] == Await(o) || xs[i] == Take(o))
  {
    assert ObserverOk(c.emits, g.status, o, c.obs[o], g.queues[o]);
    HeadIsAlive(c, g, o);
    NotCrashed(c, g);
    hide Inv, Leads, ObserverOk;
    var c1: State, ys: seq<Action> := c, [];
    LeadsNowhere(c);
    if c.obs[o].consumer == Free {
      AwaitEffect(c, o);
      LeadsOne(c, Await(o));
      c1, ys := Step(c, Await(o)), [Await(o)];
    }
    LeadsOne(c1, Take(o));
    s' := Step(c1, Take(o));
    LeadsJoin(c, ys, c1, [Take(o)], s');
    xs := ys + [Take(o)];
  }

  // ---------------------------------------------------------------------------------------------
  // Getting out of co_await

  predicate Awaiting(ob: Observer) { ob.consumer == Suspended || ob.consumer == Woken }

  /** An observer that has begun to wait comes back only with a result in its hands, or is destroyed; and it never gets
      through without waiting. */
  lemma ComesBackWithResult(s: State, g: View, a: Action, o: nat)
    requires Inv(s, g) && Enabled(s, a) && InTime(s, a) && o < |s.obs| && (Awaiting(s.obs[o]) || a == Await(o))
    ensures o < |Step(s, a).obs|
    ensures var ob, ob' := s.obs[o], Step(s, a).obs[o];
      || Awaiting(ob')
      || (a == Take(o) && ob'.taken == ob.taken + 1 && g.queues[o] != [] && ob'.guards == ob.guards + [g.queues[o][0]])
      || ob'.link == Gone
  {
    if a.Append? {
      AppendEffect(s, g, a.e);
    } else if a.Take? {
      TakeMoves(s, g, a.o);
    } else {
      OthersWait(s, a, o);
    }
    hide Inv, Step;
  }

  lemma OthersWait(s: State, a: Action, o: nat)
    requires Enabled(s, a) && !a.Append? && !a.Take? && o < |s.obs| && (Awaiting(s.obs[o]) || a == Await(o))
    ensures o < |Step(s, a).obs| && (Awaiting(Step(s, a).obs[o]) || Step(s, a).obs[o].link == Gone)
  {
  }
}
