/** Observers that leave with unread results: from every reachable state in which one may, some continuation reads a
    node of a frame that is gone. */
module ObservableLeavers {
  import opened Lists
  import opened Observable
  import opened ObservableProgress

  /** The destructor of `o` is about to give up node `r`, whose emit waits. */
  ghost predicate Leaver(s: State, g: View, o: nat, r: Ref) {
    Draining(s, g, r.e) && s.mutex == ByLeaver(o) && o < |s.obs| && s.obs[o].link == Leaving(To(r), false)
  }

  /** The node that the destructor gives up is unread, and all nodes of its emit are linked. */
  lemma LeaverNode(s: State, g: View, o: nat, r: Ref)
    requires Leaver(s, g, o, r)
    ensures Is(s.emits, g.status, r, o, Queued) && EmitOk(s.emits[r.e], g.status[r.e]) && Alive(s.emits, r)
    ensures s.emits[r.e].count == Count(g.status[r.e], Unread) >= 1
  {
    assert ObserverOk(s.emits, g.status, o, s.obs[o], g.queues[o]);
    HeadIsAlive(s, g, o);
    assert EmitOk(s.emits[r.e], g.status[r.e]);
    hide ObserversOk, Lock, Levels, AllPlaced, History;
    UnreadIsAlive(s.emits[r.e], g.status[r.e], r.k);
  }

  /** If the latch of that emit is not down to one, somebody else holds one of its nodes. */
  lemma AnotherNode(s: State, g: View, o: nat, r: Ref) returns (k: nat)
    requires Leaver(s, g, o, r) && s.emits[r.e].count > 1
    ensures k < |s.emits[r.e].targets| && r.e < |g.status| && k < |g.status[r.e]| && s.emits[r.e].targets[k] != o
    ensures g.status[r.e][k] == Queued || g.status[r.e][k] == Guarded
  {
    LeaverNode(s, g, o, r);
    hide Leaver;
    var st := g.status[r.e];
    CountUpdate(st, r.k, Consumed, Unread);
    CountPositive(st[r.k := Consumed], Unread);
    k :| 0 <= k < |st| && Unread(st[r.k := Consumed][k]);
  }

  /** Nobody else is being destroyed meanwhile. */
  lemma OnlyLeaver(s: State, g: View, o: nat, r: Ref, o': nat)
    requires Leaver(s, g, o, r) && o' < |s.obs| && o' != o
    ensures !s.obs[o'].link.Leaving?
  {
    hide EmitsOk, ObserversOk, Levels, AllPlaced, History;
  }

  lemma LeaverStays(s: State, g: View, o: nat, r: Ref, s': State, g': View)
    requires Leaver(s, g, o, r) && Draining(s', g', r.e) && Undisturbed(s, s')
    ensures Leaver(s', g', o, r)
  {
    hide Inv;
  }

  /** All others can read and let go of their nodes of the emit. */
  lemma {:induction false} OthersRead(s: State, g: View, o: nat, r: Ref) returns (xs: seq<Action>, s': State, g': View)
    requires Leaver(s, g, o, r)
    ensures Leads(s, xs, s') && Leaver(s', g', o, r) && s'.emits[r.e].count == 1
    decreases if |g.queues| == |s.obs| then Weight(g.queues, s.obs) else 0
  {
    LeaverNode(s, g, o, r);
    if s.emits[r.e].count == 1 {
      LeadsNowhere(s);
      xs, s', g' := [], s, g;
    } else {
      var k := AnotherNode(s, g, o, r);
      NodePlace(s, g, r.e, k);
      OnlyLeaver(s, g, o, r, s.emits[r.e].targets[k]);
      hide Leads, Draining;
      var ys, s1, g1 := OneReads(s, g, r.e, k);
      LeaverStays(s, g, o, r, s1, g1);
      hide Leaver;
      xs, s', g' := OthersRead(s1, g1, o, r);
      LeadsJoin(s, ys, s1, xs, s');
      xs := ys + xs;
    }
  }

  lemma LeavingEmit(s: State, g: View, o: nat, r: Ref)
    requires Inv(s, g) && s.mutex == ByLeaver(o) && o < |s.obs| && s.obs[o].link == Leaving(To(r), false)
    ensures r.e < |s.emits| && (s.emits[r.e].phase == Arriving || s.emits[r.e].phase == Waiting)
  {
    assert ObserverOk(s.emits, g.status, o, s.obs[o], g.queues[o]);
    HeadIsAlive(s, g, o);
    hide ObserversOk, Levels, AllPlaced, History, EmitsOk;
  }

  /** The destructor of `o` begins; and the emit of the first result it gives up gets as far as its latch. */
  lemma Leave(c: State, g: View, o: nat) returns (xs: seq<Action>, c': State, r: Ref)
    requires Inv(c, g) && Enabled(c, BeginLeave(o)) && c.obs[o].link.result != Null
    ensures Leads(c, [BeginLeave(o)] + xs, c') && Leaver(c', g, o, r)
  {
    BeginLeaveKeeps(c, g, o);
    LeadsOne(c, BeginLeave(o));
    var c1 := Step(c, BeginLeave(o));
    r := c.obs[o].link.result.ref;
    LeavingEmit(c1, g, o, r);
    xs, c' := [], c1;
    assert [BeginLeave(o)] + [] == [BeginLeave(o)];
    if c1.emits[r.e].phase == Arriving {
      ArriveKeeps(c1, g, r.e);
      LeadsOne(c1, Arrive(r.e));
      xs, c' := [Arrive(r.e)], Step(c1, Arrive(r.e));
      hide Leads, Inv;
      LeadsJoin(c, [BeginLeave(o)], c1, xs, c');
    }
    hide Inv;
  }

  lemma LastStep(c: State, g: View, o: nat, r: Ref)
    requires Leaver(c, g, o, r) && c.emits[r.e].count == 1
    ensures Enabled(c, LeaveCount(o)) && Enabled(Step(c, LeaveCount(o)), Finish(r.e))
    ensures var c' := Step(Step(c, LeaveCount(o)), Finish(r.e));
      Enabled(c', LeaveNext(o)) && !InTime(c', LeaveNext(o))
  {
    LeaverNode(c, g, o, r);
    hide Inv;
    LastReaderMayBeLate(c, o);
  }

  /** The emit resumes between the count-down and the reading of the link. */
  lemma LastSteps(c: State, g: View, o: nat, r: Ref) returns (xs: seq<Action>, c': State)
    requires Leaver(c, g, o, r) && c.emits[r.e].count == 1
    ensures Leads(c, xs, c') && Enabled(c', LeaveNext(o)) && !InTime(c', LeaveNext(o))
  {
    LastStep(c, g, o, r);
    hide Leaver, Enabled, Step, InTime, Leads;
    var c1 := Step(c, LeaveCount(o));
    c' := Step(c1, Finish(r.e));
    LeadsOne(c, LeaveCount(o));
    LeadsOne(c1, Finish(r.e));
    LeadsJoin(c, [LeaveCount(o)], c1, [Finish(r.e)], c');
    xs := [LeaveCount(o)] + [Finish(r.e)];
  }

  lemma LeaveLate(c: State, g: View, o: nat) returns (xs: seq<Action>, c': State)
    requires Inv(c, g) && Enabled(c, BeginLeave(o)) && c.obs[o].link.result != Null
    ensures Leads(c, [BeginLeave(o)] + xs, c') && Enabled(c', LeaveNext(o)) && !InTime(c', LeaveNext(o))
  {
    hide Inv, Leads, Leaver, Enabled, Step, InTime;
    var ys, c1, r := Leave(c, g, o);
    var zs, c2, g2 := OthersRead(c1, g, o, r);
    LeadsJoin(c, [BeginLeave(o)] + ys, c1, zs, c2);
    var ws;
    ws, c' := LastSteps(c2, g2, o, r);
    LeadsJoin(c, [BeginLeave(o)] + ys + zs, c2, ws, c');
    xs := ys + zs + ws;
    assert [BeginLeave(o)] + ys + zs + ws == [BeginLeave(o)] + xs;
  }

  /** From every reachable state in which an observer may leave with unread results, there is a way to go on in which
      its destructor reads a node of a frame that is gone: it begins, everybody else reads the first of those results,
      and the emit resumes between the count-down and the reading of the link. */
  lemma {:induction false} UnreadLeaverMayCrash(s: State, acts: seq<Action>, o: nat) returns (acts': seq<Action>)
    requires Init(s) && Runs(s, acts) && AllInTime(s, acts)
    requires Enabled(After(s, acts), BeginLeave(o)) && After(s, acts).obs[o].link.result != Null
    ensures acts + [BeginLeave(o)] <= acts' && Runs(s, acts') && Enabled(After(s, acts'), LeaveNext(o))
    ensures !InTime(After(s, acts'), LeaveNext(o)) && Step(After(s, acts'), LeaveNext(o)).crashed
  {
    var g := RunKeeps(s, acts);
    var c := After(s, acts);
    var xs, c' := LeaveFrom(c, g, o);
    hide Inv, Enabled, AllInTime, Step, InTime;
    LeadsFrom(s, acts, BeginLeave(o), xs, c');
    acts' := acts + [BeginLeave(o)] + xs;
  }

  lemma LeaveFrom(c: State, g: View, o: nat) returns (xs: seq<Action>, c': State)
    requires Inv(c, g) && Enabled(c, BeginLeave(o)) && c.obs[o].link.result != Null
    ensures Leads(c, [BeginLeave(o)] + xs, c') && Enabled(c', LeaveNext(o)) && !InTime(c', LeaveNext(o))
    ensures Step(c', LeaveNext(o)).crashed
  {
    hide Inv, Leads;
    xs, c' := LeaveLate(c, g, o);
    LateCrashes(c', o);
  }

  lemma LeadsFrom(s: State, acts: seq<Action>, a: Action, xs: seq<Action>, c': State)
    requires Runs(s, acts) && Leads(After(s, acts), [a] + xs, c')
    ensures Runs(s, acts + [a] + xs) && After(s, acts + [a] + xs) == c'
  {
    LeadsJoin(s, acts, After(s, acts), [a] + xs, c');
    assert acts + ([a] + xs) == acts + [a] + xs;
  }

  lemma LateCrashes(c: State, o: nat)
    requires Enabled(c, LeaveNext(o)) && !InTime(c, LeaveNext(o))
    ensures Step(c, LeaveNext(o)).crashed
  {
  }

  // ---------------------------------------------------------------------------------------------
  // Leaving with nothing unread

  /** An observer that had nothing unread when its destructor began. */
  predicate LeftEmpty(s: State, o: nat) {
    o < |s.obs| && (s.obs[o].link == Leaving(Null, false) || s.obs[o].link == Gone)
  }

  lemma LeftEmptyStep(s: State, a: Action, o: nat)
    requires Enabled(s, a) && LeftEmpty(s, o)
    ensures LeftEmpty(Step(s, a), o)
  {
    hide Tail;
  }

  lemma {:induction false} LeftEmptyRun(s: State, acts: seq<Action>, acts': seq<Action>, o: nat)
    requires Runs(s, acts') && acts + [BeginLeave(o)] <= acts' && Runs(s, acts) && Enabled(After(s, acts), BeginLeave(o))
    requires After(s, acts).obs[o].link.result == Null
    ensures LeftEmpty(After(s, acts'), o)
    decreases |acts'|
  {
    var n := |acts'| - 1;
    if |acts'| == |acts| + 1 {
      assert acts' == acts + [BeginLeave(o)] && acts'[..n] == acts;
      hide Runs;
    } else {
      hide Step, Enabled, LeftEmpty;
      LeftEmptyRun(s, acts, acts'[..n], o);
      LeftEmptyStep(After(s, acts'[..n]), acts'[n], o);
    }
  }

  /** There is a way to go on from here in which observer `o` is destroyed now and reads a link too late. */
  ghost predicate MayBeLate(s: State, acts: seq<Action>, o: nat) {
    exists acts' :: acts + [BeginLeave(o)] <= acts' && Runs(s, acts')
                    && Enabled(After(s, acts'), LeaveNext(o)) && !InTime(After(s, acts'), LeaveNext(o))
  }

  /** What a caller can look at: destroying an observer can end in a bad read exactly if it has unread results. */
  lemma {:induction false} MayBeLateIffUnread(s: State, acts: seq<Action>, o: nat)
    requires Init(s) && Runs(s, acts) && AllInTime(s, acts) && Enabled(After(s, acts), BeginLeave(o))
    ensures MayBeLate(s, acts, o) <==> After(s, acts).obs[o].link.result != Null
  {
    if After(s, acts).obs[o].link.result != Null {
      var acts' := UnreadLeaverMayCrash(s, acts, o);
    } else if MayBeLate(s, acts, o) {
      var acts' :| acts + [BeginLeave(o)] <= acts' && Runs(s, acts')
                   && Enabled(After(s, acts'), LeaveNext(o)) && !InTime(After(s, acts'), LeaveNext(o));
      LeftEmptyRun(s, acts, acts', o);
      hide Runs, After, MayBeLate, AllInTime;
    }
  }
}
