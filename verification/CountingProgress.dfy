/** What the operations of the counting semaphore achieve: co_await takes a permit or goes to sleep, try_aquire() answers
    truly, every released unit is processed and goes to a waiter if there is one, and everybody who waits gets on. */
module CountingProgress {
  import opened Lists
  import opened CountingSemaphore

  /** The steps `xs` lead from `c` to `c'`. */
  ghost predicate Leads(c: State, xs: seq<Action>, c': State) { Runs(c, xs) && After(c, xs) == c' }

  lemma {:induction false} LeadsJoin(c: State, xs: seq<Action>, c1: State, ys: seq<Action>, c2: State)
    requires Leads(c, xs, c1) && Leads(c1, ys, c2)
    ensures Leads(c, xs + ys, c2)
    decreases |ys|
  {
    hide Step, Enabled;
    if ys == [] {
      assert xs + ys == xs;
    } else {
      var n := |ys| - 1;
      LeadsJoin(c, xs, c1, ys[..n], After(c1, ys[..n]));
      assert (xs + ys)[..|xs + ys| - 1] == xs + ys[..n];
    }
  }

  lemma LeadsNowhere(c: State)
    ensures Leads(c, [], c)
  {
  }

  lemma LeadsOne(c: State, a: Action)
    requires Enabled(c, a)
    ensures Leads(c, [a], Step(c, a))
  {
    assert [a][..0] == [];
    LeadsNowhere(c);
  }

  // ---------------------------------------------------------------------------------------------
  // Acquiring

  /** A step of coroutine `t` on its way through co_await or try_aquire(). */
  predicate Own(a: Action, t: nat) {
    a == Await(t) || a == TryStart(t) || a == LoadActive(t) || a == CasActive(t, false) || a == FetchSub(t)
    || a == LoadStack(t) || a == CasStack(t, false)
  }

  ghost predicate LeadsBy(c: State, xs: seq<Action>, c': State, t: nat) {
    Leads(c, xs, c') && forall i :: 0 <= i < |xs| ==> Own(xs[i], t)
  }

  lemma ByOne(c: State, a: Action, t: nat)
    requires Enabled(c, a) && Own(a, t)
    ensures LeadsBy(c, [a], Step(c, a), t)
  {
    LeadsOne(c, a);
  }

  lemma ByJoin(c: State, xs: seq<Action>, c1: State, ys: seq<Action>, c2: State, t: nat)
    requires LeadsBy(c, xs, c1, t) && LeadsBy(c1, ys, c2, t)
    ensures LeadsBy(c, xs + ys, c2, t)
  {
    LeadsJoin(c, xs, c1, ys, c2);
  }

  predicate Unpushed(p: Pc) { p == PushLoad || p.PushCas? }

  predicate Pushing(a: Action) { a.LoadStack? || a.CasStack? }

  ghost predicate OnlyPushing(xs: seq<Action>) { forall i :: 0 <= i < |xs| ==> Pushing(xs[i]) }

  /** A waiter who has counted himself down gets onto the stack by his own steps. */
  lemma {:induction false} PushEnds(c: State, t: nat) returns (xs: seq<Action>, c': State)
    requires t < |c.pc| == |c.next| && Unpushed(c.pc[t])
    ensures LeadsBy(c, xs, c', t) && OnlyPushing(xs)
    ensures c' == c.(stack := Node(t), next := c.next[t := c.stack], pc := c.pc[t := Parked])
    decreases if c.pc[t] == PushLoad then 2 else if c.pc[t].previous != c.stack then 1 else 0
  {
    var a := if c.pc[t] == PushLoad then LoadStack(t) else CasStack(t, false);
    ByOne(c, a, t);
    var c1 := Step(c, a);
    xs, c' := [a], c1;
    hide LeadsBy;
    if c1.pc[t] != Parked {
      xs, c' := PushEnds(c1, t);
      ByJoin(c, [a], c1, xs, c', t);
      xs := [a] + xs;
      assert c1.pc[t := Parked] == c.pc[t := Parked] && c1.next[t := c.stack] == c.next[t := c.stack];
    }
  }

  /** Looking for a permit. */
  predicate Looks(p: Pc) { p == AcquireLoad || p.AcquireCas? }

  lemma AnnounceEnds(c: State, t: nat) returns (xs: seq<Action>, c': State)
    requires t < |c.pc| == |c.next| && c.pc[t] == Announce
    ensures LeadsBy(c, xs, c', t)
    ensures c' == c.(active := c.active - 1, stack := Node(t), next := c.next[t := c.stack], pc := c.pc[t := Parked])
  {
    ByOne(c, FetchSub(t), t);
    var c1 := Step(c, FetchSub(t));
    hide LeadsBy;
    xs, c' := PushEnds(c1, t);
    ByJoin(c, [FetchSub(t)], c1, xs, c', t);
    xs := [FetchSub(t)] + xs;
    assert c1.pc[t := Parked] == c.pc[t := Parked];
  }

  /** co_await takes a permit if it finds one, by its own steps, and returns; otherwise it counts itself down and goes to
      sleep. */
  lemma {:induction false} AcquireEnds(c: State, t: nat) returns (xs: seq<Action>, c': State)
    requires t < |c.pc| == |c.next| && Looks(c.pc[t]) && (c.pc[t].AcquireCas? ==> c.pc[t].result > 0)
    ensures LeadsBy(c, xs, c', t)
    ensures c.active > 0 ==> c' == c.(active := c.active - 1, pc := c.pc[t := Idle])
    ensures c.active <= 0 ==>
      c' == c.(active := c.active - 1, stack := Node(t), next := c.next[t := c.stack], pc := c.pc[t := Parked])
    decreases if c.pc[t] == AcquireLoad then 2 else if c.pc[t].result != c.active then 1 else 0
  {
    var a := if c.pc[t] == AcquireLoad then LoadActive(t) else CasActive(t, false);
    ByOne(c, a, t);
    var c1 := Step(c, a);
    xs, c' := [a], c1;
    hide LeadsBy;
    if c1.pc[t] != Idle {
      if c1.pc[t] == Announce { xs, c' := AnnounceEnds(c1, t); } else { xs, c' := AcquireEnds(c1, t); }
      ByJoin(c, [a], c1, xs, c', t);
      xs := [a] + xs;
      assert c1.pc[t := Parked] == c.pc[t := Parked] && c1.pc[t := Idle] == c.pc[t := Idle];
    }
  }

  /** try_aquire() answers truly, by its own steps: it takes a permit and says so exactly if there is one. */
  lemma {:induction false} TryEnds(c: State, t: nat) returns (xs: seq<Action>, c': State)
    requires t < |c.pc| == |c.next| && (c.pc[t] == Idle || c.pc[t] == TryLoad || c.pc[t].TryCas?)
    requires c.pc[t].TryCas? ==> c.pc[t].result > 0
    ensures LeadsBy(c, xs, c', t) && (c.pc[t] == Idle ==> xs != [] && xs[0] == TryStart(t))
    ensures c' == c.(active := if c.active > 0 then c.active - 1 else c.active, pc := c.pc[t := Answered(c.active > 0)])
    decreases if c.pc[t] == Idle then 3 else if c.pc[t] == TryLoad then 2 else if c.pc[t].result != c.active then 1 else 0
  {
    var a := if c.pc[t] == Idle then TryStart(t) else if c.pc[t] == TryLoad then LoadActive(t) else CasActive(t, false);
    ByOne(c, a, t);
    var c1 := Step(c, a);
    xs, c' := [a], c1;
    hide LeadsBy;
    if !c1.pc[t].Answered? {
      xs, c' := TryEnds(c1, t);
      ByJoin(c, [a], c1, xs, c', t);
      xs := [a] + xs;
      assert c1.pc[t := Answered(c.active > 0)] == c.pc[t := Answered(c.active > 0)];
    }
  }

  // ---------------------------------------------------------------------------------------------
  // One unit

  ghost predicate AllPushed(c: State) { forall t :: 0 <= t < |c.pc| ==> !Unpushed(c.pc[t]) }

  function Rank(x: Ctl): nat {
    match x
    case Finished => 0
    case Retire => 0
    case Wake(_) => 1
    case Pop(retry, _) => if retry then 2 else 8
    case Reverse(retry, _, _) => if retry then 3 else 9
    case Detach(retry) => if retry then 4 else 10
    case Fetch(retry) => if retry then 5 else 11
    case AddIdle => 6
    case AddFor(_) => 7
  }

  /** The unit that the controller works on will go to a waiter. */
  predicate Serves(c: State, g: View) {
    match Current(c)
    case Finished => false
    case Retire => false
    case AddIdle => c.active < 0
    case _ => g.lo < |g.log|
  }

  function Latest(c: State): nat { if c.ctls == [] then 0 else |c.ctls| - 1 }

  /** Nobody waits exactly if the queue is empty. */
  lemma QueueIsWaiters(c: State, g: View)
    requires Shape(c, g) && AllPushed(c)
    ensures g.lo <= |g.log| && (Waiters(c) > 0 <==> g.lo < |g.log|)
  {
    hide Linked;
    CountPositive(c.pc, Announced);
    if g.lo < |g.log| {
      assert c.pc[g.log[g.lo]] == Parked && Announced(c.pc[g.log[g.lo]]);
    }
    if t :| 0 <= t < |c.pc| && Announced(c.pc[t]) {
      assert c.pc[t] == Parked;
      assert Queued(g.log, g.lo, t);
    }
  }

  /** At the exchange the stack is all that waits. */
  lemma DetachStack(c: State, g: View)
    requires Shape(c, g) && (Current(c).Detach? || Current(c) == AddIdle)
    ensures g.lo <= |g.log| && (c.stack == Zero <==> g.lo == |g.log|)
  {
    hide Sleepers;
  }

  /** What the latest activation is about to do. */
  lemma LatestIs(c: State, g: View)
    requires Shape(c, g) && Current(c) != Finished
    ensures c.ctls != [] && Latest(c) == |c.ctls| - 1 && c.ctls[Latest(c)] == Current(c)
    ensures Enabled(c, Control(Latest(c))) && c.releases > 0
  {
    hide Sleepers, Linked;
  }

  /** A controller that has promised a permit has somebody to give it to. */
  lemma OwedWaits(c: State, g: View, l: Ledger)
    requires Inv(c, g, l) && AllPushed(c) && Owed(Current(c)) == 1
    ensures g.lo < |g.log|
  {
    hide Shape, SawPositive;
    QueueIsWaiters(c, g);
  }

  /** And it promises one only if somebody waits. */
  lemma IdleWaits(c: State, g: View, l: Ledger)
    requires Inv(c, g, l) && AllPushed(c) && g.lo >= |g.log|
    ensures c.active >= 0
  {
    hide Shape, SawPositive;
    QueueIsWaiters(c, g);
  }

  /** One step of the latest activation, before the unit is done with. */
  lemma TurnEffect(c: State, k: nat)
    requires k < |c.ctls| && k == Latest(c) && Enabled(c, Control(k)) && !Step(c, Control(k)).crashed
    requires c.ctls[k] != Retire && !(c.ctls[k] == Detach(true) && c.stack == Zero)
    ensures var c1, x := Step(c, Control(k)), c.ctls[k];
      && |c1.ctls| == |c.ctls| && c1.ctls == c.ctls[k := c1.ctls[k]]
      && c1.releases == c.releases && c1.active - Added(c1.ctls[k]) == c.active - Added(x)
      && c1.ctls[k] != Finished
      && (Rank(c1.ctls[k]) < Rank(x) || (x.Reverse? && c1.ctls[k].Reverse? && Rank(c1.ctls[k]) == Rank(x)))
      && (x == Detach(false) && c.stack == Zero ==> c1.ctls[k] == AddIdle && c1.active == c.active)
      && (c1.ctls[k] == AddIdle ==> x == Detach(false) && c.stack == Zero)
      && (x == AddIdle ==> c1.ctls[k] == if c.active < 0 then Fetch(true) else Retire)
      && (c1.ctls[k] == Retire ==> x == AddIdle || x.Wake?)
  {
    hide Live;
    assert Step(c, Control(k)).ctls == c.ctls[k := Step(c, Control(k)).ctls[k]];
  }

  /** A step of the controller before the unit is done with. */
  lemma Turn(c: State, g: View, l: Ledger) returns (c1: State, g1: View, l1: Ledger)
    requires Inv(c, g, l) && AllPushed(c) && Current(c) != Finished && Current(c) != Retire && !Current(c).Wake?
    ensures Leads(c, [Control(Latest(c))], c1) && Inv(c1, g1, l1) && Current(c1) != Finished && Latest(c1) == Latest(c)
    ensures c1.pc == c.pc && g1.log == g.log && g1.lo == g.lo && c1.releases == c.releases
    ensures c1.active - Added(Current(c1)) == c.active - Added(Current(c)) && Serves(c1, g1) == Serves(c, g)
    ensures Rank(Current(c1)) < Rank(Current(c)) || (Rank(Current(c1)) == Rank(Current(c)) && g1.mid < g.mid)
  {
    hide Inv, Leads, AllPushed, Step, Book, Enabled, Serves, Shape;
    InvParts(c, g, l);
    LatestIs(c, g);
    WaitFacts(c, g, l);
    var k := Latest(c);
    LeadsOne(c, Control(k));
    ControlPc(c, g, k);
    c1, l1 := Step(c, Control(k)), Book(c, Control(k), l);
    g1 := StepKeeps(c, g, l, Control(k));
    InvParts(c1, g1, l1);
    TurnEffect(c, k);
    ServesStays(c, g, k, c1, g1);
  }

  lemma InvParts(c: State, g: View, l: Ledger)
    requires Inv(c, g, l)
    ensures Shape(c, g) && !c.crashed && g.lo <= |g.log|
  {
  }

  /** What the control point tells about the queue. */
  lemma WaitFacts(c: State, g: View, l: Ledger)
    requires Inv(c, g, l) && AllPushed(c)
    ensures g.lo <= |g.log| && (g.lo == |g.log| ==> c.active >= 0 && Owed(Current(c)) == 0)
    ensures Current(c).Detach? || Current(c) == AddIdle ==> (c.stack == Zero <==> g.lo == |g.log|)
  {
    InvParts(c, g, l);
    hide Shape, Balanced, SawPositive, AllPushed;
    if Current(c).Detach? || Current(c) == AddIdle { DetachStack(c, g); }
    if Owed(Current(c)) == 1 { OwedWaits(c, g, l); }
    if g.lo == |g.log| { IdleWaits(c, g, l); }
  }

  lemma ServesStays(c: State, g: View, k: nat, c1: State, g1: View)
    requires g.lo <= |g.log| && k < |c.ctls| == |c1.ctls| && k == Latest(c) == Latest(c1)
    requires g1.log == g.log && g1.lo == g.lo
    requires g.lo == |g.log| ==> c.active >= 0 && Owed(Current(c)) == 0
    requires Current(c).Detach? ==> (c.stack == Zero <==> g.lo == |g.log|)
    requires var x, x1 := Current(c), Current(c1);
      && x != Finished && x != Retire && !x.Wake? && x1 != Finished
      && (x == Detach(false) && c.stack == Zero ==> x1 == AddIdle && c1.active == c.active)
      && (x1 == AddIdle ==> x == Detach(false) && c.stack == Zero)
      && (x == AddIdle ==> x1 == if c.active < 0 then Fetch(true) else Retire)
      && (x1 == Retire ==> x == AddIdle)
    ensures Serves(c1, g1) == Serves(c, g)
  {
  }

  ghost predicate OnlyControl(xs: seq<Action>) { forall i :: 0 <= i < |xs| ==> xs[i].Control? }

  /** The unit is done with: it has gone to the waiter that has slept longest, or has become available. */
  ghost predicate UnitDone(c: State, g: View, c': State, g': View) {
    && c'.releases == c.releases - 1 && Current(c') == (if c.releases == 1 then Finished else Fetch(false))
    && c'.active == c.active + 1 - Added(Current(c)) && g'.log == g.log
    && if Serves(c, g) then
         && g.lo < |g.log| && g.log[g.lo] < |c.pc| && c.pc[g.log[g.lo]] == Parked
         && c'.pc == c.pc[g.log[g.lo] := Granted] && g'.lo == g.lo + 1
       else c'.pc == c.pc && g'.lo == g.lo
  }

  lemma UnitLater(c: State, g: View, c1: State, g1: View, c2: State, g2: View)
    requires UnitDone(c1, g1, c2, g2) && c1.pc == c.pc && g1.log == g.log && g1.lo == g.lo
    requires c1.releases == c.releases && c1.active - Added(Current(c1)) == c.active - Added(Current(c))
    requires Serves(c1, g1) == Serves(c, g)
    ensures UnitDone(c, g, c2, g2)
  {
    hide Serves, Added, Current;
  }

  /** The controller retires. */
  lemma RetireTurn(c: State, g: View, l: Ledger) returns (c1: State, g1: View, l1: Ledger)
    requires Inv(c, g, l) && Current(c) == Retire
    ensures Leads(c, [Control(Latest(c))], c1) && Inv(c1, g1, l1) && UnitDone(c, g, c1, g1)
  {
    hide Leads, Shape;
    InvParts(c, g, l);
    LatestIs(c, g);
    var k := Latest(c);
    LeadsOne(c, Control(k));
    c1, l1 := Step(c, Control(k)), Book(c, Control(k), l);
    assert c1 == c.(releases := c.releases - 1, ctls := c.ctls[k := if c.releases == 1 then Finished else Fetch(false)]);
    hide Step, Book, Inv;
    g1 := StepKeeps(c, g, l, Control(k));
  }

  /** The controller resumes the waiter it has found. */
  lemma WakeTurn(c: State, g: View, l: Ledger) returns (c1: State, g1: View, l1: Ledger)
    requires Inv(c, g, l) && Current(c).Wake?
    ensures Leads(c, [Control(Latest(c))], c1) && Inv(c1, g1, l1) && Current(c1) == Retire
    ensures g.lo < |g.log| && g.log[g.lo] < |c.pc| && c.pc[g.log[g.lo]] == Parked
    ensures c1.pc == c.pc[g.log[g.lo] := Granted] && g1.log == g.log && g1.lo == g.lo + 1
    ensures c1.releases == c.releases && c1.active == c.active
  {
    hide Leads, Shape;
    InvParts(c, g, l);
    LatestIs(c, g);
    var k := Latest(c);
    LeadsOne(c, Control(k));
    var g2 := ShapeWake(c, g, k);
    c1, l1 := Step(c, Control(k)), Book(c, Control(k), l);
    WakesFront(c, g, k);
    assert c1 == c.(pc := c.pc[g.log[g.lo] := Granted], ctls := c.ctls[k := Retire]);
    hide Step, Book, Inv;
    g1 := StepKeeps(c, g, l, Control(k));
  }

  lemma WakeServes(c: State, g: View, c1: State, g1: View, c2: State, g2: View)
    requires Current(c).Wake? && Current(c1) == Retire && UnitDone(c1, g1, c2, g2)
    requires g.lo < |g.log| && g.log[g.lo] < |c.pc| && c.pc[g.log[g.lo]] == Parked
    requires c1.pc == c.pc[g.log[g.lo] := Granted] && g1.log == g.log && g1.lo == g.lo + 1
    requires c1.releases == c.releases && c1.active == c.active
    ensures UnitDone(c, g, c2, g2)
  {
  }

  /** The controller gets done with the unit it works on by its own steps. */
  lemma {:induction false} UnitEnds(c: State, g: View, l: Ledger)
    returns (xs: seq<Action>, c': State, g': View, l': Ledger)
    requires Inv(c, g, l) && AllPushed(c) && Current(c) != Finished
    ensures Leads(c, xs, c') && OnlyControl(xs) && Inv(c', g', l') && UnitDone(c, g, c', g')
    decreases Rank(Current(c)), g.mid
  {
    hide Inv, Leads, UnitDone, Serves, AllPushed;
    var a := Control(Latest(c));
    if Current(c) == Retire {
      xs := [a];
      c', g', l' := RetireTurn(c, g, l);
    } else {
      var c1, g1, l1;
      if Current(c).Wake? {
        c1, g1, l1 := WakeTurn(c, g, l);
        c', g', l' := RetireTurn(c1, g1, l1);
        xs := [Control(Latest(c1))];
        WakeServes(c, g, c1, g1, c', g');
      } else {
        c1, g1, l1 := Turn(c, g, l);
        StillPushed(c, c1);
        xs, c', g', l' := UnitEnds(c1, g1, l1);
        UnitLater(c, g, c1, g1, c', g');
      }
      LeadsJoin(c, [a], c1, xs, c');
      xs := [a] + xs;
    }
  }

  lemma StillPushed(c: State, c1: State)
    requires AllPushed(c) && c1.pc == c.pc
    ensures AllPushed(c1)
  {
  }

  // ---------------------------------------------------------------------------------------------
  // All units

  /** Those who slept sleep on or have been woken, and nobody else has moved. */
  ghost predicate OnlyWakes(c: State, c': State) {
    |c'.pc| == |c.pc| && forall t :: 0 <= t < |c.pc| ==> c'.pc[t] == c.pc[t] || (c.pc[t] == Parked && c'.pc[t] == Granted)
  }

  function Queue(g: View): nat { if g.lo <= |g.log| then |g.log| - g.lo else 0 }

  /** All released units have been processed; each but the one in work went to a waiter, as long as there was one. */
  ghost predicate AllDone(c: State, g: View, c': State, g': View) {
    && c'.releases == 0 && Current(c') == Finished && OnlyWakes(c, c')
    && c'.active == c.active + c.releases - Added(Current(c))
    && (Queue(g') == 0 || Queue(g') + c.releases - (if Current(c) == Fetch(false) then 0 else 1) <= Queue(g))
  }

  lemma UnitAndRest(c: State, g: View, c1: State, g1: View, c2: State, g2: View)
    requires UnitDone(c, g, c1, g1) && c.releases > 1 && AllDone(c1, g1, c2, g2) && g.lo <= |g.log|
    ensures AllDone(c, g, c2, g2)
  {
  }

  lemma UnitAlone(c: State, g: View, c1: State, g1: View)
    requires UnitDone(c, g, c1, g1) && c.releases == 1 && g.lo <= |g.log|
    ensures AllDone(c, g, c1, g1)
  {
  }

  lemma UnitPushed(c: State, g: View, c1: State, g1: View)
    requires AllPushed(c) && UnitDone(c, g, c1, g1)
    ensures AllPushed(c1) && c1.releases == c.releases - 1
    ensures Current(c1) == if c.releases == 1 then Finished else Fetch(false)
  {
  }

  /** A controller ends by its own steps when everybody who waits is on the stack. */
  lemma {:induction false} ControlEnds(c: State, g: View, l: Ledger)
    returns (xs: seq<Action>, c': State, g': View, l': Ledger)
    requires Inv(c, g, l) && AllPushed(c) && Current(c) != Finished
    ensures Leads(c, xs, c') && OnlyControl(xs) && Inv(c', g', l') && AllDone(c, g, c', g')
    decreases c.releases
  {
    hide Leads, UnitDone, AllDone, AllPushed, Shape, Balanced, SawPositive;
    InvParts(c, g, l);
    LatestIs(c, g);
    hide Inv;
    xs, c', g', l' := UnitEnds(c, g, l);
    UnitPushed(c, g, c', g');
    if c.releases == 1 {
      UnitAlone(c, g, c', g');
    } else {
      var ys, c1, g1 := xs, c', g';
      xs, c', g', l' := ControlEnds(c1, g1, l');
      LeadsJoin(c, ys, c1, xs, c');
      UnitAndRest(c, g, c1, g1, c', g');
      xs := ys + xs;
    }
  }

  // ---------------------------------------------------------------------------------------------
  // Everybody who has announced himself gets onto the stack

  lemma {:induction false} KeepsAlong(c: State, g: View, l: Ledger, xs: seq<Action>) returns (g': View, l': Ledger)
    requires Inv(c, g, l) && Runs(c, xs)
    ensures Inv(After(c, xs), g', l')
    decreases |xs|
  {
    hide Inv, Enabled, Step, Book, Pushes, Wakes;
    g', l' := g, l;
    if xs != [] {
      var n := |xs| - 1;
      var g1, l1 := KeepsAlong(c, g, l, xs[..n]);
      g' := StepKeeps(After(c, xs[..n]), g1, l1, xs[n]);
      l' := Book(After(c, xs[..n]), xs[n], l1);
    }
  }

  lemma LeadsKeeps(c: State, g: View, l: Ledger, xs: seq<Action>, c': State) returns (g': View, l': Ledger)
    requires Inv(c, g, l) && Leads(c, xs, c')
    ensures Inv(c', g', l')
  {
    hide Inv;
    g', l' := KeepsAlong(c, g, l, xs);
  }

  /** Those on their way onto the stack have got there, and nothing else has changed. */
  ghost predicate OnlyParks(c: State, c': State) {
    && |c'.pc| == |c.pc| && c'.active == c.active && c'.releases == c.releases && c'.ctls == c.ctls
    && forall t :: 0 <= t < |c.pc| ==> c'.pc[t] == c.pc[t] || (Unpushed(c.pc[t]) && c'.pc[t] == Parked)
  }

  lemma OneParks(c: State, t: nat) returns (xs: seq<Action>, c': State)
    requires t < |c.pc| == |c.next| && Unpushed(c.pc[t])
    ensures Leads(c, xs, c') && OnlyPushing(xs) && OnlyParks(c, c')
    ensures Count(c'.pc, Unpushed) < Count(c.pc, Unpushed)
  {
    xs, c' := PushEnds(c, t);
    CountUpdate(c.pc, t, Parked, Unpushed);
    hide Leads, OnlyPushing, Count;
  }

  lemma ParksMore(c: State, c1: State, c2: State)
    requires OnlyParks(c, c1) && OnlyParks(c1, c2)
    ensures OnlyParks(c, c2)
  {
    forall t | 0 <= t < |c.pc| ensures c2.pc[t] == c.pc[t] || (Unpushed(c.pc[t]) && c2.pc[t] == Parked) {
      assert c1.pc[t] == c.pc[t] || c1.pc[t] == Parked;
    }
  }

  lemma {:induction false} AllPush(c: State, g: View, l: Ledger)
    returns (xs: seq<Action>, c': State, g': View, l': Ledger)
    requires Inv(c, g, l)
    ensures Leads(c, xs, c') && OnlyPushing(xs) && Inv(c', g', l') && AllPushed(c') && OnlyParks(c, c')
    decreases Count(c.pc, Unpushed)
  {
    SizesOf(c, g, l);
    hide Inv, Leads, Count, Unpushed, OnlyPushing, OnlyParks;
    if AllPushed(c) {
      xs, c', g', l' := [], c, g, l;
      LeadsNowhere(c);
      ParksNone(c);
    } else {
      var t :| 0 <= t < |c.pc| && Unpushed(c.pc[t]);
      var ys, c1 := OneParks(c, t);
      var g1, l1 := LeadsKeeps(c, g, l, ys, c1);
      xs, c', g', l' := AllPush(c1, g1, l1);
      LeadsJoin(c, ys, c1, xs, c');
      ParksMore(c, c1, c');
      PushingJoin(ys, xs);
      xs := ys + xs;
    }
  }

  lemma ParksNone(c: State)
    ensures OnlyParks(c, c) && OnlyPushing([])
  {
  }

  lemma PushingJoin(xs: seq<Action>, ys: seq<Action>)
    requires OnlyPushing(xs) && OnlyPushing(ys)
    ensures OnlyPushing(xs + ys)
  {
  }

  lemma SizesOf(c: State, g: View, l: Ledger)
    requires Inv(c, g, l)
    ensures |c.pc| == |c.next|
  {
  }

  // ---------------------------------------------------------------------------------------------
  // What that means for the semaphore

  /** A unit that the controller takes up goes to the coroutine that has slept longest, if anybody sleeps, by the
      controller's own steps; otherwise it becomes available. */
  lemma {:induction false} UnitGoesToWaiter(s: State, acts: seq<Action>) returns (xs: seq<Action>, c': State)
    requires Init(s) && Runs(s, acts) && AllPushed(After(s, acts)) && Current(After(s, acts)) == Fetch(false)
    ensures Leads(After(s, acts), xs, c') && OnlyControl(xs) && |AllWakes(s, acts)| <= |AllPushes(s, acts)|
    ensures var c, pushes, wakes := After(s, acts), AllPushes(s, acts), AllWakes(s, acts);
      && c'.releases == c.releases - 1 && c'.active == c.active + 1
      && if |wakes| == |pushes| then c'.pc == c.pc
         else
           var n := pushes[|wakes|];
           n < |c.pc| && c.pc[n] == Parked && c'.pc == c.pc[n := Granted]
  {
    var g := RunKeeps(s, acts);
    hide Runs, After, AllPushes, AllWakes, Books, Inv, AllPushed, Leads;
    var g', l';
    xs, c', g', l' := UnitEnds(After(s, acts), g, Books(s, acts));
  }

  /** The queue is as long as there are waiters. */
  lemma {:induction false} QueueSize(c: State, g: View)
    requires Shape(c, g) && AllPushed(c)
    ensures g.lo <= |g.log| && (Queue(g) == 0 <==> Waiters(c) == 0)
  {
    QueueIsWaiters(c, g);
    hide Shape;
  }

  /** Pushing, and the controller to its end. */
  lemma ControlFinishes(c: State, g: View, l: Ledger) returns (xs: seq<Action>, c': State)
    requires Inv(c, g, l) && c.releases > 0
    ensures Leads(c, xs, c') && (forall i :: 0 <= i < |xs| ==> Pushing(xs[i]) || xs[i].Control?)
    ensures c'.releases == 0 && Current(c') == Finished && c'.active == c.active + c.releases - Added(Current(c))
    ensures |c'.pc| == |c.pc| && forall t :: 0 <= t < |c.pc| ==>
      c'.pc[t] == c.pc[t] || (Announced(c.pc[t]) && (c'.pc[t] == Parked || c'.pc[t] == Granted))
    ensures c.releases > |c.pc| ==> forall t :: 0 <= t < |c.pc| ==> !Announced(c'.pc[t])
  {
    hide Inv, Leads, AllPushed, OnlyParks, AllDone, OnlyPushing, OnlyControl, Queue;
    var ys, c1, g1, l1 := AllPush(c, g, l);
    StillRunning(c, c1, g1, l1);
    var zs, g2, l2;
    zs, c', g2, l2 := ControlEnds(c1, g1, l1);
    LeadsJoin(c, ys, c1, zs, c');
    xs := ys + zs;
    FinishedEffect(c, c1, g1, c', g2);
    NobodyLeft(c1, g1, l1, c', g2, l2);
    StepKinds(ys, zs);
    QueueFits(c1, g1, l1);
    ParkSizes(c, c1);
  }

  lemma ParkSizes(c: State, c1: State)
    requires OnlyParks(c, c1)
    ensures |c1.pc| == |c.pc| && c1.releases == c.releases && c1.active == c.active && Current(c1) == Current(c)
  {
  }

  lemma StepKinds(ys: seq<Action>, zs: seq<Action>)
    requires OnlyPushing(ys) && OnlyControl(zs)
    ensures forall i :: 0 <= i < |ys + zs| ==> Pushing((ys + zs)[i]) || (ys + zs)[i].Control?
  {
  }

  lemma StillRunning(c: State, c1: State, g1: View, l1: Ledger)
    requires OnlyParks(c, c1) && Inv(c1, g1, l1) && c.releases > 0
    ensures Current(c1) != Finished && c1.releases == c.releases
  {
    hide Linked, Sleepers, SawPositive, Balanced;
  }

  lemma FinishedEffect(c: State, c1: State, g1: View, c2: State, g2: View)
    requires OnlyParks(c, c1) && AllDone(c1, g1, c2, g2)
    ensures c2.releases == 0 && Current(c2) == Finished && c2.active == c.active + c.releases - Added(Current(c))
    ensures |c2.pc| == |c.pc| && forall t :: 0 <= t < |c.pc| ==>
      c2.pc[t] == c.pc[t] || (Announced(c.pc[t]) && (c2.pc[t] == Parked || c2.pc[t] == Granted))
  {
    assert Current(c1) == Current(c);
    hide Current, Queue;
    forall t | 0 <= t < |c.pc|
      ensures c2.pc[t] == c.pc[t] || (Announced(c.pc[t]) && (c2.pc[t] == Parked || c2.pc[t] == Granted))
    {
      assert c1.pc[t] == c.pc[t] || c1.pc[t] == Parked;
    }
  }

  /** With more units than waiters nobody is left. */
  lemma NobodyLeft(c1: State, g1: View, l1: Ledger, c2: State, g2: View, l2: Ledger)
    requires Inv(c1, g1, l1) && AllPushed(c1) && Inv(c2, g2, l2) && AllDone(c1, g1, c2, g2)
    ensures c1.releases > Queue(g1) ==> forall t :: 0 <= t < |c1.pc| ==> !Announced(c2.pc[t])
    ensures |c2.pc| == |c1.pc|
  {
    if c1.releases > Queue(g1) {
      WakesKeepPushed(c1, c2);
      hide OnlyWakes, Shape, Balanced, SawPositive, AllPushed;
      QueueSize(c2, g2);
      hide Inv;
      assert Queue(g2) == 0;
      CountPositive(c2.pc, Announced);
    }
  }

  lemma WakesKeepPushed(c1: State, c2: State)
    requires AllPushed(c1) && OnlyWakes(c1, c2)
    ensures AllPushed(c2)
  {
  }

  /** The queue holds each coroutine at most once. */
  lemma QueueFits(c: State, g: View, l: Ledger)
    requires Inv(c, g, l)
    ensures Queue(g) <= |c.pc|
  {
    hide Linked, Balanced, SawPositive;
    LogFits(g.log, g.lo, |g.log|, |c.pc|);
  }

  lemma LogFits(log: seq<nat>, lo: nat, hi: nat, n: nat)
    requires lo <= hi <= |log| && DistinctFrom(log, lo) && forall i :: lo <= i < hi ==> log[i] < n
    ensures hi <= lo + n
  {
    var x := set i: nat | lo <= i < hi :: log[i];
    LogSize(log, lo, hi);
    Pigeonhole(x, n);
  }

  lemma {:induction false} LogSize(log: seq<nat>, lo: nat, hi: nat)
    requires lo <= hi <= |log| && DistinctFrom(log, lo)
    ensures |set i: nat | lo <= i < hi :: log[i]| == hi - lo
    decreases hi
  {
    if lo < hi {
      LogSize(log, lo, hi - 1);
      assert (set i: nat | lo <= i < hi :: log[i]) == (set i: nat | lo <= i < hi - 1 :: log[i]) + {log[hi - 1]};
    }
  }

  /** Every released unit is processed.  From every reachable state with released units there is a way to go on, with
      nobody calling anything, after which all are processed, the controller has ended, they have become available,
      and nobody has moved but waiters, onto the stack or out of it; and if they are more than there are coroutines,
      nobody waits any more. */
  lemma {:induction false} UnitsAreProcessed(s: State, acts: seq<Action>) returns (xs: seq<Action>, c': State)
    requires Init(s) && Runs(s, acts) && After(s, acts).releases > 0
    ensures Leads(After(s, acts), xs, c') && forall i :: 0 <= i < |xs| ==> Pushing(xs[i]) || xs[i].Control?
    ensures var c := After(s, acts);
      && c'.releases == 0 && Current(c') == Finished && c'.active == c.active + c.releases - Added(Current(c))
      && |c'.pc| == |c.pc|
      && (forall t :: 0 <= t < |c.pc| ==>
            c'.pc[t] == c.pc[t] || (Announced(c.pc[t]) && (c'.pc[t] == Parked || c'.pc[t] == Granted)))
      && (c.releases > |c.pc| ==> forall t :: 0 <= t < |c.pc| ==> !Announced(c'.pc[t]))
  {
    var g := RunKeeps(s, acts);
    hide Runs, After, AllPushes, AllWakes, Books, Inv, Leads;
    xs, c' := ControlFinishes(After(s, acts), g, Books(s, acts));
  }

  /** A sleeper is woken by enough released units, and runs. */
  lemma SleeperRuns(c: State, g: View, l: Ledger, t: nat, r: nat) returns (xs: seq<Action>, c': State)
    requires Inv(c, g, l) && t < |c.pc| && Announced(c.pc[t]) && r < |c.pc| && c.pc[r] == Idle
    ensures Leads(c, xs, c') && t < |c'.pc| && c'.pc[t] == Idle
  {
    SizesOf(c, g, l);
    ReleasesSign(c, g, l);
    var a := Release(r, |c.pc| + 1);
    LeadsOne(c, a);
    ReleaseStep(c, a);
    var c1 := Step(c, a);
    hide Inv, Leads, Step, Enabled;
    var g1, l1 := LeadsKeeps(c, g, l, [a], c1);
    var ys, c2 := ControlFinishes(c1, g1, l1);
    LeadsJoin(c, [a], c1, ys, c2);
    SizesOf2(c1, g1, l1, ys, c2);
    RunStep(c2, t);
    LeadsOne(c2, Run(t));
    c' := Step(c2, Run(t));
    LeadsJoin(c, [a] + ys, c2, [Run(t)], c');
    xs := [a] + ys + [Run(t)];
  }

  lemma ReleaseStep(c: State, a: Action)
    requires Enabled(c, a) && a.Release?
    ensures Step(c, a).pc == c.pc && Step(c, a).releases == c.releases + a.update
  {
  }

  lemma RunStep(c: State, t: nat)
    requires t < |c.pc| == |c.next| && c.pc[t] == Granted
    ensures Enabled(c, Run(t)) && Step(c, Run(t)).pc == c.pc[t := Idle]
  {
  }

  lemma ReleasesSign(c: State, g: View, l: Ledger)
    requires Inv(c, g, l)
    ensures c.releases >= 0
  {
    hide Linked, Sleepers, Balanced, SawPositive;
  }

  lemma SizesOf2(c: State, g: View, l: Ledger, xs: seq<Action>, c': State)
    requires Inv(c, g, l) && Leads(c, xs, c')
    ensures |c'.pc| == |c'.next|
  {
    var g', l' := LeadsKeeps(c, g, l, xs, c');
    SizesOf(c', g', l');
  }

  lemma LooksPositive(c: State, g: View, l: Ledger, t: nat)
    requires Inv(c, g, l) && t < |c.pc|
    ensures c.pc[t].AcquireCas? || c.pc[t].TryCas? ==> c.pc[t].result > 0
  {
    hide Shape, Balanced;
  }

  /** Everybody who waits gets on: from every reachable state, for every coroutine `t` inside co_await, and as long as
      somebody `r` is there to release, there is a way to go on after which `t` has returned. */
  lemma {:induction false} EverybodyGetsOn(s: State, acts: seq<Action>, t: nat, r: nat)
    returns (xs: seq<Action>, c': State)
    requires Init(s) && Runs(s, acts) && t < |After(s, acts).pc| && r < |After(s, acts).pc| && t != r
    requires Awaiting(After(s, acts).pc[t]) && After(s, acts).pc[r] == Idle
    ensures Leads(After(s, acts), xs, c') && t < |c'.pc| && c'.pc[t] == Idle
  {
    var g := RunKeeps(s, acts);
    hide Runs, After, AllPushes, AllWakes, Books, Inv;
    xs, c' := GetsOn(After(s, acts), g, Books(s, acts), t, r);
  }

  lemma GetsOn(c: State, g: View, l: Ledger, t: nat, r: nat) returns (xs: seq<Action>, c': State)
    requires Inv(c, g, l) && t < |c.pc| && r < |c.pc| && t != r && Awaiting(c.pc[t]) && c.pc[r] == Idle
    ensures Leads(c, xs, c') && t < |c'.pc| && c'.pc[t] == Idle
  {
    SizesOf(c, g, l);
    LooksPositive(c, g, l, t);
    hide Inv;
    if c.pc[t] == Granted {
      LeadsOne(c, Run(t));
      xs, c' := [Run(t)], Step(c, Run(t));
    } else if Announced(c.pc[t]) {
      xs, c' := SleeperRuns(c, g, l, t, r);
    } else {
      if c.pc[t] == Announce { xs, c' := AnnounceEnds(c, t); } else { xs, c' := AcquireEnds(c, t); }
      hide Leads;
      if c'.pc[t] != Idle {
        var ys, c1 := xs, c';
        var g1, l1 := LeadsKeeps(c, g, l, ys, c1);
        xs, c' := SleeperRuns(c1, g1, l1, t, r);
        LeadsJoin(c, ys, c1, xs, c');
        xs := ys + xs;
      }
    }
  }

  /** co_await of a coroutine that takes its steps undisturbed: it returns with a permit if there is one, and goes to
      sleep otherwise. */
  lemma {:induction false} AwaitTakesOrSleeps(s: State, acts: seq<Action>, t: nat) returns (xs: seq<Action>, c': State)
    requires Init(s) && Runs(s, acts) && t < |After(s, acts).pc| && After(s, acts).pc[t] == Idle
    ensures var c := After(s, acts);
      && LeadsBy(c, [Await(t)] + xs, c', t) && c'.active == c.active - 1
      && c'.pc == c.pc[t := if c.active > 0 then Idle else Parked]
  {
    var g := RunKeeps(s, acts);
    SizesOf(After(s, acts), g, Books(s, acts));
    hide Runs, After, AllPushes, AllWakes, Books, Inv, LeadsBy;
    xs, c' := AwaitBegins(After(s, acts), t);
  }

  lemma AwaitBegins(c: State, t: nat) returns (xs: seq<Action>, c': State)
    requires t < |c.pc| == |c.next| && c.pc[t] == Idle
    ensures LeadsBy(c, [Await(t)] + xs, c', t) && c'.active == c.active - 1
    ensures c'.pc == c.pc[t := if c.active > 0 then Idle else Parked]
  {
    ByOne(c, Await(t), t);
    var c1 := Step(c, Await(t));
    assert c1 == c.(pc := c.pc[t := AcquireLoad]);
    hide LeadsBy, Step;
    xs, c' := AcquireEnds(c1, t);
    ByJoin(c, [Await(t)], c1, xs, c', t);
    assert c1.pc[t := Idle] == c.pc[t := Idle] && c1.pc[t := Parked] == c.pc[t := Parked];
  }

  /** try_aquire() answers truly whether it got a permit. */
  lemma {:induction false} TryAnswersTruly(s: State, acts: seq<Action>, t: nat) returns (xs: seq<Action>, c': State)
    requires Init(s) && Runs(s, acts) && t < |After(s, acts).pc| && After(s, acts).pc[t] == Idle
    ensures var c := After(s, acts);
      && LeadsBy(c, xs, c', t) && xs != [] && xs[0] == TryStart(t)
      && c' == c.(active := if c.active > 0 then c.active - 1 else c.active, pc := c.pc[t := Answered(c.active > 0)])
  {
    var g := RunKeeps(s, acts);
    SizesOf(After(s, acts), g, Books(s, acts));
    hide Runs, After, AllPushes, AllWakes, Books, Inv;
    xs, c' := TryEnds(After(s, acts), t);
  }
}
