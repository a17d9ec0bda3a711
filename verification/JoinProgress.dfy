/** The latch of one waiter comes to its end: everybody counts down, and the waiter passes. */
module LatchProgress {
  import opened Lists
  import opened Latch

  /** The steps `xs` lead from `c` to `c'`. */
  ghost predicate Leads(c: State, amounts: seq<int>, xs: seq<Action>, c': State) {
    |c.parts| == |amounts| && Runs(c, amounts, xs) && After(c, amounts, xs) == c'
  }

  lemma {:induction false} LeadsJoin(c: State, amounts: seq<int>, xs: seq<Action>, c1: State, ys: seq<Action>, c2: State)
    requires Leads(c, amounts, xs, c1) && Leads(c1, amounts, ys, c2)
    ensures Leads(c, amounts, xs + ys, c2)
    decreases |ys|
  {
    hide Step, Enabled;
    if ys == [] {
      assert xs + ys == xs;
    } else {
      var n := |ys| - 1;
      LeadsJoin(c, amounts, xs, c1, ys[..n], After(c1, amounts, ys[..n]));
      assert (xs + ys)[..|xs + ys| - 1] == xs + ys[..n];
    }
  }

  lemma LeadsNowhere(c: State, amounts: seq<int>)
    requires |c.parts| == |amounts|
    ensures Leads(c, amounts, [], c)
  {
  }

  lemma LeadsOne(c: State, amounts: seq<int>, a: Action)
    requires |c.parts| == |amounts| && Enabled(c, a)
    ensures Leads(c, amounts, [a], Step(c, amounts, a))
  {
    assert [a][..0] == [];
    LeadsNowhere(c, amounts);
  }

  /** How many steps a participant may still take. */
  function PartRank(p: Part): nat {
    match p
    case Todo => 4
    case Firing => 3
    case Walking(ptr) => if ptr.Node? then 2 else 1
    case Done => 0
  }

  ghost function Left(parts: seq<Part>): nat {
    if parts == [] then 0 else Left(parts[..|parts| - 1]) + PartRank(parts[|parts| - 1])
  }

  lemma {:induction false} LeftUpdate(parts: seq<Part>, i: nat, p: Part)
    requires i < |parts|
    ensures Left(parts[i := p]) == Left(parts) - PartRank(parts[i]) + PartRank(p)
  {
    var n := |parts| - 1;
    if i == n {
      assert parts[i := p][..n] == parts[..n];
    } else {
      assert parts[i := p][..n] == parts[..n][i := p];
      LeftUpdate(parts[..n], i, p);
    }
  }

  function WaiterRank(w: Waiter): nat {
    match w
    case Ready => 3
    case PushLoad => 2
    case PushCas(_) => 1
    case Posted => 1
    case _ => 0
  }

  predicate Through(w: Waiter) { w == Running || w == Destroyed }

  ghost predicate AllDone(s: State) { forall i :: 0 <= i < |s.parts| ==> s.parts[i] == Done }

  /** A participant that is not done has a step. */
  lemma PartStep(s: State, amounts: seq<int>, f: nat) returns (a: Action)
    requires Inv(s, amounts, f) && !AllDone(s)
    ensures Enabled(s, a) && |s.parts| == |amounts| && (a.CountDown? || a.Exchange? || a.Walk?)
    ensures |Step(s, amounts, a).parts| == |s.parts| && Left(Step(s, amounts, a).parts) < Left(s.parts)
  {
    var i :| 0 <= i < |s.parts| && s.parts[i] != Done;
    a := if s.parts[i] == Todo then CountDown(i) else if s.parts[i] == Firing then Exchange(i) else Walk(i);
    var s' := Step(s, amounts, a);
    LinkIsNull(s, amounts, f);
    hide Inv, Owed;
    assert s'.parts == s.parts[i := s'.parts[i]];
    LeftUpdate(s.parts, i, s'.parts[i]);
    hide Left;
  }

  lemma LinkIsNull(s: State, amounts: seq<int>, f: nat)
    requires Inv(s, amounts, f)
    ensures forall i :: 0 <= i < |s.parts| && s.parts[i].Walking? && s.parts[i].ptr.Node? ==> s.link == Zero
    ensures s.parts != [] && |s.parts| == |amounts|
  {
    hide Owed;
  }

  /** When all are done the token is open and the waiter has a step, or is through. */
  lemma WaiterStep(s: State, amounts: seq<int>, f: nat) returns (a: Action)
    requires Inv(s, amounts, f) && AllDone(s) && !Through(s.waiter)
    ensures Enabled(s, a) && |s.parts| == |amounts| && (a == Await(false) || a == Run)
    ensures Step(s, amounts, a).parts == s.parts && WaiterRank(Step(s, amounts, a).waiter) < WaiterRank(s.waiter)
    ensures s.waiter == Ready ==> Step(s, amounts, a).waiter == Running
  {
    OwedNothing(s.parts, amounts);
    hide Owed;
    a := if s.waiter == Posted then Run else Await(false);
  }

  /** Everybody counts down, and the waiter passes. */
  lemma {:induction false} JoinEnds(s: State, amounts: seq<int>, f: nat) returns (xs: seq<Action>, s': State)
    requires Inv(s, amounts, f)
    ensures Leads(s, amounts, xs, s') && AllDone(s') && Through(s'.waiter)
    ensures s'.unpauses == 1 && s'.count == 0 && !s'.stale
    decreases Left(s.parts), WaiterRank(s.waiter)
  {
    LinkIsNull(s, amounts, f);
    if AllDone(s) && Through(s.waiter) {
      LeadsNowhere(s, amounts);
      OwedNothing(s.parts, amounts);
      xs, s' := [], s;
      hide Owed;
    } else {
      var a;
      if AllDone(s) { a := WaiterStep(s, amounts, f); } else { a := PartStep(s, amounts, f); }
      LeadsOne(s, amounts, a);
      var s1 := Step(s, amounts, a);
      hide Inv, Leads, Step, Enabled, AllDone, Left;
      var f1 := StepKeeps(s, amounts, f, a);
      xs, s' := JoinEnds(s1, amounts, f1);
      LeadsJoin(s, amounts, [a], s1, xs, s');
      xs := [a] + xs;
    }
  }

  /** The join comes to its end: from every reachable state there is a way to go on after which everybody has counted
      down, the token was opened once, and the waiter is through. */
  lemma {:induction false} JoinCompletes(s: State, amounts: seq<int>, acts: seq<Action>)
    returns (xs: seq<Action>, s': State)
    requires Init(s, amounts) && Runs(s, amounts, acts)
    ensures Leads(After(s, amounts, acts), amounts, xs, s') && AllDone(s') && Through(s'.waiter)
    ensures s'.unpauses == 1 && s'.count == 0 && !s'.stale
  {
    var f := RunKeeps(s, amounts, acts);
    hide Runs, After, Inv, Leads;
    xs, s' := JoinEnds(After(s, amounts, acts), amounts, f);
  }
}

/** The join of wait_for(promises...) comes to its end. */
module WaitForProgress {
  import opened Lists
  import opened WaitFor

  /** The steps `xs` lead from `c` to `c'`. */
  ghost predicate Leads(c: State, xs: seq<Action>, c': State) { Runs(c, xs) && After(c, xs) == c' }

  lemma {:induction false} LeadsJoin(c: State, xs: seq<Action>, c1: State, ys: seq<Action>, c2: State)
    requires Leads(c, xs, c1) && Leads(c1, ys, c2)
    ensures Leads(c, xs + ys, c2)
    decreases |ys|
  {
    hide Step, Enabled;
    if ys == [] {
      assert xs + ys == xs;
    } else {
      var n := |ys| - 1;
      LeadsJoin(c, xs, c1, ys[..n], After(c1, ys[..n]));
      assert (xs + ys)[..|xs + ys| - 1] == xs + ys[..n];
    }
  }

  lemma LeadsNowhere(c: State)
    ensures Leads(c, [], c)
  {
  }

  lemma LeadsOne(c: State, a: Action)
    requires Enabled(c, a)
    ensures Leads(c, [a], Step(c, a))
  {
    assert [a][..0] == [];
    LeadsNowhere(c);
  }

  function ToStart(s: State): nat {
    if s.awaiter.Starting? && s.awaiter.next <= |s.promises| then |s.promises| - s.awaiter.next + 1 else 0
  }

  /** The start-up loop goes on, or a promise that was started finishes. */
  lemma NextStep(s: State) returns (a: Action)
    requires Inv(s) && s.awaiter != Resumed
    ensures Enabled(s, a)
    ensures var s' := Step(s, a);
      ToStart(s') < ToStart(s)
      || (ToStart(s') == ToStart(s) && Count(s'.promises, Pending) < Count(s.promises, Pending))
  {
    if s.awaiter.Starting? {
      a := StartNext;
    } else {
      CountPositive(s.promises, Pending);
      var i :| 0 <= i < |s.promises| && Pending(s.promises[i]);
      a := Finish(i);
      CountUpdate(s.promises, i, Finished, Pending);
    }
    hide Count;
  }

  lemma {:induction false} JoinEnds(s: State) returns (xs: seq<Action>, s': State)
    requires Inv(s)
    ensures Leads(s, xs, s') && s'.awaiter == Resumed && Inv(s')
    decreases ToStart(s), Count(s.promises, Pending)
  {
    if s.awaiter == Resumed {
      LeadsNowhere(s);
      xs, s' := [], s;
    } else {
      var a := NextStep(s);
      LeadsOne(s, a);
      var s1 := Step(s, a);
      StepKeeps(s, a);
      hide Inv, Leads, Step, Enabled, ToStart, Count;
      xs, s' := JoinEnds(s1);
      LeadsJoin(s, [a], s1, xs, s');
      xs := [a] + xs;
    }
  }

  /** wait_for() comes to its end: from every reachable state there is a way to go on after which every promise has been
      started and has finished, and the awaiter has been resumed once. */
  lemma {:induction false} JoinCompletes(s: State, acts: seq<Action>) returns (xs: seq<Action>, s': State)
    requires Init(s) && Runs(s, acts)
    ensures Leads(After(s, acts), xs, s') && s'.awaiter == Resumed && s'.runs == 1 && !s'.stale
    ensures forall i :: 0 <= i < |s'.promises| ==> s'.promises[i] == Finished
  {
    RunKeeps(s, acts);
    hide Runs, After, Leads;
    xs, s' := JoinEnds(After(s, acts));
    CountPositive(s'.promises, Pending);
  }
}
