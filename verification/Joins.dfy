/** The latch, as the joins use it: participants count down by positive amounts that add up to the initial count,
    and the one coroutine that waits owns the latch and may destroy it as soon as it runs again. */
module Latch {
  import opened Lists

  /** One participant's count_down(): participant 0 is the waiter's own arrive_and_wait(). */
  datatype Part =
    | Todo
    | Firing               // its fetch_sub reached zero: about to exchange the token's word
    | Walking(ptr: Word)   // unpause(): going through the detached list
    | Done

  /** The waiter, after its own count_down(). */
  datatype Waiter =
    | Arriving
    | Ready                        // await_ready(): about to load the token's word
    | PushLoad                     // pause(pauser*)
    | PushCas(previous: Word)
    | Parked
    | Posted                       // its resume event is posted: it may run at any moment
    | Running
    | Destroyed                    // the frame with the latch is gone

  /** `link` is the waiter node's next_waiting_; `unpauses` counts the calls of unpause(); `stale` records an
      access to the latch, or to the waiter's node, after the waiter was resumed. */
  datatype State = State(count: int, word: Word, link: Word, parts: seq<Part>, waiter: Waiter,
                         unpauses: nat, stale: bool)

  datatype Action =
    | CountDown(i: nat)
    | Exchange(i: nat)
    | Walk(i: nat)
    | Await(spurious: bool)
    | Run
    | Destroy

  predicate Enabled(s: State, a: Action) {
    match a
    case CountDown(i) => i < |s.parts| && s.parts[i] == Todo
    case Exchange(i) => i < |s.parts| && s.parts[i] == Firing
    case Walk(i) => i < |s.parts| && s.parts[i].Walking?
    case Await(_) => s.waiter == Ready || s.waiter == PushLoad || s.waiter.PushCas?
    case Run => s.waiter == Posted
    case Destroy => s.waiter == Running
  }

  /** The waiter may already run: nobody else may touch the latch or the waiter's node any more. */
  predicate Gone(w: Waiter) { w == Posted || w == Running || w == Destroyed }

  /** Participant `i` moves to `p`; the waiter goes on when its own arrival is done. */
  function Move(s: State, i: nat, p: Part): State
    requires i < |s.parts|
  {
    s.(parts := s.parts[i := p], waiter := if i == 0 && p == Done then Ready else s.waiter)
  }

  function StepAwait(s: State, spurious: bool): State {
    match s.waiter
    case Ready => s.(waiter := if s.word == Flag then Running else PushLoad)
    case PushLoad => s.(waiter := if s.word == Flag then Running else PushCas(s.word))
    case PushCas(previous) =>
      if s.word == previous && !spurious then s.(link := previous, word := Node(0), waiter := Parked)
      else s.(link := previous, waiter := if s.word == Flag then Running else PushCas(s.word))
    case _ => s
  }

  function Step(s: State, amounts: seq<int>, a: Action): State
    requires Enabled(s, a) && |amounts| == |s.parts|
  {
    match a
    case CountDown(i) =>
      var fires := 0 < s.count <= amounts[i];
      Move(s.(count := s.count - amounts[i], stale := s.stale || Gone(s.waiter)), i, if fires then Firing else Done)
    case Exchange(i) =>
      Move(s.(word := Flag, unpauses := s.unpauses + 1, stale := s.stale || Gone(s.waiter)), i,
           if s.word == Flag then Done else Walking(s.word))
    case Walk(i) =>
      if !s.parts[i].ptr.Node? then Move(s, i, Done)
      else
        // reads the node and the latch's engine_, then posts the waiter's resume event
        s.(parts := s.parts[i := Walking(s.link)], waiter := Posted, stale := s.stale || s.waiter != Parked)
    case Await(spurious) => StepAwait(s, spurious)
    case Run => s.(waiter := Running)
    case Destroy => s.(waiter := Destroyed)
  }

  /** What the participants that have not counted down yet still owe. */
  ghost function Owed(parts: seq<Part>, amounts: seq<int>): int
    requires |parts| == |amounts|
  {
    if parts == [] then 0
    else Owed(parts[..|parts| - 1], amounts[..|parts| - 1]) + if parts[|parts| - 1] == Todo then amounts[|parts| - 1] else 0
  }

  lemma {:induction false} OwedUpdate(parts: seq<Part>, amounts: seq<int>, i: nat, p: Part)
    requires |parts| == |amounts| && i < |parts|
    ensures Owed(parts[i := p], amounts)
         == Owed(parts, amounts) - (if parts[i] == Todo then amounts[i] else 0) + (if p == Todo then amounts[i] else 0)
  {
    var n := |parts| - 1;
    if i == n {
      assert parts[i := p][..n] == parts[..n];
    } else {
      assert parts[i := p][..n] == parts[..n][i := p];
      OwedUpdate(parts[..n], amounts[..n], i, p);
    }
  }

  lemma {:induction false} OwedPositive(parts: seq<Part>, amounts: seq<int>, i: nat)
    requires |parts| == |amounts| && forall j :: 0 <= j < |amounts| ==> amounts[j] > 0
    ensures Owed(parts, amounts) >= 0
    ensures i < |parts| && parts[i] == Todo ==> Owed(parts, amounts) >= amounts[i]
    ensures Owed(parts, amounts) == 0 ==> forall j :: 0 <= j < |parts| ==> parts[j] != Todo
  {
    if parts != [] {
      var n := |parts| - 1;
      OwedPositive(parts[..n], amounts[..n], i);
      if Owed(parts, amounts) == 0 {
        forall j | 0 <= j < |parts| ensures parts[j] != Todo {
          assert j < n ==> parts[..n][j] == parts[j];
        }
      }
    }
  }

  ghost predicate Init(s: State, amounts: seq<int>) {
    && |s.parts| == |amounts| > 0 && (forall i :: 0 <= i < |amounts| ==> amounts[i] > 0)
    && (forall i :: 0 <= i < |s.parts| ==> s.parts[i] == Todo)
    && s.count == Owed(s.parts, amounts) && s.word == Zero && s.waiter == Arriving && s.unpauses == 0 && !s.stale
  }

  /** `f` is the participant whose count_down reached zero. */
  ghost predicate Fired(s: State, f: nat) {
    && f < |s.parts| && (s.parts[f].Firing? || s.parts[f].Walking? || s.parts[f] == Done)
    && (forall i :: 0 <= i < |s.parts| && i != f ==> s.parts[i] == Done)
    && (s.word == Flag <==> s.parts[f] != Firing)
  }

  ghost predicate WaiterOk(s: State, f: nat) {
    && (s.waiter == Arriving <==> |s.parts| > 0 && s.parts[0] != Done)
    && (s.word.Node? ==> s.waiter == Parked && s.word == Node(0))
    && (s.waiter == Parked && s.word != Flag ==> s.word.Node?)
    && (s.waiter == Parked ==> s.link == Zero)
    && (s.waiter.PushCas? ==> s.waiter.previous == Zero)
    && (s.word == Flag && f < |s.parts| && s.parts[f].Walking? ==>
          s.parts[f].ptr == (if s.waiter == Parked then Node(0) else Zero))
    && (s.word == Flag && s.waiter == Parked ==> f < |s.parts| && s.parts[f].Walking?)
    && (Gone(s.waiter) ==> s.word == Flag)
  }

  ghost predicate Inv(s: State, amounts: seq<int>, f: nat) {
    && |s.parts| == |amounts| > 0 && (forall i :: 0 <= i < |amounts| ==> amounts[i] > 0)
    && s.count == Owed(s.parts, amounts) && !s.stale
    && s.unpauses == (if s.word == Flag then 1 else 0)
    && WaiterOk(s, f)
    && (if s.count > 0 then s.word != Flag && forall i :: 0 <= i < |s.parts| ==> s.parts[i] == Todo || s.parts[i] == Done
        else Fired(s, f))
  }

  lemma CountDownKeeps(s: State, amounts: seq<int>, f: nat, i: nat) returns (f': nat)
    requires Inv(s, amounts, f) && Enabled(s, CountDown(i))
    ensures Inv(Step(s, amounts, CountDown(i)), amounts, f')
  {
    hide Owed;
    OwedPositive(s.parts, amounts, i);
    var s' := Step(s, amounts, CountDown(i));
    OwedUpdate(s.parts, amounts, i, s'.parts[i]);
    OwedPositive(s'.parts, amounts, i);
    f' := if s'.count == 0 then i else f;
  }

  /** Every step keeps the latch in order. */
  lemma {:induction false} StepKeeps(s: State, amounts: seq<int>, f: nat, a: Action) returns (f': nat)
    requires Inv(s, amounts, f) && Enabled(s, a)
    ensures Inv(Step(s, amounts, a), amounts, f')
  {
    hide Owed;
    OwedPositive(s.parts, amounts, 0);
    f' := f;
    match a
    case CountDown(i) => f' := CountDownKeeps(s, amounts, f, i);
    case Exchange(i) => OwedUpdate(s.parts, amounts, i, Step(s, amounts, a).parts[i]);
    case Walk(i) => OwedUpdate(s.parts, amounts, i, Step(s, amounts, a).parts[i]);
    case _ =>
  }

  ghost predicate Runs(s: State, amounts: seq<int>, acts: seq<Action>)
    requires |s.parts| == |amounts|
    decreases |acts|, 0
  {
    acts == [] || (Runs(s, amounts, acts[..|acts| - 1]) && Enabled(After(s, amounts, acts[..|acts| - 1]), acts[|acts| - 1]))
  }

  ghost function After(s: State, amounts: seq<int>, acts: seq<Action>): (c: State)
    requires |s.parts| == |amounts| && Runs(s, amounts, acts)
    ensures |c.parts| == |amounts|
    decreases |acts|, 1
  {
    if acts == [] then s else Step(After(s, amounts, acts[..|acts| - 1]), amounts, acts[|acts| - 1])
  }

  lemma {:induction false} RunKeeps(s: State, amounts: seq<int>, acts: seq<Action>) returns (f: nat)
    requires Init(s, amounts) && Runs(s, amounts, acts)
    ensures Inv(After(s, amounts, acts), amounts, f)
    decreases |acts|
  {
    if acts == [] {
      f := 0;
      OwedPositive(s.parts, amounts, 0);
    } else {
      hide Step, Enabled, Inv;
      var n := |acts| - 1;
      var f0 := RunKeeps(s, amounts, acts[..n]);
      f := StepKeeps(After(s, amounts, acts[..n]), amounts, f0, acts[n]);
    }
  }

  lemma {:induction false} OwedNothing(parts: seq<Part>, amounts: seq<int>)
    requires |parts| == |amounts| && forall i :: 0 <= i < |parts| ==> parts[i] != Todo
    ensures Owed(parts, amounts) == 0
  {
    if parts != [] {
      OwedNothing(parts[..|parts| - 1], amounts[..|parts| - 1]);
    }
  }

  /** The token is unpaused at most once, the waiter is let through only when everybody has counted down, once it
      may run no participant is going to touch the latch or the waiter's node again, and it never sleeps after all
      participants have finished. */
  lemma {:induction false} JoinIsSafe(s: State, amounts: seq<int>, acts: seq<Action>)
    requires Init(s, amounts) && Runs(s, amounts, acts)
    ensures var c := After(s, amounts, acts);
      && !c.stale && c.unpauses <= 1 && c.count >= 0
      && (c.unpauses == 1 ==> c.count == 0)
      && (Gone(c.waiter) ==>
            && c.unpauses == 1
            && forall i :: 0 <= i < |c.parts| ==> c.parts[i] == Done || c.parts[i] == Walking(Zero))
      && (c.waiter == Parked ==> exists i :: 0 <= i < |c.parts| && c.parts[i] != Done)
  {
    var f := RunKeeps(s, amounts, acts);
    hide Runs, After;
    var c := After(s, amounts, acts);
    OwedPositive(c.parts, amounts, 0);
    if forall i :: 0 <= i < |c.parts| ==> c.parts[i] == Done { OwedNothing(c.parts, amounts); }
    hide Owed;
    assert c.waiter == Parked && c.count <= 0 ==> c.parts[f] != Done;
  }

  // ---------------------------------------------------------------------------------------------
  // Counting down by arbitrary positive amounts

  ghost function Sum(xs: seq<int>): int { if xs == [] then 0 else Sum(xs[..|xs| - 1]) + xs[|xs| - 1] }

  /** The fetch_sub of the `k`-th count_down() meets the guard in front of unpause(). */
  ghost predicate Fires(initial: int, amounts: seq<int>, k: nat)
    requires k < |amounts|
  {
    var number := initial - Sum(amounts[..k]);
    number > 0 && number <= amounts[k]
  }

  lemma {:induction false} SumGrows(xs: seq<int>, j: nat, k: nat)
    requires j < k <= |xs| && forall i :: 0 <= i < |xs| ==> xs[i] > 0
    ensures Sum(xs[..j]) + xs[j] <= Sum(xs[..k])
    decreases k
  {
    assert xs[..k][..k - 1] == xs[..k - 1];
    if j < k - 1 {
      SumGrows(xs, j, k - 1);
    }
  }

  /** Over any sequence of positive counts unpause() is called exactly once if they reach the initial amount and
      never otherwise: by the count that first takes the total to the initial amount. */
  lemma {:induction false} FiresOnce(initial: int, amounts: seq<int>)
    requires initial > 0 && forall i :: 0 <= i < |amounts| ==> amounts[i] > 0
    ensures forall k :: 0 <= k < |amounts| ==>
      (Fires(initial, amounts, k) <==> Sum(amounts[..k]) < initial <= Sum(amounts[..k]) + amounts[k])
    ensures forall j, k :: 0 <= j < k < |amounts| && Fires(initial, amounts, j) ==> !Fires(initial, amounts, k)
    ensures (exists k :: 0 <= k < |amounts| && Fires(initial, amounts, k)) <==> Sum(amounts) >= initial
  {
    forall j, k | 0 <= j < k < |amounts| && Fires(initial, amounts, j) ensures !Fires(initial, amounts, k) {
      SumGrows(amounts, j, k);
    }
    assert amounts[..|amounts|] == amounts;
    if k :| 0 <= k < |amounts| && Fires(initial, amounts, k) {
      SumGrows(amounts, k, |amounts|);
    }
    if Sum(amounts) >= initial {
      var k := FirstReach(initial, amounts, |amounts|);
    }
  }

  lemma {:induction false} FirstReach(initial: int, amounts: seq<int>, n: nat) returns (k: nat)
    requires initial > 0 && n <= |amounts| && Sum(amounts[..n]) >= initial
    ensures k < n && Fires(initial, amounts, k)
    decreases n
  {
    assert amounts[..n][..n - 1] == amounts[..n - 1];
    if Sum(amounts[..n - 1]) >= initial {
      k := FirstReach(initial, amounts, n - 1);
    } else {
      k := n - 1;
    }
  }
}

/** The join of wait_for(promises...): a counter of N + 1, one for each promise and one for the start-up loop. */
module WaitFor {
  import opened Lists

  datatype Promise = Fresh | Started | Finished

  datatype Awaiter =
    | Starting(next: nat)   // inline_start_promise(): about to start promise `next`
    | Suspended
    | Resumed               // the awaiter runs; the counter and the promises may be gone

  /** `runs` counts how often the awaiter is resumed; `stale` records an access to the counter after that. */
  datatype State = State(counter: int, promises: seq<Promise>, awaiter: Awaiter, runs: nat, stale: bool)

  datatype Action =
    | StartNext               // starts a promise, or after the last one counts the start-up loop down
    | Finish(i: nat)          // promise `i` completes, inline or on any other thread

  predicate Enabled(s: State, a: Action) {
    match a
    case StartNext => s.awaiter.Starting?
    case Finish(i) => i < |s.promises| && s.promises[i] == Started
  }

  /** One fetch_sub of the counter; whoever takes it from one to zero resumes the awaiter. */
  function CountDown(s: State, otherwise: Awaiter): State {
    var s' := s.(counter := s.counter - 1, stale := s.stale || s.awaiter == Resumed);
    if s.counter == 1 then s'.(awaiter := Resumed, runs := s.runs + 1) else s'.(awaiter := otherwise)
  }

  function Step(s: State, a: Action): State
    requires Enabled(s, a)
  {
    match a
    case StartNext =>
      var n := s.awaiter.next;
      if n < |s.promises| then s.(promises := s.promises[n := Started], awaiter := Starting(n + 1))
      else CountDown(s, Suspended)
    case Finish(i) => CountDown(s.(promises := s.promises[i := Finished]), s.awaiter)
  }

  predicate Init(s: State) {
    && s.promises != [] && (forall i :: 0 <= i < |s.promises| ==> s.promises[i] == Fresh)
    && s.counter == |s.promises| + 1 && s.awaiter == Starting(0) && s.runs == 0 && !s.stale
  }

  predicate Pending(p: Promise) { p != Finished }

  ghost predicate Inv(s: State) {
    && s.counter == Count(s.promises, Pending) + (if s.awaiter.Starting? then 1 else 0)
    && (s.awaiter == Resumed <==> s.counter == 0) && s.runs == (if s.awaiter == Resumed then 1 else 0) && !s.stale
    && (s.awaiter.Starting? ==> s.awaiter.next <= |s.promises|)
    && (forall i :: 0 <= i < |s.promises| ==>
          (s.promises[i] == Fresh <==> s.awaiter.Starting? && s.awaiter.next <= i))
  }

  lemma {:induction false} StepKeeps(s: State, a: Action)
    requires Inv(s) && Enabled(s, a)
    ensures Inv(Step(s, a))
  {
    match a
    case StartNext => if s.awaiter.next < |s.promises| { CountUpdate(s.promises, s.awaiter.next, Started, Pending); }
    case Finish(i) =>
      CountUpdate(s.promises, i, Finished, Pending);
      CountPositive(s.promises, Pending);
  }

  ghost predicate Runs(s: State, acts: seq<Action>)
    decreases |acts|, 0
  {
    acts == [] || (Runs(s, acts[..|acts| - 1]) && Enabled(After(s, acts[..|acts| - 1]), acts[|acts| - 1]))
  }

  ghost function After(s: State, acts: seq<Action>): State
    requires Runs(s, acts)
    decreases |acts|, 1
  {
    if acts == [] then s else Step(After(s, acts[..|acts| - 1]), acts[|acts| - 1])
  }

  lemma {:induction false} CountAll(ps: seq<Promise>)
    requires forall i :: 0 <= i < |ps| ==> ps[i] == Fresh
    ensures Count(ps, Pending) == |ps|
  {
    if ps != [] {
      CountAll(ps[..|ps| - 1]);
    }
  }

  lemma {:induction false} RunKeeps(s: State, acts: seq<Action>)
    requires Init(s) && Runs(s, acts)
    ensures Inv(After(s, acts))
    decreases |acts|
  {
    if acts == [] {
      CountAll(s.promises);
    } else {
      hide Step, Enabled, Inv;
      RunKeeps(s, acts[..|acts| - 1]);
      StepKeeps(After(s, acts[..|acts| - 1]), acts[|acts| - 1]);
    }
  }

  /** The awaiter is resumed at most once, exactly when every promise has finished and the start-up loop is
      over, and nobody touches the counter after that, even when promises finish while they are started. */
  lemma {:induction false} JoinIsSafe(s: State, acts: seq<Action>)
    requires Init(s) && Runs(s, acts)
    ensures var c := After(s, acts);
      && !c.stale && c.runs <= 1
      && (c.runs == 1 <==> !c.awaiter.Starting? && forall i :: 0 <= i < |c.promises| ==> c.promises[i] == Finished)
  {
    RunKeeps(s, acts);
    hide Runs, After;
    CountPositive(After(s, acts).promises, Pending);
  }
}
