/** The counting semaphore: acquirers and releasers meet through two atomic counters, a push stack and
    a single elected controller loop. */
module CountingSemaphore {
  import opened Lists

  /** Where one coroutine is.  Coroutine `t` owns the waiter node `t`. */
  datatype Pc =
    | Idle
    | AcquireLoad                  // await_suspend(): about to load active_count_
    | AcquireCas(result: int)      // await_suspend(): saw `result` > 0, about to take one
    | Announce                     // await_suspend(): saw no permit, about to fetch_sub
    | PushLoad                     // suspend(): about to load resuming_
    | PushCas(previous: Word)      // suspend(): about to compare-exchange against `previous`
    | Parked
    | Granted                      // its resume event is posted
    | TryLoad                      // try_aquire()
    | TryCas(result: int)
    | Answered(ok: bool)           // try_aquire(): about to return `ok`

  /** Where one activation of control() is; `retry` marks the loop that waits for an announced waiter. */
  datatype Ctl =
    | Finished
    | Fetch(retry: bool)                            // transfer(): about to read transfer_
    | Detach(retry: bool)                           // transfer(): about to exchange resuming_
    | Reverse(retry: bool, head: Word, rest: Word)  // transfer(): inside the reversal loop
    | Pop(retry: bool, head: Word)                  // transfer(): about to unlink `head`
    | AddIdle                                       // nobody found: about to fetch_add active_count_
    | AddFor(head: Word)                            // somebody found: about to fetch_add active_count_
    | Wake(head: Word)                              // about to resume `head`
    | Retire                                        // about to fetch_sub release_count_

  datatype State = State(active: int, releases: int, stack: Word, transfer: Word, next: seq<Word>,
                         pc: seq<Pc>, ctls: seq<Ctl>, crashed: bool)

  datatype Action =
    | Await(t: nat)
    | TryStart(t: nat)
    | Return(t: nat)
    | LoadActive(t: nat)
    | CasActive(t: nat, spurious: bool)
    | FetchSub(t: nat)
    | LoadStack(t: nat)
    | CasStack(t: nat, spurious: bool)
    | Run(t: nat)
    | Release(t: nat, update: int)
    | ReuseNode(t: nat, junk: Word)
    | Control(c: nat)

  predicate Enabled(s: State, a: Action) {
    && |s.pc| == |s.next|
    && if a.Control? then a.c < |s.ctls| && s.ctls[a.c] != Finished
       else
         && a.t < |s.pc|
         && match a
            case Await(t) => s.pc[t] == Idle
            case TryStart(t) => s.pc[t] == Idle
            case Return(t) => s.pc[t].Answered?
            case LoadActive(t) => s.pc[t] == AcquireLoad || s.pc[t] == TryLoad
            case CasActive(t, _) => s.pc[t].AcquireCas? || s.pc[t].TryCas?
            case FetchSub(t) => s.pc[t] == Announce
            case LoadStack(t) => s.pc[t] == PushLoad
            case CasStack(t, _) => s.pc[t].PushCas?
            case Run(t) => s.pc[t] == Granted
            case Release(t, update) => s.pc[t] == Idle && update > 0
            case ReuseNode(t, _) => s.pc[t] != Parked && !s.pc[t].PushCas?
            case Control(_) => true
  }

  predicate Live(s: State, w: Word) {
    w.Node? && w.id < |s.pc| == |s.next| && s.pc[w.id] == Parked
  }

  /** The loop head shared by await_suspend() and try_aquire(): keep trying while `result` is positive. */
  function Retry(acquire: bool, result: int): Pc {
    if result > 0 then (if acquire then AcquireCas(result) else TryCas(result))
    else if acquire then Announce else Answered(false)
  }

  function StepCasActive(s: State, t: nat, spurious: bool): State
    requires t < |s.pc| && (s.pc[t].AcquireCas? || s.pc[t].TryCas?)
  {
    if s.active == s.pc[t].result && !spurious then
      s.(active := s.active - 1, pc := s.pc[t := if s.pc[t].AcquireCas? then Idle else Answered(true)])
    else s.(pc := s.pc[t := Retry(s.pc[t].AcquireCas?, s.active)])
  }

  function StepCasStack(s: State, t: nat, spurious: bool): State
    requires t < |s.pc| == |s.next| && s.pc[t].PushCas?
  {
    var linked := s.(next := s.next[t := s.pc[t].previous]);
    if s.stack == s.pc[t].previous && !spurious then linked.(stack := Node(t), pc := s.pc[t := Parked])
    else linked.(pc := s.pc[t := PushCas(s.stack)])
  }

  function StepRelease(s: State, update: int): State {
    s.(releases := s.releases + update, ctls := if s.releases == 0 then s.ctls + [Fetch(false)] else s.ctls)
  }

  function StepControl(s: State, c: nat): State
    requires c < |s.ctls| && s.ctls[c] != Finished
  {
    match s.ctls[c]
    case Fetch(retry) =>
      s.(ctls := s.ctls[c := if s.transfer == Zero then Detach(retry) else Pop(retry, s.transfer)])
    case Detach(retry) =>
      var ctl := if s.stack != Zero then Reverse(retry, Zero, s.stack) else if retry then Fetch(true) else AddIdle;
      s.(stack := Zero, ctls := s.ctls[c := ctl])
    case Reverse(retry, head, rest) =>
      if !Live(s, rest) then s.(crashed := true)
      else
        var temp := s.next[rest.id];
        var linked := s.(next := s.next[rest.id := head]);
        if temp == Zero then linked.(transfer := rest, ctls := s.ctls[c := Pop(retry, rest)])
        else linked.(ctls := s.ctls[c := Reverse(retry, rest, temp)])
    case Pop(retry, head) =>
      if !Live(s, head) then s.(crashed := true)
      else s.(transfer := s.next[head.id], ctls := s.ctls[c := if retry then Wake(head) else AddFor(head)])
    case AddIdle =>
      s.(active := s.active + 1, ctls := s.ctls[c := if s.active < 0 then Fetch(true) else Retire])
    case AddFor(head) => s.(active := s.active + 1, ctls := s.ctls[c := Wake(head)])
    case Wake(head) =>
      if !Live(s, head) then s.(crashed := true)
      else s.(pc := s.pc[head.id := Granted], ctls := s.ctls[c := Retire])
    case Retire =>
      s.(releases := s.releases - 1, ctls := s.ctls[c := if s.releases == 1 then Finished else Fetch(false)])
  }

  function Step(s: State, a: Action): State
    requires Enabled(s, a)
  {
    match a
    case Await(t) => s.(pc := s.pc[t := AcquireLoad])
    case TryStart(t) => s.(pc := s.pc[t := TryLoad])
    case Return(t) => s.(pc := s.pc[t := Idle])
    case LoadActive(t) => s.(pc := s.pc[t := Retry(s.pc[t] == AcquireLoad, s.active)])
    case CasActive(t, spurious) => StepCasActive(s, t, spurious)
    case FetchSub(t) => s.(active := s.active - 1, pc := s.pc[t := PushLoad])
    case LoadStack(t) => s.(pc := s.pc[t := PushCas(s.stack)])
    case CasStack(t, spurious) => StepCasStack(s, t, spurious)
    case Run(t) => s.(pc := s.pc[t := Idle])
    case Release(_, update) => StepRelease(s, update)
    case ReuseNode(t, junk) => s.(next := s.next[t := junk])
    case Control(c) => StepControl(s, c)
  }

  predicate Init(s: State) {
    && s.active >= 0 && s.releases == 0 && s.stack == Zero && s.transfer == Zero && !s.crashed
    && |s.pc| == |s.next| && s.ctls == [] && forall t :: 0 <= t < |s.pc| ==> s.pc[t] == Idle
  }

  // ---------------------------------------------------------------------------------------------
  // Accounting

  predicate Asleep(p: Pc) { p == Parked }

  /** Has counted itself down as a waiter and has not been resumed. */
  predicate Announced(p: Pc) { p == PushLoad || p.PushCas? || p == Parked }

  ghost function Waiters(s: State): nat { Count(s.pc, Announced) }

  /** The activation of control() that may still be running: only the latest one can be. */
  function Current(s: State): Ctl { if s.ctls == [] then Finished else s.ctls[|s.ctls| - 1] }

  /** 1 when the controller has added a permit for a waiter that it has not resumed yet. */
  function Owed(ctl: Ctl): nat {
    if ctl.Wake? || ((ctl.Fetch? || ctl.Detach? || ctl.Reverse? || ctl.Pop?) && ctl.retry) then 1 else 0
  }

  /** 1 when the controller has added the permit of the release it is working on. */
  function Added(ctl: Ctl): nat { if ctl == Retire then 1 else Owed(ctl) }

  /** `grants` acquisitions so far out of `start` permits and `released` released units. */
  datatype Ledger = Ledger(start: int, released: int, grants: nat)

  ghost predicate Balanced(s: State, l: Ledger) {
    var owed := Owed(Current(s));
    && s.active + Waiters(s) + l.grants == l.start + l.released - s.releases + Added(Current(s))
    && s.active + Waiters(s) >= owed && Waiters(s) >= owed
    && l.released >= s.releases >= Added(Current(s))
  }

  /** One control() runs exactly while release_count_ is positive. */
  ghost predicate OneController(s: State) {
    && s.releases >= 0
    && (forall c :: 0 <= c < |s.ctls| - 1 ==> s.ctls[c] == Finished)
    && (Current(s) == Finished <==> s.releases == 0)
  }

  /** `log` lists the pushes; those before `lo` have been resumed, up to `mid` lies a detached stack still
      to be reversed, up to `top` the arrival-order list, then the stack that hangs off resuming_. */
  datatype View = View(log: seq<nat>, lo: nat, mid: nat, top: nat)

  ghost predicate Linked(s: State, g: View)
    requires g.lo <= g.mid <= g.top <= |g.log|
  {
    && Backward(s.next, g.log, g.top, |g.log|, s.stack, Zero)
    && match Current(s)
       case Detach(_) => g.lo == g.top && s.transfer == Zero
       case AddIdle => g.lo == g.top && s.transfer == Zero
       case Reverse(_, head, rest) =>
         && g.lo < g.mid && s.transfer == Zero
         && Forward(s.next, g.log, g.mid, g.top, head) && Backward(s.next, g.log, g.lo, g.mid, rest, Zero)
       case Pop(_, head) => g.lo == g.mid < g.top && Forward(s.next, g.log, g.lo, g.top, head)
       case AddFor(head) =>
         g.lo == g.mid < g.top && head == Node(g.log[g.lo]) && Forward(s.next, g.log, g.lo + 1, g.top, s.transfer)
       case Wake(head) =>
         g.lo == g.mid < g.top && head == Node(g.log[g.lo]) && Forward(s.next, g.log, g.lo + 1, g.top, s.transfer)
       case _ => g.lo == g.mid && Forward(s.next, g.log, g.lo, g.top, s.transfer)
  }

  ghost predicate Shape(s: State, g: View) {
    && |s.pc| == |s.next| && !s.crashed && OneController(s)
    && g.lo <= g.mid <= g.top <= |g.log|
    && Sleepers(s.pc, Asleep, g.log, g.lo) && Linked(s, g)
  }

  // ---------------------------------------------------------------------------------------------
  // Every step keeps the lists

  lemma LinkedFrame(s: State, s': State, g: View, g': View)
    requires g.lo <= g.mid <= g.top <= |g.log| && Linked(s, g) && Current(s') == Current(s)
    requires |s'.next| == |s.next| && s'.transfer == s.transfer && g' == g.(log := g'.log) && g.log <= g'.log
    requires forall i :: g.lo <= i < |g.log| ==> g.log[i] < |s.next| && s'.next[g.log[i]] == s.next[g.log[i]]
    requires Backward(s'.next, g'.log, g.top, |g'.log|, s'.stack, Zero)
    ensures Linked(s', g')
  {
    hide Forward, Backward;
    match Current(s)
    case Detach(_) =>
    case AddIdle =>
    case Reverse(_, head, rest) =>
      ForwardFrame(s.next, s'.next, g.log, g'.log, g.mid, g.top, head);
      BackwardFrame(s.next, s'.next, g.log, g'.log, g.lo, g.mid, rest, Zero);
    case Pop(_, head) => ForwardFrame(s.next, s'.next, g.log, g'.log, g.lo, g.top, head);
    case AddFor(head) => ForwardFrame(s.next, s'.next, g.log, g'.log, g.lo + 1, g.top, s.transfer);
    case Wake(head) => ForwardFrame(s.next, s'.next, g.log, g'.log, g.lo + 1, g.top, s.transfer);
    case _ => ForwardFrame(s.next, s'.next, g.log, g'.log, g.lo, g.top, s.transfer);
  }

  /** A coroutine that is not asleep moves on, or its node is written, without a push. */
  lemma ShapeOutside(s: State, s': State, g: View, t: nat)
    requires Shape(s, g) && t < |s.pc| && s.pc[t] != Parked && |s'.pc| == |s.pc|
    requires s'.pc == s.pc[t := s'.pc[t]] && s'.pc[t] != Parked
    requires |s'.next| == |s.next| && s'.next == s.next[t := s'.next[t]]
    requires s'.stack == s.stack && s'.transfer == s.transfer && s'.ctls == s.ctls
    requires s'.releases == s.releases && !s'.crashed
    ensures Shape(s', g)
  {
    hide Forward, Backward;
    SleepersFrame(s.pc, Asleep, g.log, g.lo, t, s'.pc[t]);
    assert !Queued(g.log, g.lo, t);
    BackwardFrame(s.next, s'.next, g.log, g.log, g.top, |g.log|, s.stack, Zero);
    LinkedFrame(s, s', g, g);
  }

  lemma ShapePush(s: State, g: View, t: nat)
    requires Shape(s, g) && t < |s.pc| && s.pc[t] == PushCas(s.stack)
    ensures Shape(StepCasStack(s, t, false), g.(log := g.log + [t]))
  {
    hide Forward, Backward, Sleepers;
    SleepersPush(s.pc, Asleep, g.log, g.lo, t, Parked);
    BackwardPush(s.next, g.log, g.top, s.stack, Zero, t);
    LinkedFrame(s, StepCasStack(s, t, false), g, g.(log := g.log + [t]));
  }

  lemma ShapeRelease(s: State, g: View, update: int)
    requires Shape(s, g) && update > 0
    ensures Shape(StepRelease(s, update), g)
  {
    hide Forward, Backward, Sleepers;
  }

  /** The only running activation is the latest one. */
  lemma ControllerIsLatest(s: State, c: nat)
    requires OneController(s) && c < |s.ctls| && s.ctls[c] != Finished
    ensures c == |s.ctls| - 1 && s.ctls[c] == Current(s) && s.releases > 0
  {
  }

  lemma ShapeReverse(s: State, g: View, c: nat) returns (g': View)
    requires Shape(s, g) && c < |s.ctls| && s.ctls[c].Reverse?
    ensures Shape(StepControl(s, c), g') && g'.log == g.log && g'.lo == g.lo && g'.mid == g.mid - 1
  {
    hide Forward, Backward;
    ControllerIsLatest(s, c);
    var Reverse(_, head, rest) := s.ctls[c];
    g' := g.(mid := g.mid - 1);
    ReverseOne(s.next, g.log, g.lo, g.mid, g.top, head, rest, Zero);
    var next' := s.next[rest.id := head];
    BackwardFrame(s.next, next', g.log, g.log, g.top, |g.log|, s.stack, Zero);
    BackwardHead(next', g.log, g.lo, g'.mid, s.next[rest.id], Zero);
  }

  lemma ShapePop(s: State, g: View, c: nat)
    requires Shape(s, g) && c < |s.ctls| && s.ctls[c].Pop?
    ensures Shape(StepControl(s, c), g)
  {
    hide Forward, Backward;
    ControllerIsLatest(s, c);
    ForwardPop(s.next, g.log, g.lo, g.top, s.ctls[c].head);
  }

  lemma ShapeWake(s: State, g: View, c: nat) returns (g': View)
    requires Shape(s, g) && c < |s.ctls| && s.ctls[c].Wake?
    ensures Shape(StepControl(s, c), g') && g' == g.(lo := g.lo + 1, mid := g.lo + 1)
    ensures s.ctls[c].head == Node(g.log[g.lo]) && g.log[g.lo] < |s.pc| && s.pc[g.log[g.lo]] == Parked
  {
    hide Forward, Backward;
    ControllerIsLatest(s, c);
    g' := g.(lo := g.lo + 1, mid := g.lo + 1);
    SleepersPop(s.pc, Asleep, g.log, g.lo, Granted);
  }

  lemma ShapeControl(s: State, g: View, c: nat) returns (g': View)
    requires Shape(s, g) && c < |s.ctls| && s.ctls[c] != Finished
    ensures Shape(StepControl(s, c), g') && g'.log == g.log
    ensures s.ctls[c].Wake? ==> Live(s, s.ctls[c].head)
    ensures s.ctls[c].Reverse? ==> g'.mid < g.mid
    ensures g'.lo == if s.ctls[c].Wake? then g.lo + 1 else g.lo
  {
    g' := g;
    match s.ctls[c]
    case Reverse(_, _, _) => g' := ShapeReverse(s, g, c);
    case Pop(_, _) => ShapePop(s, g, c);
    case Wake(_) => g' := ShapeWake(s, g, c);
    case Detach(_) => g' := ShapeDetach(s, g, c);
    case _ =>
      hide Sleepers;
      ControllerIsLatest(s, c);
  }

  lemma ShapeDetach(s: State, g: View, c: nat) returns (g': View)
    requires Shape(s, g) && c < |s.ctls| && s.ctls[c].Detach?
    ensures Shape(StepControl(s, c), g') && g'.log == g.log && g'.lo == g.lo
  {
    hide Sleepers;
    ControllerIsLatest(s, c);
    g' := if s.stack != Zero then g.(mid := |g.log|, top := |g.log|) else g;
  }

  lemma WakesFront(s: State, g: View, c: nat)
    requires Shape(s, g) && c < |s.ctls| && s.ctls[c] != Finished
    ensures s.ctls[c].Wake? ==> g.lo < |g.log| && s.ctls[c].head == Node(g.log[g.lo])
  {
    ControllerIsLatest(s, c);
  }

  lemma ShapeStep(s: State, g: View, a: Action) returns (g': View)
    requires Shape(s, g) && Enabled(s, a)
    ensures Shape(Step(s, a), g') && !Step(s, a).crashed && OneController(s)
    ensures a.Control? && s.ctls[a.c].Reverse? ==> g'.mid < g.mid
    ensures g'.log == g.log + Pushes(s, a)
    ensures g'.lo == g.lo + |Wakes(s, a)| <= |g.log| && g.log[..g'.lo] == g.log[..g.lo] + Wakes(s, a)
  {
    hide Linked, Sleepers, OneController, StepControl;
    g' := g;
    match a
    case Control(c) =>
      g' := ShapeControl(s, g, c);
      WakesFront(s, g, c);
    case Release(_, update) => ShapeRelease(s, g, update);
    case CasStack(t, spurious) =>
      if s.stack == s.pc[t].previous && !spurious {
        ShapePush(s, g, t);
        g' := g.(log := g.log + [t]);
      } else {
        ShapeOutside(s, Step(s, a), g, t);
      }
    case ReuseNode(t, junk) =>
      assert s.pc == s.pc[t := s.pc[t]];
      ShapeOutside(s, Step(s, a), g, t);
    case _ =>
      assert s.next == s.next[a.t := s.next[a.t]];
      ShapeOutside(s, Step(s, a), g, a.t);
  }

  // ---------------------------------------------------------------------------------------------
  // Every step keeps the books

  /** 1 when the step hands out a permit, at once or by resuming a waiter. */
  function Grants(s: State, a: Action): nat
    requires Enabled(s, a)
  {
    match a
    case CasActive(t, spurious) => if s.active == s.pc[t].result && !spurious then 1 else 0
    case Control(c) => if s.ctls[c].Wake? then 1 else 0
    case _ => 0
  }

  function Book(s: State, a: Action, l: Ledger): Ledger
    requires Enabled(s, a)
  {
    l.(grants := l.grants + Grants(s, a), released := l.released + if a.Release? then a.update else 0)
  }

  /** The coroutine that the step puts on the stack, and the one that it resumes. */
  function Pushes(s: State, a: Action): seq<nat>
    requires Enabled(s, a)
  {
    if a.CasStack? && s.stack == s.pc[a.t].previous && !a.spurious then [a.t] else []
  }

  function Wakes(s: State, a: Action): seq<nat>
    requires Enabled(s, a)
  {
    if a.Control? && s.ctls[a.c].Wake? && s.ctls[a.c].head.Node? then [s.ctls[a.c].head.id] else []
  }

  /** A coroutine can only be about to take a permit that it saw to be positive. */
  ghost predicate SawPositive(s: State) {
    forall t :: 0 <= t < |s.pc| ==>
      && (s.pc[t].AcquireCas? ==> s.pc[t].result > 0)
      && (s.pc[t].TryCas? ==> s.pc[t].result > 0)
  }

  ghost predicate Inv(s: State, g: View, l: Ledger) { Shape(s, g) && SawPositive(s) && Balanced(s, l) }

  lemma BalancedControl(s: State, l: Ledger, c: nat)
    requires Balanced(s, l) && OneController(s) && Enabled(s, Control(c)) && !StepControl(s, c).crashed
    requires s.ctls[c].AddFor? ==> Waiters(s) > 0
    ensures Balanced(StepControl(s, c), Book(s, Control(c), l))
  {
    ControllerIsLatest(s, c);
    hide OneController;
    var s' := StepControl(s, c);
    assert Current(s') == s'.ctls[c];
    if s.ctls[c].Wake? {
      CountUpdate(s.pc, s.ctls[c].head.id, Granted, Announced);
    } else {
      assert s'.pc == s.pc;
    }
  }

  /** A waiter that the controller has popped is still counted as waiting. */
  lemma PoppedWaits(s: State, g: View, c: nat)
    requires Shape(s, g) && c < |s.ctls| && s.ctls[c].AddFor?
    ensures Waiters(s) > 0
  {
    ControllerIsLatest(s, c);
    assert Announced(s.pc[g.log[g.lo]]);
    CountPositive(s.pc, Announced);
  }

  lemma SawPositiveStep(s: State, a: Action)
    requires SawPositive(s) && Enabled(s, a)
    ensures SawPositive(Step(s, a))
  {
  }

  /** What a coroutine's own step does to the counters. */
  lemma CoroutineEffect(s: State, a: Action)
    requires Enabled(s, a) && !a.Control?
    ensures var s' := Step(s, a);
      && Waiters(s') == Waiters(s) + (if a.FetchSub? then 1 else 0)
      && s'.active == s.active - (if a.FetchSub? then 1 else Grants(s, a))
      && s'.releases == s.releases + (if a.Release? then a.update else 0)
      && (!a.Release? ==> Current(s') == Current(s))
  {
    var s' := Step(s, a);
    hide Count;
    PcEffect(s, a);
    CountUpdate(s.pc, a.t, s'.pc[a.t], Announced);
    hide Announced;
  }

  /** A coroutine's own step moves nobody else, and only a fetch_sub announces it as a waiter. */
  lemma PcEffect(s: State, a: Action)
    requires Enabled(s, a) && !a.Control?
    ensures |Step(s, a).pc| == |s.pc| && Step(s, a).pc == s.pc[a.t := Step(s, a).pc[a.t]]
    ensures Announced(Step(s, a).pc[a.t]) <==> Announced(s.pc[a.t]) || a.FetchSub?
    ensures a.FetchSub? ==> !Announced(s.pc[a.t])
  {
    assert Step(s, a).pc == s.pc[a.t := Step(s, a).pc[a.t]];
  }

  lemma BalancedOther(s: State, l: Ledger, a: Action)
    requires Balanced(s, l) && SawPositive(s) && OneController(s) && Enabled(s, a) && !a.Control?
    ensures Balanced(Step(s, a), Book(s, a, l))
  {
    CoroutineEffect(s, a);
    var s' := Step(s, a);
    assert Grants(s, a) == 1 ==> s.active > 0;
    assert a.Release? ==> Owed(Current(s')) == Owed(Current(s)) && Added(Current(s')) == Added(Current(s));
    hide Step, SawPositive, OneController;
  }

  lemma {:induction false} StepKeeps(s: State, g: View, l: Ledger, a: Action) returns (g': View)
    requires Inv(s, g, l) && Enabled(s, a)
    ensures Inv(Step(s, a), g', Book(s, a, l))
    ensures a.Control? && s.ctls[a.c].Reverse? ==> g'.mid < g.mid
    ensures g'.log == g.log + Pushes(s, a)
    ensures g'.lo == g.lo + |Wakes(s, a)| <= |g.log| && g.log[..g'.lo] == g.log[..g.lo] + Wakes(s, a)
  {
    hide Shape, Balanced, SawPositive;
    g' := ShapeStep(s, g, a);
    SawPositiveStep(s, a);
    if a.Control? {
      if s.ctls[a.c].AddFor? { PoppedWaits(s, g, a.c); }
      BalancedControl(s, l, a.c);
    } else {
      BalancedOther(s, l, a);
    }
  }

  // ---------------------------------------------------------------------------------------------
  // Whole runs

  ghost predicate Runs(s: State, acts: seq<Action>)
    decreases |acts|, 0
  {
    acts == [] || (Runs(s, acts[..|acts| - 1]) && Enabled(After(s, acts[..|acts| - 1]), acts[|acts| - 1]))
  }

  ghost function After(s: State, acts: seq<Action>): State
    requires Runs(s, acts)
    decreases |acts|, 1
  {
    if acts == [] then s else Step(After(s, acts[..|acts| - 1]), acts[|acts| - 1])
  }

  /** The permits a run starts with, the units it releases and the permits it grants. */
  ghost function Books(s: State, acts: seq<Action>): Ledger
    requires Runs(s, acts)
    decreases |acts|
  {
    if acts == [] then Ledger(s.active, 0, 0)
    else Book(After(s, acts[..|acts| - 1]), acts[|acts| - 1], Books(s, acts[..|acts| - 1]))
  }

  /** Everybody a run pushed, in order, and everybody it resumed, in order. */
  ghost function AllPushes(s: State, acts: seq<Action>): seq<nat>
    requires Runs(s, acts)
    decreases |acts|
  {
    if acts == [] then []
    else AllPushes(s, acts[..|acts| - 1]) + Pushes(After(s, acts[..|acts| - 1]), acts[|acts| - 1])
  }

  ghost function AllWakes(s: State, acts: seq<Action>): seq<nat>
    requires Runs(s, acts)
    decreases |acts|
  {
    if acts == [] then []
    else AllWakes(s, acts[..|acts| - 1]) + Wakes(After(s, acts[..|acts| - 1]), acts[|acts| - 1])
  }

  lemma {:induction false} RunKeeps(s: State, acts: seq<Action>) returns (g: View)
    requires Init(s) && Runs(s, acts)
    ensures Inv(After(s, acts), g, Books(s, acts))
    ensures g.lo <= |g.log| && g.log == AllPushes(s, acts) && g.log[..g.lo] == AllWakes(s, acts)
    decreases |acts|
  {
    hide Step, Enabled, Book, Pushes, Wakes, Inv;
    if acts == [] {
      g := InitView(s);
    } else {
      var n := |acts| - 1;
      var g0 := RunKeeps(s, acts[..n]);
      g := StepKeeps(After(s, acts[..n]), g0, Books(s, acts[..n]), acts[n]);
      assert g.log[..g.lo] == g0.log[..g.lo];
    }
  }

  lemma InitView(s: State) returns (g: View)
    requires Init(s)
    ensures Inv(s, g, Ledger(s.active, 0, 0)) && g == View([], 0, 0, 0)
  {
    g := View([], 0, 0, 0);
    NobodyWaits(s);
  }

  lemma NobodyWaits(s: State)
    requires Init(s)
    ensures Waiters(s) == 0
  {
    CountPositive(s.pc, Announced);
  }

  /** Conservation over every run: permits are neither made nor lost.  What is available or promised to
      announced waiters, plus what was granted, is what the run started with plus the releases processed;
      so grants never exceed the permits there are.  Waiters are resumed in the order they pushed. */
  lemma {:induction false} RunsConserve(s: State, acts: seq<Action>)
    requires Init(s) && Runs(s, acts)
    ensures var c, b := After(s, acts), Books(s, acts);
      && !c.crashed
      && c.active + Waiters(c) + b.grants == b.start + b.released - c.releases + Added(Current(c))
      && c.active + Waiters(c) >= 0
      && b.grants <= b.start + b.released
      && AllWakes(s, acts) <= AllPushes(s, acts)
  {
    var g := RunKeeps(s, acts);
    hide After, Books, Runs, AllWakes, AllPushes, Linked, Sleepers, SawPositive, OneController;
  }

  /** In every reachable state one control() runs if release_count_ is positive and none otherwise. */
  lemma {:induction false} RunsHaveOneController(s: State, acts: seq<Action>)
    requires Init(s) && Runs(s, acts)
    ensures var c := After(s, acts);
      && (forall i, j :: 0 <= i < |c.ctls| && 0 <= j < |c.ctls| && c.ctls[i] != Finished && c.ctls[j] != Finished ==> i == j)
      && ((exists i :: 0 <= i < |c.ctls| && c.ctls[i] != Finished) <==> c.releases > 0)
  {
    var g := RunKeeps(s, acts);
    hide After, Runs, Books, AllWakes, AllPushes, SawPositive, Linked, Sleepers, Balanced, OneController;
    ControllersUnique(After(s, acts));
  }

  lemma ControllersUnique(c: State)
    requires OneController(c)
    ensures forall i, j :: 0 <= i < |c.ctls| && 0 <= j < |c.ctls| && c.ctls[i] != Finished && c.ctls[j] != Finished ==> i == j
    ensures (exists i :: 0 <= i < |c.ctls| && c.ctls[i] != Finished) <==> c.releases > 0
  {
    if c.releases > 0 {
      assert c.ctls[|c.ctls| - 1] != Finished;
    }
  }

  /** A controller that retries after it has seen a negative count has an announced waiter to wait for: when
      it finds the stack empty, somebody has counted itself down and not pushed yet. */
  lemma {:induction false} RetryIsJustified(s: State, acts: seq<Action>)
    requires Init(s) && Runs(s, acts)
    ensures var c := After(s, acts);
      && (Owed(Current(c)) == 1 ==> exists t :: 0 <= t < |c.pc| && Announced(c.pc[t]))
      && (Current(c) == Detach(true) && c.stack == Zero ==>
            exists t :: 0 <= t < |c.pc| && (c.pc[t] == PushLoad || c.pc[t].PushCas?))
  {
    var g := RunKeeps(s, acts);
    hide After, Runs, Books, AllWakes, AllPushes;
    var c := After(s, acts);
    CountPositive(c.pc, Announced);
    EmptyLists(c, g);
    hide Shape, SawPositive;
    if Current(c) == Detach(true) && c.stack == Zero {
      var t :| 0 <= t < |c.pc| && Announced(c.pc[t]);
    }
  }

  lemma EmptyLists(c: State, g: View)
    requires Shape(c, g)
    ensures Current(c).Detach? && c.stack == Zero ==> forall t :: 0 <= t < |c.pc| ==> c.pc[t] != Parked
  {
    hide OneController;
    assert forall t :: 0 <= t < |c.pc| && c.pc[t] == Parked ==> Queued(g.log, g.lo, t);
  }

  // ---------------------------------------------------------------------------------------------
  // Permits that lie idle

  /** No permit is free while somebody announced waits for one (beyond the one already owed to him). */
  ghost predicate Thrifty(s: State) {
    s.active + Waiters(s) > Owed(Current(s)) ==> Waiters(s) == Owed(Current(s))
  }

  /** The one step that can waste a permit is the fetch_sub in await_suspend(), and it does so exactly when
      a permit has become available since the load before it. */
  lemma ThriftyStep(s: State, g: View, l: Ledger, a: Action)
    requires Inv(s, g, l) && Enabled(s, a) && Thrifty(s)
    ensures Thrifty(Step(s, a)) <==> (a.FetchSub? ==> s.active <= 0)
  {
    hide Shape, Balanced, SawPositive, Thrifty;
    var g' := ShapeStep(s, g, a);
    if a.Control? {
      if s.ctls[a.c].AddFor? { PoppedWaits(s, g, a.c); }
      ThriftyControl(s, l, a.c);
    } else {
      ThriftyCoroutine(s, l, a);
    }
  }

  lemma ThriftyCoroutine(s: State, l: Ledger, a: Action)
    requires Balanced(s, l) && SawPositive(s) && OneController(s) && Enabled(s, a) && !a.Control? && Thrifty(s)
    ensures Thrifty(Step(s, a)) <==> (a.FetchSub? ==> s.active <= 0)
  {
    CoroutineEffect(s, a);
    var s' := Step(s, a);
    assert Grants(s, a) == 1 ==> s.active > 0;
    assert a.Release? ==> Owed(Current(s')) == Owed(Current(s));
    hide Step, SawPositive, OneController;
  }

  lemma ThriftyControl(s: State, l: Ledger, c: nat)
    requires Balanced(s, l) && OneController(s) && Enabled(s, Control(c)) && !StepControl(s, c).crashed && Thrifty(s)
    requires s.ctls[c].AddFor? ==> Waiters(s) > 0
    ensures Thrifty(StepControl(s, c))
  {
    ControllerIsLatest(s, c);
    hide OneController;
    var s' := StepControl(s, c);
    assert Current(s') == s'.ctls[c];
    if s.ctls[c].Wake? {
      CountUpdate(s.pc, s.ctls[c].head.id, Granted, Announced);
    } else {
      assert s'.pc == s.pc;
    }
  }

  /** No state of the run wastes a permit. */
  ghost predicate AlwaysThrifty(s: State, acts: seq<Action>)
    requires Runs(s, acts)
    decreases |acts|
  {
    Thrifty(After(s, acts)) && (acts == [] || AlwaysThrifty(s, acts[..|acts| - 1]))
  }

  /** Every fetch_sub of the run still finds no permit. */
  ghost predicate Punctual(s: State, acts: seq<Action>)
    requires Runs(s, acts)
    decreases |acts|
  {
    acts == [] || (Punctual(s, acts[..|acts| - 1])
                   && (acts[|acts| - 1].FetchSub? ==> After(s, acts[..|acts| - 1]).active <= 0))
  }

  /** Exactly when the split between load and fetch_sub does no harm. */
  lemma {:induction false} ThriftyIffPunctual(s: State, acts: seq<Action>)
    requires Init(s) && Runs(s, acts)
    ensures AlwaysThrifty(s, acts) <==> Punctual(s, acts)
    decreases |acts|
  {
    hide Step, Enabled;
    if acts == [] {
      NobodyWaits(s);
    } else {
      hide Inv, Thrifty;
      var n := |acts| - 1;
      ThriftyIffPunctual(s, acts[..n]);
      if Punctual(s, acts[..n]) {
        var g := RunKeeps(s, acts[..n]);
        ThriftyStep(After(s, acts[..n]), g, Books(s, acts[..n]), acts[n]);
      }
    }
  }

  /** A run that wastes a permit: the only permit is released between the load and the fetch_sub of the only waiter,
      who then sleeps although nobody ever got the permit, and stays asleep until another unit is released. */
  lemma {:induction false} LostPermit() returns (s: State, acts: seq<Action>)
    ensures Init(s) && Runs(s, acts) && !Punctual(s, acts)
    ensures var c, b := After(s, acts), Books(s, acts);
      c.pc == [Parked, Idle] && c.releases == 0 && Current(c) == Finished && b.grants == 0 < b.start + b.released
  {
    hide Runs, After, Books, Punctual;
    s := State(0, 0, Zero, Zero, [Zero, Zero], [Idle, Idle], [], false);
    var c;
    acts, c := LostPermitStart(s);
    acts, c := LostPermitMiddle(s, acts, c);
    acts, c := LostPermitEnd(s, acts, c);
  }

  /** Steps that grant nothing. */
  lemma BookOf(c: State, a: Action, l: Ledger)
    requires Enabled(c, a) && (a.Await? || a.LoadActive? || a.Release?)
    ensures Book(c, a, l) == l.(released := l.released + if a.Release? then a.update else 0)
  {
  }

  lemma LostPermitStart(s: State) returns (acts: seq<Action>, c: State)
    requires s == State(0, 0, Zero, Zero, [Zero, Zero], [Idle, Idle], [], false)
    ensures Runs(s, acts) && After(s, acts) == c && Books(s, acts) == Ledger(0, 1, 0)
    ensures c == State(0, 1, Zero, Zero, [Zero, Zero], [Announce, Idle], [Fetch(false)], false)
  {
    hide Runs, After, Books, Punctual, Book;
    var c0;
    acts, c0 := LostPermitLoad(s);
    BookOf(c0, Release(1, 1), Ledger(0, 0, 0));
    acts, c := Extend(s, acts, c0, Release(1, 1));
    assert c.ctls == [Fetch(false)];
  }

  lemma LostPermitLoad(s: State) returns (acts: seq<Action>, c: State)
    requires s == State(0, 0, Zero, Zero, [Zero, Zero], [Idle, Idle], [], false)
    ensures Runs(s, acts) && After(s, acts) == c && Books(s, acts) == Ledger(0, 0, 0)
    ensures c == s.(pc := [Announce, Idle])
  {
    hide Runs, After, Books, Punctual, Book;
    var c0, c1;
    acts, c0 := Begin(s);
    BookOf(c0, Await(0), Ledger(0, 0, 0));
    acts, c1 := Extend(s, acts, c0, Await(0));
    assert c1.pc == [AcquireLoad, Idle];
    BookOf(c1, LoadActive(0), Ledger(0, 0, 0));
    acts, c := Extend(s, acts, c1, LoadActive(0));
    assert c.pc == [Announce, Idle];
  }

  lemma LostPermitMiddle(s: State, acts: seq<Action>, c: State) returns (acts': seq<Action>, c': State)
    requires Runs(s, acts) && After(s, acts) == c
    requires c == State(0, 1, Zero, Zero, [Zero, Zero], [Announce, Idle], [Fetch(false)], false)
    ensures Runs(s, acts') && After(s, acts') == c' && Books(s, acts') == Books(s, acts)
    ensures c' == State(1, 0, Zero, Zero, [Zero, Zero], [Announce, Idle], [Finished], false)
  {
    hide Runs, After, Books, Punctual;
    acts', c' := Extend(s, acts, c, Control(0));
    acts', c' := Extend(s, acts', c', Control(0));
    assert c'.ctls == [AddIdle];
    acts', c' := Extend(s, acts', c', Control(0));
    acts', c' := Extend(s, acts', c', Control(0));
    assert c'.ctls == [Finished];
  }

  lemma LostPermitEnd(s: State, acts: seq<Action>, c: State) returns (acts': seq<Action>, c': State)
    requires Runs(s, acts) && After(s, acts) == c
    requires c == State(1, 0, Zero, Zero, [Zero, Zero], [Announce, Idle], [Finished], false)
    ensures Runs(s, acts') && After(s, acts') == c' && Books(s, acts') == Books(s, acts) && !Punctual(s, acts')
    ensures c'.pc == [Parked, Idle] && c'.releases == 0 && Current(c') == Finished
  {
    hide Runs, After, Books, Punctual;
    acts', c' := Extend(s, acts, c, FetchSub(0));
    acts', c' := Extend(s, acts', c', LoadStack(0));
    acts', c' := Extend(s, acts', c', CasStack(0, false));
    assert c'.pc == [Parked, Idle];
  }

  lemma Begin(s: State) returns (acts: seq<Action>, c: State)
    requires Init(s)
    ensures Runs(s, acts) && After(s, acts) == c == s && Books(s, acts) == Ledger(s.active, 0, 0) && Punctual(s, acts)
  {
    acts, c := [], s;
  }

  /** One more step of a run under construction. */
  lemma Extend(s: State, acts: seq<Action>, c: State, a: Action) returns (acts': seq<Action>, c': State)
    requires Runs(s, acts) && After(s, acts) == c && Enabled(c, a)
    ensures Runs(s, acts') && After(s, acts') == c' == Step(c, a)
    ensures Books(s, acts') == Book(c, a, Books(s, acts))
    ensures Punctual(s, acts') <==> Punctual(s, acts) && (a.FetchSub? ==> c.active <= 0)
  {
    acts', c' := acts + [a], Step(c, a);
    assert acts'[..|acts' | - 1] == acts;
  }

  // ---------------------------------------------------------------------------------------------
  // Who has a permit

  /** Inside co_await: it has not returned yet. */
  predicate Awaiting(p: Pc) {
    p == AcquireLoad || p.AcquireCas? || p == Announce || p == PushLoad || p.PushCas? || p == Parked || p == Granted
  }

  /** The step grants a permit to coroutine `u`, at once or by resuming it. */
  function GrantedTo(s: State, a: Action, u: nat): nat
    requires Enabled(s, a)
  {
    if (a.CasActive? && a.t == u && Grants(s, a) == 1) || u in Wakes(s, a) then 1 else 0
  }

  /** A call of coroutine `u` comes back: co_await returns, or try_aquire() is about to return true. */
  function Obtains(s: State, a: Action, u: nat): nat
    requires Enabled(s, a) && u < |s.pc|
  {
    var p, p' := s.pc[u], if u < |Step(s, a).pc| then Step(s, a).pc[u] else Idle;
    if (Awaiting(p) && !Awaiting(p')) || (p' == Answered(true) && p != Answered(true)) then 1 else 0
  }

  /** co_await ends only in a return, try_aquire() only in an answer; and both go on until then. */
  lemma StaysInside(s: State, a: Action, u: nat)
    requires Enabled(s, a) && u < |s.pc|
    ensures |Step(s, a).pc| == |s.pc|
    ensures Awaiting(s.pc[u]) || a == Await(u) ==> Awaiting(Step(s, a).pc[u]) || Step(s, a).pc[u] == Idle
    ensures a == Await(u) ==> Awaiting(Step(s, a).pc[u])
    ensures s.pc[u] == TryLoad || s.pc[u].TryCas? || a == TryStart(u) ==>
      Step(s, a).pc[u] == TryLoad || Step(s, a).pc[u].TryCas? || Step(s, a).pc[u].Answered?
  {
  }

  function Pending(p: Pc): nat { if p == Granted then 1 else 0 }

  /** Whoever comes back with success has been granted a permit in the same step, or by the controller before; and
      whoever is granted one comes back, or is about to. */
  lemma ObtainsGranted(s: State, g: View, a: Action, u: nat)
    requires Shape(s, g) && Enabled(s, a) && u < |s.pc|
    ensures u < |Step(s, a).pc|
    ensures GrantedTo(s, a, u) + Pending(s.pc[u]) == Obtains(s, a, u) + Pending(Step(s, a).pc[u])
  {
    hide Shape;
    if a.Control? { ObtainsControl(s, g, a.c, u); } else { ObtainsOwn(s, a, u); }
  }

  lemma ObtainsControl(s: State, g: View, c: nat, u: nat)
    requires Shape(s, g) && Enabled(s, Control(c)) && u < |s.pc|
    ensures u < |Step(s, Control(c)).pc|
    ensures GrantedTo(s, Control(c), u) + Pending(s.pc[u])
         == Obtains(s, Control(c), u) + Pending(Step(s, Control(c)).pc[u])
  {
    ControlPc(s, g, c);
    hide Step, Shape;
  }

  /** The controller moves nobody but the one it wakes. */
  lemma ControlPc(s: State, g: View, c: nat)
    requires Shape(s, g) && Enabled(s, Control(c))
    ensures s.ctls[c].Wake? ==>
      && s.ctls[c].head.Node? && s.ctls[c].head.id < |s.pc| && s.pc[s.ctls[c].head.id] == Parked
      && Step(s, Control(c)).pc == s.pc[s.ctls[c].head.id := Granted]
    ensures !s.ctls[c].Wake? ==> Step(s, Control(c)).pc == s.pc
  {
    hide Shape;
    if s.ctls[c].Wake? {
      var g' := ShapeWake(s, g, c);
    } else {
      QuietPc(s, c);
    }
  }

  lemma QuietPc(s: State, c: nat)
    requires Enabled(s, Control(c)) && !s.ctls[c].Wake?
    ensures Step(s, Control(c)).pc == s.pc
  {
    hide Live;
  }

  lemma ObtainsOwn(s: State, a: Action, u: nat)
    requires Enabled(s, a) && !a.Control? && u < |s.pc|
    ensures u < |Step(s, a).pc|
    ensures GrantedTo(s, a, u) + Pending(s.pc[u]) == Obtains(s, a, u) + Pending(Step(s, a).pc[u])
  {
    PcEffect(s, a);
    if u != a.t {
      hide Step;
    }
  }

  ghost function AllGrantedTo(s: State, acts: seq<Action>, u: nat): nat
    requires Runs(s, acts)
    decreases |acts|
  {
    if acts == [] then 0
    else AllGrantedTo(s, acts[..|acts| - 1], u) + GrantedTo(After(s, acts[..|acts| - 1]), acts[|acts| - 1], u)
  }

  ghost function AllObtained(s: State, acts: seq<Action>, u: nat): nat
    requires Runs(s, acts)
    decreases |acts|
  {
    if acts == [] then 0
    else
      var c := After(s, acts[..|acts| - 1]);
      AllObtained(s, acts[..|acts| - 1], u) + if u < |c.pc| then Obtains(c, acts[|acts| - 1], u) else 0
  }

  lemma SizeStays(s: State, a: Action)
    requires Enabled(s, a)
    ensures |Step(s, a).pc| == |s.pc|
  {
  }

  lemma {:induction false} SizesStay(s: State, acts: seq<Action>)
    requires Runs(s, acts)
    ensures |After(s, acts).pc| == |s.pc|
    decreases |acts|
  {
    if acts != [] {
      hide Step, Enabled;
      SizesStay(s, acts[..|acts| - 1]);
      SizeStays(After(s, acts[..|acts| - 1]), acts[|acts| - 1]);
    }
  }

  /** Nobody gets on without a permit.  Over every run, and for each coroutine, the calls of co_await and try_aquire()
      that came back with success are as many as the permits granted to it, but for the one it is about to wake with. */
  lemma {:induction false} ObtainedIsGranted(s: State, acts: seq<Action>, u: nat)
    requires Init(s) && Runs(s, acts) && u < |s.pc|
    ensures u < |After(s, acts).pc|
    ensures AllGrantedTo(s, acts, u) == AllObtained(s, acts, u) + Pending(After(s, acts).pc[u])
    decreases |acts|
  {
    SizesStay(s, acts);
    if acts != [] {
      var n := |acts| - 1;
      SizesStay(s, acts[..n]);
      ObtainedIsGranted(s, acts[..n], u);
      var g := RunKeeps(s, acts[..n]);
      hide Step, Enabled, Obtains, GrantedTo, Pending, SawPositive, Balanced, Shape;
      ObtainsGranted(After(s, acts[..n]), g, acts[n], u);
    }
  }
}
