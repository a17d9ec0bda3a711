/** The binary semaphore and the mutex built on it: a direct-handoff FIFO lock whose whole shared
    state is one atomic word (`resuming_`) and one plain pointer (`transfer_`). */
module BinarySemaphore {
  import opened Lists

  /** Where one coroutine is in the semaphore's code.  Coroutine `t` owns the waiter node `t`. */
  datatype Pc =
    | Idle                                  // outside the semaphore, without the permit
    | SuspendLoad                           // suspend(): about to load resuming_
    | SuspendCas(previous: Word)            // suspend(): about to compare-exchange against `previous`
    | Parked                                // suspend() returned true: the coroutine sleeps
    | Granted                               // its resume event is posted, it has not run yet
    | Owner                                 // running with the permit
    | ReleaseCas                            // release(): transfer_ was null, about to compare-exchange
    | ReleaseSwap                           // release(): that failed, about to exchange
    | Reversing(head: Word, rest: Word)     // release(): inside the reversal loop
    | Handing(head: Word)                   // release(): about to unlink and resume `head`

  /** `crashed` records the dereference of something that is not a sleeping waiter's node. */
  datatype State = State(word: Word, transfer: Word, next: seq<Word>, pc: seq<Pc>, crashed: bool)

  datatype Action =
    | TryAcquire(t: nat)
    | AwaitReady(t: nat)
    | Load(t: nat)
    | Cas(t: nat, spurious: bool)
    | Resume(t: nat)
    | MoveGuard(t: nat, to: nat)
    | BeginRelease(t: nat)
    | TryUnlock(t: nat)
    | Swap(t: nat)
    | Reverse(t: nat)
    | Handoff(t: nat)
    | ReuseNode(t: nat, junk: Word)

  predicate Enabled(s: State, a: Action) {
    && a.t < |s.pc| == |s.next|
    && match a
       case TryAcquire(t) => s.pc[t] == Idle
       case AwaitReady(t) => s.pc[t] == Idle
       case Load(t) => s.pc[t] == SuspendLoad
       case Cas(t, _) => s.pc[t].SuspendCas?
       case Resume(t) => s.pc[t] == Granted
       case MoveGuard(t, to) => s.pc[t] == Owner && to < |s.pc| && s.pc[to] == Idle
       case BeginRelease(t) => s.pc[t] == Owner
       case TryUnlock(t) => s.pc[t] == ReleaseCas
       case Swap(t) => s.pc[t] == ReleaseSwap
       case Reverse(t) => s.pc[t].Reversing?
       case Handoff(t) => s.pc[t].Handing?
       // A node that is neither asleep nor being pushed is dead memory: anything may be written there.
       case ReuseNode(t, _) => s.pc[t] != Parked && !s.pc[t].SuspendCas?
  }

  /** `w` is the node of a coroutine that sleeps in the semaphore. */
  predicate Live(s: State, w: Word) {
    w.Node? && w.id < |s.pc| == |s.next| && s.pc[w.id] == Parked
  }

  function Crash(s: State): State { s.(crashed := true) }

  /** try_aquire(): one strong compare-exchange of 0 by the lock flag. */
  function StepTry(s: State, t: nat, onFailure: Pc): State
    requires t < |s.pc|
  {
    if s.word == Zero then s.(word := Flag, pc := s.pc[t := Owner])
    else s.(pc := s.pc[t := onFailure])
  }

  /** One turn of the loop in suspend(): take a free lock, or link in front of the stack. */
  function StepCas(s: State, t: nat, spurious: bool): State
    requires t < |s.pc| == |s.next| && s.pc[t].SuspendCas?
  {
    var previous := s.pc[t].previous;
    var success := s.word == previous && !spurious;
    if previous == Zero then
      if success then s.(word := Flag, pc := s.pc[t := Owner])
      else s.(pc := s.pc[t := SuspendCas(s.word)])
    else
      var linked := s.(next := s.next[t := previous]);
      if success then linked.(word := Node(t), pc := s.pc[t := Parked])
      else linked.(pc := s.pc[t := SuspendCas(s.word)])
  }

  /** One turn of the do-while in release(): move `rest` in front of `head`. */
  function StepReverse(s: State, t: nat): State
    requires t < |s.pc| && s.pc[t].Reversing?
  {
    var Reversing(head, rest) := s.pc[t];
    if !Live(s, rest) then Crash(s)
    else
      var temp := s.next[rest.id];
      s.(next := s.next[rest.id := head],
         pc := s.pc[t := if temp.Node? then Reversing(rest, temp) else Handing(rest)])
  }

  /** The tail of release(): transfer_ takes the rest, the first waiter gets the permit. */
  function StepHandoff(s: State, t: nat): State
    requires t < |s.pc| && s.pc[t].Handing?
  {
    var head := s.pc[t].head;
    if !Live(s, head) then Crash(s)
    else s.(transfer := s.next[head.id], pc := s.pc[t := Idle][head.id := Granted])
  }

  function Step(s: State, a: Action): State
    requires Enabled(s, a)
  {
    match a
    case TryAcquire(t) => StepTry(s, t, Idle)
    case AwaitReady(t) => StepTry(s, t, SuspendLoad)
    case Load(t) => s.(pc := s.pc[t := SuspendCas(s.word)])
    case Cas(t, spurious) => StepCas(s, t, spurious)
    case Resume(t) => s.(pc := s.pc[t := Owner])
    case MoveGuard(t, to) => s.(pc := s.pc[t := Idle][to := Owner])
    case BeginRelease(t) =>
      s.(pc := s.pc[t := if s.transfer == Zero then ReleaseCas else Handing(s.transfer)])
    case TryUnlock(t) =>
      if s.word == Flag then s.(word := Zero, pc := s.pc[t := Idle])
      else s.(pc := s.pc[t := ReleaseSwap])
    case Swap(t) => s.(word := Flag, pc := s.pc[t := Reversing(Zero, s.word)])
    case Reverse(t) => StepReverse(s, t)
    case Handoff(t) => StepHandoff(s, t)
    case ReuseNode(t, junk) => s.(next := s.next[t := junk])
  }

  predicate OnlyOwner(s: State, o: nat)
    requires o < |s.pc|
  {
    s.pc[o] == Owner && forall t :: 0 <= t < |s.pc| && t != o ==> s.pc[t] == Idle
  }

  /** Both constructors: unlocked, or locked with somebody due to release it. */
  predicate Init(s: State) {
    && |s.pc| == |s.next| && s.transfer == Zero && !s.crashed
    && (if s.word == Zero then forall t :: 0 <= t < |s.pc| ==> s.pc[t] == Idle
        else s.word == Flag && exists o :: 0 <= o < |s.pc| && OnlyOwner(s, o))
  }

  // ---------------------------------------------------------------------------------------------
  // The abstract lock

  datatype Holder = Nobody | Holder(t: nat)

  /** A FIFO lock with direct handoff: who has it, everybody who ever queued in order of arrival, and
      how many of those have been granted the permit out of the queue. */
  datatype FifoLock = FifoLock(holder: Holder, pushed: seq<nat>, granted: nat)

  /** What can happen to the lock. */
  datatype Event = Silent | Take(t: nat) | Join(t: nat) | Pass(t: nat) | Hand | Free

  /** When an event may happen: only `Take` lets a newcomer in, and only when nobody has the lock and
      nobody queues for it; the lock is freed only when nobody queues. */
  predicate CanHappen(l: FifoLock, e: Event) {
    && l.granted <= |l.pushed|
    && match e
       case Silent => true
       case Take(_) => l.holder == Nobody && l.granted == |l.pushed|
       case Join(_) => l.holder != Nobody
       case Pass(_) => l.holder != Nobody
       case Hand => l.holder != Nobody && l.granted < |l.pushed|
       case Free => l.holder != Nobody && l.granted == |l.pushed|
  }

  /** What an event does: `Hand` always serves the longest waiting coroutine. */
  function Happen(l: FifoLock, e: Event): FifoLock
    requires CanHappen(l, e)
  {
    match e
    case Silent => l
    case Take(t) => l.(holder := Holder(t))
    case Join(t) => l.(pushed := l.pushed + [t])
    case Pass(t) => l.(holder := Holder(t))
    case Hand => l.(holder := Holder(l.pushed[l.granted]), granted := l.granted + 1)
    case Free => l.(holder := Nobody)
  }

  ghost predicate LockStep(l: FifoLock, e: Event, m: FifoLock) { CanHappen(l, e) && m == Happen(l, e) }

  /** The event that a step of the code stands for. */
  function EventOf(s: State, a: Action): Event
    requires Enabled(s, a)
  {
    match a
    case TryAcquire(t) => if s.word == Zero then Take(t) else Silent
    case AwaitReady(t) => if s.word == Zero then Take(t) else Silent
    case Cas(t, spurious) =>
      if s.word != s.pc[t].previous || spurious then Silent else if s.word == Zero then Take(t) else Join(t)
    case MoveGuard(_, to) => Pass(to)
    case TryUnlock(_) => if s.word == Flag then Free else Silent
    case Handoff(_) => Hand
    case _ => Silent
  }

  // ---------------------------------------------------------------------------------------------
  // The simulation

  /** What the pointers mean.  The waiters are `lock.pushed[lock.granted..]`, cut in three: up to `mid`
      lies the part of a detached stack still to be reversed, up to `top` the part already linked in
      arrival order, and from `top` on the stack that hangs off the word, newest first. */
  datatype View = View(lock: FifoLock, mid: nat, top: nat)

  /** The states in which a coroutine has the permit, in-flight handoffs included. */
  predicate HasPermit(p: Pc) {
    p == Owner || p == Granted || p == ReleaseCas || p == ReleaseSwap || p.Reversing? || p.Handing?
  }

  /** At most one coroutine has the permit, and it is the holder. */
  ghost predicate Exclusive(pc: seq<Pc>, h: Holder) {
    forall t :: 0 <= t < |pc| ==> (HasPermit(pc[t]) <==> h == Holder(t))
  }

  predicate Asleep(p: Pc) { p == Parked }

  ghost predicate Linked(s: State, g: View)
    requires |s.pc| == |s.next|
    requires g.lock.granted <= g.mid <= g.top <= |g.lock.pushed|
  {
    var log, lo, hi := g.lock.pushed, g.lock.granted, |g.lock.pushed|;
    if g.lock.holder == Nobody then
      s.word == Zero && s.transfer == Zero && lo == hi
    else
      && g.lock.holder.t < |s.pc|
      && Backward(s.next, log, g.top, hi, s.word, Flag)
      && match s.pc[g.lock.holder.t]
         case Owner => g.mid == lo && Forward(s.next, log, lo, g.top, s.transfer)
         case Granted => g.mid == lo && Forward(s.next, log, lo, g.top, s.transfer)
         case ReleaseCas => g.top == lo && s.transfer == Zero
         case ReleaseSwap => g.top == lo && s.transfer == Zero && lo < hi
         case Reversing(head, rest) =>
           && s.transfer == Zero && lo < g.mid
           && Forward(s.next, log, g.mid, g.top, head) && Backward(s.next, log, lo, g.mid, rest, Flag)
         case Handing(head) => g.mid == lo < g.top && Forward(s.next, log, lo, g.top, head)
         case _ => false
  }

  ghost predicate Inv(s: State, g: View) {
    && |s.pc| == |s.next| && !s.crashed
    && g.lock.granted <= g.mid <= g.top <= |g.lock.pushed|
    && Exclusive(s.pc, g.lock.holder) && Sleepers(s.pc, Asleep, g.lock.pushed, g.lock.granted) && Linked(s, g)
  }

  /** The lock as it is constructed. */
  ghost function Fresh(s: State): FifoLock
    requires Init(s)
  {
    FifoLock(if s.word == Zero then Nobody else var o :| 0 <= o < |s.pc| && OnlyOwner(s, o); Holder(o), [], 0)
  }

  lemma InitView(s: State) returns (g: View)
    requires Init(s)
    ensures Inv(s, g) && g.lock == Fresh(s)
  {
    g := View(Fresh(s), 0, 0);
  }

  /** Taking a free lock, by try_aquire() or by the zero branch of suspend(). */
  lemma KeepsTake(s: State, g: View, t: nat) returns (g': View)
    requires Inv(s, g) && t < |s.pc| && s.word == Zero && !HasPermit(s.pc[t]) && s.pc[t] != Parked
    ensures Inv(s.(word := Flag, pc := s.pc[t := Owner]), g') && LockStep(g.lock, Take(t), g'.lock)
  {
    hide Sleepers;
    g' := g.(lock := g.lock.(holder := Holder(t)));
    SleepersFrame(s.pc, Asleep, g.lock.pushed, g.lock.granted, t, Owner);
  }

  /** The lists survive a change of control points away from the holder, of nodes outside the lists,
      and an extension of the log, as long as the stack still hangs off the word. */
  lemma LinkedFrame(s: State, g: View, s': State, g': View)
    requires Inv(s, g) && |s'.pc| == |s'.next| == |s.next| && g.lock.holder != Nobody
    requires g.lock.holder.t < |s.pc| && s'.pc[g.lock.holder.t] == s.pc[g.lock.holder.t]
    requires s'.transfer == s.transfer && g' == g.(lock := g.lock.(pushed := g'.lock.pushed))
    requires g.lock.pushed <= g'.lock.pushed
    requires forall i :: g.lock.granted <= i < |g.lock.pushed| ==>
      s'.next[g.lock.pushed[i]] == s.next[g.lock.pushed[i]]
    requires Backward(s'.next, g'.lock.pushed, g.top, |g'.lock.pushed|, s'.word, Flag)
    ensures Linked(s', g')
  {
    hide Forward, Backward, Exclusive;
    var log, log', lo := g.lock.pushed, g'.lock.pushed, g.lock.granted;
    match s.pc[g.lock.holder.t]
    case Owner => ForwardFrame(s.next, s'.next, log, log', lo, g.top, s.transfer);
    case Granted => ForwardFrame(s.next, s'.next, log, log', lo, g.top, s.transfer);
    case Reversing(head, rest) =>
      ForwardFrame(s.next, s'.next, log, log', g.mid, g.top, head);
      BackwardFrame(s.next, s'.next, log, log', lo, g.mid, rest, Flag);
    case Handing(head) => ForwardFrame(s.next, s'.next, log, log', lo, g.top, head);
    case _ =>
  }

  /** suspend() linking the node in front of the stack. */
  lemma KeepsPush(s: State, g: View, t: nat) returns (g': View)
    requires Inv(s, g) && t < |s.pc| && s.pc[t] == SuspendCas(s.word) && s.word != Zero
    ensures Inv(StepCas(s, t, false), g') && LockStep(g.lock, Join(t), g'.lock)
  {
    hide Sleepers, Forward, Backward;
    var log := g.lock.pushed;
    g' := g.(lock := g.lock.(pushed := log + [t]));
    SleepersPush(s.pc, Asleep, log, g.lock.granted, t, Parked);
    BackwardPush(s.next, log, g.top, s.word, Flag, t);
    LinkedFrame(s, g, StepCas(s, t, false), g');
  }

  lemma AsleepAt(s: State, g: View, i: nat)
    requires Inv(s, g) && g.lock.granted <= i < |g.lock.pushed|
    ensures g.lock.pushed[i] < |s.pc| && s.pc[g.lock.pushed[i]] == Parked
  {
    hide Linked, Exclusive;
  }

  lemma SleepersDistinct(s: State, g: View)
    requires Inv(s, g)
    ensures DistinctFrom(g.lock.pushed, g.lock.granted)
  {
    hide Linked, Exclusive;
  }

  lemma KeepsReverse(s: State, g: View, t: nat) returns (g': View)
    requires Inv(s, g) && Enabled(s, Reverse(t))
    ensures Inv(StepReverse(s, t), g') && g'.lock == g.lock && g'.mid == g.mid - 1
  {
    hide Forward, Backward, Sleepers;
    var l, head, rest := g.lock, s.pc[t].head, s.pc[t].rest;
    assert l.holder == Holder(t);
    g' := g.(mid := g.mid - 1);
    AsleepAt(s, g, g.mid - 1);
    SleepersDistinct(s, g);
    ReverseChains(s.next, l.pushed, l.granted, g.mid, g.top, s.word, head, rest);
    SleepersFrame(s.pc, Asleep, l.pushed, l.granted, t, StepReverse(s, t).pc[t]);
  }

  lemma ReverseChains(next: seq<Word>, log: seq<nat>, lo: nat, mid: nat, top: nat, w: Word, head: Word, rest: Word)
    requires lo < mid <= top <= |log| && DistinctFrom(log, lo)
    requires Forward(next, log, mid, top, head) && Backward(next, log, lo, mid, rest, Flag)
    requires Backward(next, log, top, |log|, w, Flag)
    ensures rest == Node(log[mid - 1]) && rest.id < |next|
    ensures Forward(next[rest.id := head], log, mid - 1, top, rest)
    ensures Backward(next[rest.id := head], log, lo, mid - 1, next[rest.id], Flag)
    ensures Backward(next[rest.id := head], log, top, |log|, w, Flag)
    ensures next[rest.id].Node? <==> lo < mid - 1
  {
    ReverseOne(next, log, lo, mid, top, head, rest, Flag);
    BackwardFrame(next, next[rest.id := head], log, log, top, |log|, w, Flag);
    BackwardHead(next[rest.id := head], log, lo, mid - 1, next[rest.id], Flag);
  }

  lemma KeepsHandoff(s: State, g: View, t: nat) returns (g': View)
    requires Inv(s, g) && Enabled(s, Handoff(t))
    ensures Inv(StepHandoff(s, t), g') && LockStep(g.lock, Hand, g'.lock)
  {
    hide Forward, Backward;
    var l := g.lock;
    assert l.holder == Holder(t);
    var n := l.pushed[l.granted];
    g' := View(l.(holder := Holder(n), granted := l.granted + 1), g.mid + 1, g.top);
    ForwardPop(s.next, l.pushed, l.granted, g.top, s.pc[t].head);
    hide Sleepers;
    SleepersFrame(s.pc, Asleep, l.pushed, l.granted, t, Idle);
    SleepersPop(s.pc[t := Idle], Asleep, l.pushed, l.granted, Granted);
  }

  /** The steps of the holder that leave the queue alone. */
  lemma KeepsHolder(s: State, g: View, a: Action) returns (g': View)
    requires Inv(s, g) && Enabled(s, a)
    requires a.Resume? || a.BeginRelease? || a.TryUnlock? || a.Swap? || a.MoveGuard?
    ensures Inv(Step(s, a), g') && LockStep(g.lock, EventOf(s, a), g'.lock)
  {
    hide Sleepers;
    assert g.lock.holder == Holder(a.t);
    g' := if a.Swap? then View(g.lock, |g.lock.pushed|, |g.lock.pushed|)
          else if a.MoveGuard? then g.(lock := g.lock.(holder := Holder(a.to)))
          else if a.TryUnlock? && s.word == Flag then g.(lock := g.lock.(holder := Nobody))
          else g;
    var p := Step(s, a).pc[a.t];
    SleepersFrame(s.pc, Asleep, g.lock.pushed, g.lock.granted, a.t, p);
    if a.MoveGuard? {
      SleepersFrame(s.pc[a.t := p], Asleep, g.lock.pushed, g.lock.granted, a.to, Owner);
    }
  }

  /** A step of a coroutine outside the queue that only moves its own control point or writes its own node. */
  lemma KeepsOutside(s: State, g: View, t: nat, w: Word, p: Pc)
    requires Inv(s, g) && t < |s.pc| && s.pc[t] != Parked && p != Parked
    requires (!HasPermit(s.pc[t]) && !HasPermit(p)) || p == s.pc[t]
    ensures Inv(s.(next := s.next[t := w], pc := s.pc[t := p]), g)
  {
    hide Forward, Backward;
    var s', l := s.(next := s.next[t := w], pc := s.pc[t := p]), g.lock;
    SleepersFrame(s.pc, Asleep, l.pushed, l.granted, t, p);
    if l.holder != Nobody {
      BackwardFrame(s.next, s'.next, l.pushed, l.pushed, g.top, |l.pushed|, s.word, Flag);
      LinkedFrame(s, g, s', g);
    }
  }

  /** Every step of the code is a step of the FIFO lock, or leaves it alone. */
  lemma {:induction false} StepRefines(s: State, g: View, a: Action) returns (g': View)
    requires Inv(s, g) && Enabled(s, a)
    ensures Inv(Step(s, a), g') && LockStep(g.lock, EventOf(s, a), g'.lock)
  {
    hide Exclusive, Sleepers, Linked;
    g' := g;
    match a {
      case TryAcquire(t) =>
        if s.word == Zero { g' := KeepsTake(s, g, t); }
        else { KeepsOutside(s, g, t, s.next[t], Idle); }
      case AwaitReady(t) =>
        if s.word == Zero { g' := KeepsTake(s, g, t); }
        else { KeepsOutside(s, g, t, s.next[t], SuspendLoad); }
      case Load(t) => KeepsOutside(s, g, t, s.next[t], SuspendCas(s.word));
      case Cas(t, spurious) =>
        var previous := s.pc[t].previous;
        if s.word != previous || spurious {
          var w := if previous == Zero then s.next[t] else previous;
          KeepsOutside(s, g, t, w, SuspendCas(s.word));
        } else if previous == Zero {
          g' := KeepsTake(s, g, t);
        } else {
          g' := KeepsPush(s, g, t);
        }
      case Reverse(t) => g' := KeepsReverse(s, g, t);
      case Handoff(t) => g' := KeepsHandoff(s, g, t);
      case ReuseNode(t, junk) =>
        KeepsOutside(s, g, t, junk, s.pc[t]);
        assert s.pc[t := s.pc[t]] == s.pc;
      case _ => g' := KeepsHolder(s, g, a);
    }
    assert s.next == s.next[a.t := s.next[a.t]];
  }

  // ---------------------------------------------------------------------------------------------
  // Whole runs

  /** `acts` is a run of the code from `s`: any interleaving of any number of coroutines. */
  ghost predicate Runs(s: State, acts: seq<Action>)
    decreases |acts|, 0
  {
    acts == [] || (Runs(s, acts[..|acts| - 1]) && Enabled(After(s, acts[..|acts| - 1]), acts[|acts| - 1]))
  }

  ghost function After(s: State, acts: seq<Action>): State
    requires Runs(s, acts)
    decreases |acts|, 1
  {
    if acts == [] then s else Step(After(s, acts[..|acts| - 1]), acts[|acts| - 1])
  }

  /** The events that a run of the code stands for. */
  ghost function Events(s: State, acts: seq<Action>): seq<Event>
    requires Runs(s, acts)
    decreases |acts|
  {
    if acts == [] then []
    else Events(s, acts[..|acts| - 1]) + [EventOf(After(s, acts[..|acts| - 1]), acts[|acts| - 1])]
  }

  /** `es` is a run of the abstract lock from `l`. */
  ghost predicate LockRuns(l: FifoLock, es: seq<Event>)
    decreases |es|, 0
  {
    es == [] || (LockRuns(l, es[..|es| - 1]) && CanHappen(LockAfter(l, es[..|es| - 1]), es[|es| - 1]))
  }

  ghost function LockAfter(l: FifoLock, es: seq<Event>): FifoLock
    requires LockRuns(l, es)
    decreases |es|, 1
  {
    if es == [] then l else Happen(LockAfter(l, es[..|es| - 1]), es[|es| - 1])
  }

  /** Every run of the code, however interleaved, is a run of the FIFO lock. */
  lemma {:induction false} RunRefines(s: State, acts: seq<Action>) returns (g: View)
    requires Init(s) && Runs(s, acts)
    ensures Inv(After(s, acts), g)
    ensures LockRuns(Fresh(s), Events(s, acts)) && g.lock == LockAfter(Fresh(s), Events(s, acts))
    decreases |acts|
  {
    hide Inv, Enabled, Step, EventOf, CanHappen, Happen;
    if acts == [] {
      g := InitView(s);
    } else {
      var n := |acts| - 1;
      var g0 := RunRefines(s, acts[..n]);
      g := StepRefines(After(s, acts[..n]), g0, acts[n]);
      var es := Events(s, acts);
      assert es[..|es| - 1] == Events(s, acts[..n]);
    }
  }

  /** In every reachable state at most one coroutine has the permit, nothing was dereferenced that was
      not a sleeping waiter, a sleeper never sleeps without somebody having the permit to hand on, and a
      release that goes for the exchange finds a waiter there. */
  lemma {:induction false} RunsAreSafe(s: State, acts: seq<Action>)
    requires Init(s) && Runs(s, acts)
    ensures var c := After(s, acts);
      && !c.crashed
      && (forall t, u :: 0 <= t < |c.pc| && 0 <= u < |c.pc| && HasPermit(c.pc[t]) && HasPermit(c.pc[u]) ==> t == u)
      && (forall t :: 0 <= t < |c.pc| && c.pc[t] == Parked ==> exists u :: 0 <= u < |c.pc| && HasPermit(c.pc[u]))
      && (forall t :: 0 <= t < |c.pc| && c.pc[t] == ReleaseSwap ==> c.word.Node?)
      && ((exists t :: 0 <= t < |c.pc| && HasPermit(c.pc[t])) <==> c.word != Zero)
  {
    var g := RunRefines(s, acts);
    hide Runs, After, LockRuns, LockAfter, Events;
    var c := After(s, acts);
    forall t | 0 <= t < |c.pc| && c.pc[t] == Parked ensures g.lock.holder != Nobody {
      assert Queued(g.lock.pushed, g.lock.granted, t);
    }
    if g.lock.holder != Nobody {
      assert HasPermit(c.pc[g.lock.holder.t]);
    }
  }

  /** Who goes to sleep in this step, and who is woken with the permit. */
  function JoinOf(s: State, a: Action): seq<nat>
    requires Enabled(s, a)
  {
    if EventOf(s, a).Join? then [a.t] else []
  }

  function GrantOf(s: State, a: Action): seq<nat>
    requires Enabled(s, a)
  {
    if a.Handoff? && Live(s, s.pc[a.t].head) then [s.pc[a.t].head.id] else []
  }

  ghost function AllJoins(s: State, acts: seq<Action>): seq<nat>
    requires Runs(s, acts)
    decreases |acts|
  {
    if acts == [] then [] else AllJoins(s, acts[..|acts| - 1]) + JoinOf(After(s, acts[..|acts| - 1]), acts[|acts| - 1])
  }

  ghost function AllGrants(s: State, acts: seq<Action>): seq<nat>
    requires Runs(s, acts)
    decreases |acts|
  {
    if acts == [] then []
    else AllGrants(s, acts[..|acts| - 1]) + GrantOf(After(s, acts[..|acts| - 1]), acts[|acts| - 1])
  }

  /** The coroutine woken by a handoff is the one that has slept longest. */
  lemma HandoffOldest(s: State, g: View, t: nat)
    requires Inv(s, g) && Enabled(s, Handoff(t))
    ensures g.lock.granted < |g.lock.pushed| && GrantOf(s, Handoff(t)) == [g.lock.pushed[g.lock.granted]]
  {
    hide Sleepers, Forward, Backward;
    assert g.lock.holder == Holder(t);
    ForwardPop(s.next, g.lock.pushed, g.lock.granted, g.top, s.pc[t].head);
    AsleepAt(s, g, g.lock.granted);
  }

  /** What a step adds to those who went to sleep and to those who were woken, and to the queue of the lock. */
  lemma HandsOldest(s: State, g: View, a: Action, l: FifoLock)
    requires Inv(s, g) && Enabled(s, a) && LockStep(g.lock, EventOf(s, a), l)
    ensures l.pushed == g.lock.pushed + JoinOf(s, a) && g.lock.granted <= l.granted <= |l.pushed|
    ensures l.pushed[..l.granted] == g.lock.pushed[..g.lock.granted] + GrantOf(s, a)
  {
    if a.Handoff? { HandoffOldest(s, g, a.t); }
    hide Inv;
    EventKinds(s, a);
    LockEffect(g.lock, EventOf(s, a), l);
    hide EventOf, Enabled, CanHappen, Happen;
  }

  /** What an event does to the queue of the lock, and to the part of it that was granted. */
  lemma LockEffect(l: FifoLock, e: Event, m: FifoLock)
    requires LockStep(l, e, m)
    ensures l.granted <= |l.pushed| && l.granted <= m.granted <= |m.pushed|
    ensures m.pushed == l.pushed + if e.Join? then [e.t] else []
    ensures e.Hand? ==> l.granted < |l.pushed| && m.pushed[..m.granted] == l.pushed[..l.granted] + [l.pushed[l.granted]]
    ensures !e.Hand? ==> m.pushed[..m.granted] == l.pushed[..l.granted]
  {
  }

  lemma EventKinds(s: State, a: Action)
    requires Enabled(s, a)
    ensures EventOf(s, a).Hand? <==> a.Handoff?
    ensures EventOf(s, a).Join? ==> EventOf(s, a) == Join(a.t)
  {
  }

  /** The code's own view of the order: in every run the coroutines woken with the permit are the first of those
      that went to sleep, in the same order, and a newcomer takes the permit only when all of them have been woken. */
  lemma {:induction false} WokenInOrder(s: State, acts: seq<Action>) returns (g: View)
    requires Init(s) && Runs(s, acts)
    ensures AllGrants(s, acts) <= AllJoins(s, acts)
    ensures forall a :: Enabled(After(s, acts), a) && EventOf(After(s, acts), a).Take? ==>
      AllGrants(s, acts) == AllJoins(s, acts)
    ensures Inv(After(s, acts), g) && AllJoins(s, acts) == g.lock.pushed && |AllGrants(s, acts)| == g.lock.granted
    decreases |acts|
  {
    hide Inv, Enabled, Step, EventOf, CanHappen, Happen, JoinOf, GrantOf, LockStep;
    if acts == [] {
      g := InitView(s);
    } else {
      var n := |acts| - 1;
      var c := After(s, acts[..n]);
      var g0 := WokenInOrder(s, acts[..n]);
      g := StepRefines(c, g0, acts[n]);
      HandsOldest(c, g0, acts[n], g.lock);
      assert AllGrants(s, acts) == g.lock.pushed[..g.lock.granted];
    }
    forall a | Enabled(After(s, acts), a) && EventOf(After(s, acts), a).Take?
      ensures g.lock.granted == |g.lock.pushed|
    {
      TakesWhenFree(After(s, acts), g, a);
    }
  }

  lemma TakesWhenFree(s: State, g: View, a: Action)
    requires Inv(s, g) && Enabled(s, a) && EventOf(s, a).Take?
    ensures g.lock.granted == |g.lock.pushed|
  {
    var g' := StepRefines(s, g, a);
  }
}
