/** The user-space queue of an event loop: a double-buffered queue that any thread pushes to and one loop drains,
    with an eventfd that only the pusher who finds the queue empty writes to. */
module EventLoop {
  import opened Lists

  type Handle = nat

  /** Where the loop's coroutine run_user_space() is. */
  datatype Loop =
    | Swapping             // about to take the lock and swap the buffers
    | Executing(i: nat)    // about to execute entry `i` of the read buffer, or to clear it
    | Reading              // waiting for the eventfd to be positive
    | Stopped

  /** One thread inside dispatch_user_event(). */
  datatype Dispatcher = Quiet | OwesWake

  datatype State = State(write: seq<Handle>, read: seq<Handle>, size: int, fd: nat, loop: Loop,
                         dispatchers: seq<Dispatcher>)

  datatype Action =
    | Dispatch(d: nat, h: Handle)   // the locked block: push, decide whether to notify, count
    | Wake(d: nat)                  // write to the eventfd
    | Swap                          // the locked block: swap the buffers, reset the count
    | Execute                       // execute_event() of the next entry
    | Clear                         // clear the read buffer and submit the read of the eventfd
    | ReadDone(stop: bool)          // the read completes; go round unless stopped
    | ReadFails                     // the read completes with an error

  predicate Enabled(s: State, a: Action) {
    match a
    case Dispatch(d, _) => d < |s.dispatchers| && s.dispatchers[d] == Quiet
    case Wake(d) => d < |s.dispatchers| && s.dispatchers[d] == OwesWake
    case Swap => s.loop == Swapping
    case Execute => s.loop.Executing? && s.loop.i < |s.read|
    case Clear => s.loop.Executing? && s.loop.i >= |s.read|
    case ReadDone(_) => s.loop == Reading && s.fd > 0
    case ReadFails => s.loop == Reading
  }

  function Step(s: State, a: Action): State
    requires Enabled(s, a)
  {
    match a
    case Dispatch(d, h) =>
      var write' := s.write + [h];
      s.(write := write', size := s.size + 1,
         dispatchers := s.dispatchers[d := if |write'| == 1 then OwesWake else Quiet])
    case Wake(d) => s.(fd := s.fd + 1, dispatchers := s.dispatchers[d := Quiet])
    case Swap => s.(read := s.write, write := s.read, size := 0, loop := Executing(0))
    case Execute => s.(loop := Executing(s.loop.i + 1))
    case Clear => s.(read := [], loop := Reading)
    case ReadDone(stop) => s.(fd := 0, loop := if stop then Stopped else Swapping)
    case ReadFails => s.(loop := Stopped)
  }

  predicate Init(s: State) {
    && s.write == [] && s.read == [] && s.size == 0 && s.fd == 0 && s.loop == Swapping
    && forall d :: 0 <= d < |s.dispatchers| ==> s.dispatchers[d] == Quiet
  }

  /** What the read buffer still holds for execution. */
  function ToExecute(s: State): seq<Handle> {
    if s.loop.Executing? && s.loop.i <= |s.read| then s.read[s.loop.i..] else []
  }

  /** Somebody has seen to it that the loop swaps before it next sleeps. */
  ghost predicate Awake(s: State) {
    s.fd > 0 || s.loop == Swapping || s.loop == Stopped || OwesWake in s.dispatchers
  }

  ghost predicate Inv(s: State) {
    && s.size == |s.write|
    && (s.write != [] ==> Awake(s))
    && (!s.loop.Executing? ==> s.read == [])
    && (s.loop.Executing? ==> s.loop.i <= |s.read|)
  }

  lemma {:induction false} StepKeeps(s: State, a: Action)
    requires Inv(s) && Enabled(s, a)
    ensures Inv(Step(s, a))
  {
    var s' := Step(s, a);
    match a
    case Dispatch(d, _) =>
      if s.write == [] {
        assert s'.dispatchers[d] == OwesWake;
      } else if OwesWake in s.dispatchers {
        var o :| 0 <= o < |s.dispatchers| && s.dispatchers[o] == OwesWake;
        assert s'.dispatchers[o] == OwesWake;
      }
    case Wake(_) =>
    case _ =>
  }

  // ---------------------------------------------------------------------------------------------
  // Whole runs

  ghost predicate Runs(s: State, acts: seq<Action>)
    decreases |acts|, 0
  {
    acts == [] || (Runs(s, acts[..|acts| - 1]) && Enabled(After(s, acts[..|acts| - 1]), acts[|acts| - 1]))
  }

  ghost function After(s: State, acts: seq<Action>): State
    requires Runs(s, acts)
    decreases |acts|, 1
  {
    if acts == [] then s else Step(After(s, acts[..|acts| - 1]), acts[|acts| - 1])
  }

  function DispatchOf(a: Action): seq<Handle> { if a.Dispatch? then [a.h] else [] }

  function ExecuteOf(s: State, a: Action): seq<Handle>
    requires Enabled(s, a)
  {
    if a.Execute? then [s.read[s.loop.i]] else []
  }

  /** Every handle in the order the lock admitted it, and every handle in the order it was executed. */
  ghost function Dispatched(s: State, acts: seq<Action>): seq<Handle>
    decreases |acts|
  {
    if acts == [] then [] else Dispatched(s, acts[..|acts| - 1]) + DispatchOf(acts[|acts| - 1])
  }

  ghost function Executed(s: State, acts: seq<Action>): seq<Handle>
    requires Runs(s, acts)
    decreases |acts|
  {
    if acts == [] then []
    else Executed(s, acts[..|acts| - 1]) + ExecuteOf(After(s, acts[..|acts| - 1]), acts[|acts| - 1])
  }

  /** Executing the next entry takes it off the front of what is still to be executed. */
  lemma ExecuteNext(s: State)
    requires Enabled(s, Execute)
    ensures ToExecute(s) == [s.read[s.loop.i]] + ToExecute(Step(s, Execute))
  {
  }

  lemma QueueEffect(s: State, a: Action)
    requires Inv(s) && Enabled(s, a)
    ensures ToExecute(s) + s.write + DispatchOf(a) == ExecuteOf(s, a) + ToExecute(Step(s, a)) + Step(s, a).write
  {
    match a
    case Dispatch(_, h) =>
      assert ToExecute(Step(s, a)) == ToExecute(s);
      hide ToExecute;
    case Execute =>
      ExecuteNext(s);
      hide ToExecute, Inv;
    case Swap =>
      assert ToExecute(s) == [] && ToExecute(Step(s, a)) == s.write && s.read == [];
      hide ToExecute, Inv;
    case _ =>
      assert ToExecute(Step(s, a)) == ToExecute(s);
      hide ToExecute, Inv;
  }

  lemma Regroup(after: seq<Handle>, x: seq<Handle>, w: seq<Handle>, d: seq<Handle>, e: seq<Handle>, x': seq<Handle>,
                w': seq<Handle>)
    requires x + w + d == e + x' + w'
    ensures after + x + w + d == after + e + x' + w'
  {
    assert after + x + w + d == after + (x + w + d);
    assert after + e + x' + w' == after + (e + x' + w');
  }

  /** One step moves handles along the queue and neither loses, repeats nor reorders any. */
  lemma QueueStep(s: State, a: Action, before: seq<Handle>, after: seq<Handle>)
    requires Inv(s) && Enabled(s, a)
    requires before == after + ToExecute(s) + s.write
    ensures before + DispatchOf(a) == after + ExecuteOf(s, a) + ToExecute(Step(s, a)) + Step(s, a).write
    ensures a.Dispatch? ==> Step(s, a).read == s.read
  {
    QueueEffect(s, a);
    Regroup(after, ToExecute(s), s.write, DispatchOf(a), ExecuteOf(s, a), ToExecute(Step(s, a)), Step(s, a).write);
    hide Inv, ToExecute, DispatchOf, ExecuteOf;
  }

  /** The double buffer is one FIFO queue: in every run the handles executed so far, followed by what waits in
      the read and the write buffer, are the handles dispatched so far, in the order of the lock; and size_ is
      the length of the write buffer. */
  lemma {:induction false} RunsAreFifo(s: State, acts: seq<Action>)
    requires Init(s) && Runs(s, acts)
    ensures var c := After(s, acts);
      && Inv(c) && c.size == |c.write|
      && Dispatched(s, acts) == Executed(s, acts) + ToExecute(c) + c.write
    decreases |acts|
  {
    if acts != [] {
      hide Step, Enabled, Inv, ToExecute, ExecuteOf;
      var n := |acts| - 1;
      var c := After(s, acts[..n]);
      RunsAreFifo(s, acts[..n]);
      StepKeeps(c, acts[n]);
      QueueStep(c, acts[n], Dispatched(s, acts[..n]), Executed(s, acts[..n]));
      SizeIsLength(Step(c, acts[n]));
    }
  }

  lemma SizeIsLength(s: State)
    requires Inv(s)
    ensures s.size == |s.write|
  {
  }

  /** No event is stranded: when the loop sleeps on the eventfd and events are queued, either the eventfd is
      already positive, so that the loop will wake, or the dispatcher who queued the first of them is still to
      write to it. */
  lemma {:induction false} NothingStranded(s: State, acts: seq<Action>)
    requires Init(s) && Runs(s, acts)
    ensures var c := After(s, acts);
      c.loop == Reading && c.write != [] ==>
        Enabled(c, ReadDone(false)) || exists d :: 0 <= d < |c.dispatchers| && Enabled(c, Wake(d))
  {
    RunsAreFifo(s, acts);
    hide Runs, After, Dispatched, Executed;
    var c := After(s, acts);
    if c.loop == Reading && c.write != [] && OwesWake in c.dispatchers {
      var d :| 0 <= d < |c.dispatchers| && c.dispatchers[d] == OwesWake;
      assert Enabled(c, Wake(d));
    }
  }

  // ---------------------------------------------------------------------------------------------
  // The loop goes on

  /** The loop is told to stop, or cannot read its eventfd. */
  predicate Ends(a: Action) { a == ReadDone(true) || a.ReadFails? }

  lemma StopStep(s: State, a: Action)
    requires Enabled(s, a)
    ensures Step(s, a).loop == Stopped <==> s.loop == Stopped || Ends(a)
  {
  }

  /** The loop ends exactly if it was told to stop when it woke, or could not read its eventfd. */
  lemma {:induction false} StopsOnlyWhenTold(s: State, acts: seq<Action>)
    requires Init(s) && Runs(s, acts)
    ensures After(s, acts).loop == Stopped <==> exists i :: 0 <= i < |acts| && Ends(acts[i])
    decreases |acts|
  {
    if acts != [] {
      hide Step, Enabled, Ends;
      var n := |acts| - 1;
      StopsOnlyWhenTold(s, acts[..n]);
      StopStep(After(s, acts[..n]), acts[n]);
      if i :| 0 <= i < |acts| && Ends(acts[i]) {
        assert i < n ==> Ends(acts[..n][i]);
      }
      if i :| 0 <= i < n && Ends(acts[..n][i]) {
        assert Ends(acts[i]);
      }
    }
  }

  /** `acts'` goes on from `acts` with nobody dispatching anything and nobody stopping the loop. */
  ghost predicate Continues(acts: seq<Action>, acts': seq<Action>) {
    acts <= acts' && forall i :: |acts| <= i < |acts'| ==> !acts'[i].Dispatch? && !Ends(acts'[i])
  }

  lemma Extend(s: State, acts: seq<Action>, acts': seq<Action>, a: Action) returns (acts'': seq<Action>)
    requires Runs(s, acts') && Continues(acts, acts') && Enabled(After(s, acts'), a) && !a.Dispatch? && !Ends(a)
    ensures Runs(s, acts'') && Continues(acts, acts'') && After(s, acts'') == Step(After(s, acts'), a)
  {
    acts'' := acts' + [a];
    assert acts''[..|acts''| - 1] == acts';
  }

  /** The loop executes what is left of the read buffer and goes to sleep. */
  lemma {:induction false} ExecuteAll(s: State, acts: seq<Action>, acts': seq<Action>) returns (acts'': seq<Action>)
    requires Runs(s, acts') && Continues(acts, acts') && After(s, acts').loop.Executing?
    ensures Runs(s, acts'') && Continues(acts, acts'')
    ensures var c := After(s, acts');
      After(s, acts'') == c.(read := [], loop := Reading)
    decreases |After(s, acts').read| - After(s, acts').loop.i
  {
    var c := After(s, acts');
    hide Runs, After, Continues;
    if c.loop.i < |c.read| {
      var acts1 := Extend(s, acts, acts', Execute);
      acts'' := ExecuteAll(s, acts, acts1);
    } else {
      acts'' := Extend(s, acts, acts', Clear);
    }
  }

  /** The loop swaps, executes everything, and goes to sleep. */
  lemma GoRound(s: State, acts: seq<Action>, acts': seq<Action>) returns (acts'': seq<Action>)
    requires Runs(s, acts') && Continues(acts, acts') && Inv(After(s, acts')) && After(s, acts').loop == Swapping
    ensures Runs(s, acts'') && Continues(acts, acts'')
    ensures After(s, acts'').loop == Reading && After(s, acts'').write == [] && After(s, acts'').read == []
  {
    hide Runs, After, Continues;
    var acts1 := Extend(s, acts, acts', Swap);
    acts'' := ExecuteAll(s, acts, acts1);
  }

  /** A sleeping loop is woken if anything is queued, and then goes round. */
  lemma WakeUp(s: State, acts: seq<Action>, acts': seq<Action>) returns (acts'': seq<Action>)
    requires Runs(s, acts') && Continues(acts, acts') && Inv(After(s, acts')) && After(s, acts').loop == Reading
    ensures Runs(s, acts'') && Continues(acts, acts'')
    ensures After(s, acts'').loop == Reading && After(s, acts'').write == [] && After(s, acts'').read == []
  {
    var c := After(s, acts');
    hide Runs, After, Continues;
    acts'' := acts';
    if c.write != [] {
      if c.fd == 0 {
        var d :| 0 <= d < |c.dispatchers| && c.dispatchers[d] == OwesWake;
        acts'' := Extend(s, acts, acts'', Wake(d));
      }
      acts'' := Extend(s, acts, acts'', ReadDone(false));
      acts'' := GoRound(s, acts, acts'');
    }
  }

  lemma {:induction false} NothingNew(s: State, acts: seq<Action>, acts': seq<Action>)
    requires Continues(acts, acts')
    ensures Dispatched(s, acts') == Dispatched(s, acts)
    decreases |acts'|
  {
    if |acts'| > |acts| {
      NothingNew(s, acts, acts'[..|acts'| - 1]);
    } else {
      assert acts' == acts;
    }
  }

  /** Everything queued gets executed.  From every reachable state in which the loop has not ended there is a way to go
      on, with no further dispatch and no stop, after which exactly what was still to be executed has been, in order,
      and nothing is queued. */
  lemma {:induction false} EverythingGetsExecuted(s: State, acts: seq<Action>) returns (acts': seq<Action>)
    requires Init(s) && Runs(s, acts) && After(s, acts).loop != Stopped
    ensures Runs(s, acts') && Continues(acts, acts')
    ensures var c := After(s, acts); Executed(s, acts') == Executed(s, acts) + ToExecute(c) + c.write
    ensures After(s, acts').loop == Reading && After(s, acts').write == [] && After(s, acts').read == []
  {
    RunsAreFifo(s, acts);
    acts' := acts;
    var c := After(s, acts);
    hide Runs, After, Dispatched, Executed;
    assert Continues(acts, acts');
    if c.loop.Executing? {
      acts' := ExecuteAll(s, acts, acts');
    }
    if c.loop == Swapping {
      acts' := GoRound(s, acts, acts');
    } else {
      RunsAreFifo(s, acts');
      acts' := WakeUp(s, acts, acts');
    }
    RunsAreFifo(s, acts');
    NothingNew(s, acts, acts');
    hide Inv, Continues;
    assert ToExecute(After(s, acts')) == [];
  }
}
