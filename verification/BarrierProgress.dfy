/** What an activation of complete_phase() achieves by its own steps: it takes its window off the list wherever that
    begins, runs the completion step, and resumes exactly the window. */
module BarrierProgress {
  import Lists
  import opened Barrier

  // ---------------------------------------------------------------------------------------------
  // Going on from a state

  /** The steps `xs` lead from `c` to `c'`. */
  ghost predicate Leads(c: State, xs: seq<Action>, c': State) { Runs(c, xs) && After(c, xs) == c' }

  /** And they are all completer `k`'s own. */
  ghost predicate Works(c: State, xs: seq<Action>, c': State, k: nat) {
    Leads(c, xs, c') && forall i :: 0 <= i < |xs| ==> xs[i] == Work(k)
  }

  lemma {:induction false} LeadsJoin(c: State, xs: seq<Action>, c1: State, ys: seq<Action>, c2: State)
    requires Leads(c, xs, c1) && Leads(c1, ys, c2)
    ensures Leads(c, xs + ys, c2)
    decreases |ys|
  {
    hide Step, Enabled;
    if ys == [] {
      assert xs + ys == xs;
    } else {
      var n := |ys| - 1;
      LeadsJoin(c, xs, c1, ys[..n], After(c1, ys[..n]));
      assert (xs + ys)[..|xs + ys| - 1] == xs + ys[..n];
    }
  }

  lemma LeadsOne(c: State, a: Action)
    requires Enabled(c, a)
    ensures Leads(c, [a], Step(c, a))
  {
    assert [a][..0] == [];
    assert Runs(c, []) && After(c, []) == c;
  }

  lemma WorksOne(c: State, k: nat)
    requires k < |c.comps| && c.comps[k] != Done && |c.slots| == |c.next|
    ensures Works(c, [Work(k)], StepWork(c, k), k)
  {
    LeadsOne(c, Work(k));
  }

  lemma WorksJoin(c: State, xs: seq<Action>, c1: State, ys: seq<Action>, c2: State, k: nat)
    requires Works(c, xs, c1, k) && Works(c1, ys, c2, k)
    ensures Works(c, xs + ys, c2, k)
  {
    LeadsJoin(c, xs, c1, ys, c2);
  }

  // ---------------------------------------------------------------------------------------------
  // Resuming a window

  /** Slot `t` has one of the entries from `lo` to `hi` of the log. */
  ghost predicate InRange(log: seq<Arrival>, lo: nat, hi: nat, t: nat)
    requires hi <= |log|
  {
    exists i :: lo <= i < hi && log[i].id == t
  }

  /** The entries from `lo` to `hi` of the log are released: their slots are free, and no other has changed. */
  ghost predicate Frees(c: State, log: seq<Arrival>, lo: nat, hi: nat, c': State) {
    && |c'.slots| == |c.slots| && hi <= |log|
    && forall t :: 0 <= t < |c.slots| ==>
         c'.slots[t] == if InRange(log, lo, hi, t) then Free else c.slots[t]
  }

  /** Nothing that completers have in common has changed but the slots. */
  predicate OnlySlots(c: State, c': State) {
    && c'.expected == c.expected && c'.count == c.count && c'.working == c.working && c'.next == c.next
    && c'.completions == c.completions && c'.crashed == c.crashed
  }

  lemma FreesMore(c: State, log: seq<Arrival>, lo: nat, hi: nat, c1: State, c2: State)
    requires lo < hi <= |log| && log[hi - 1].id < |c.slots|
    requires c1.slots == c.slots[log[hi - 1].id := Free] && Frees(c1, log, lo, hi - 1, c2)
    ensures Frees(c, log, lo, hi, c2)
  {
    var x := log[hi - 1].id;
    forall t: nat ensures InRange(log, lo, hi, t) <==> t == x || InRange(log, lo, hi - 1, t) {
      if InRange(log, lo, hi, t) {
        var i :| lo <= i < hi && log[i].id == t;
        assert i < hi - 1 ==> InRange(log, lo, hi - 1, t);
      }
      if InRange(log, lo, hi - 1, t) {
        var i :| lo <= i < hi - 1 && log[i].id == t;
        assert lo <= i < hi && log[i].id == t;
      }
      assert log[hi - 1].id == x;
    }
    hide InRange;
  }

  /** One more entry of the window is resumed. */
  lemma ResumeOne(c: State, g: View, k: nat)
    requires k < |c.comps| && c.comps[k].Resume? && c.comps[k].ptr != Null && Shape(c, g)
    ensures k < |g.wins| && g.wins[k].lo < g.wins[k].left <= |g.log| == |g.resumed| && |c.slots| == |c.next|
    ensures var c1, x := StepWork(c, k), g.log[g.wins[k].left - 1].id;
      && OnlySlots(c, c1) && x < |c.slots| && c1.slots == c.slots[x := Free]
      && |c1.comps| == |c.comps| && c1.comps == c.comps[k := c1.comps[k]]
      && c1.comps[k].Resume? && c1.comps[k].before == c.comps[k].before && Shape(c1, Resumed(g, k))
  {
    ShapeResume(c, g, k);
    hide Matched, Linked, Tiled, CompsOk;
    WindowLeft(c, g, k);
    ShapeSizes(c, g);
  }

  lemma WindowLeft(c: State, g: View, k: nat)
    requires Shape(c, g) && k < |c.comps| && c.comps[k].Resume?
    ensures k < |g.wins| && g.wins[k].lo <= g.wins[k].left <= |g.log| == |g.resumed|
    ensures c.comps[k].ptr == At(g.log, g.wins[k].lo, g.wins[k].left)
  {
    hide Matched, Linked, Tiled;
    OwnsWindow(c, g, k);
  }

  /** The decision at the end of resume_frames(). */
  lemma DecideOne(c: State, k: nat)
    requires k < |c.comps| && c.comps[k].Resume? && c.comps[k].ptr == Null
    ensures StepWork(c, k)
         == c.(comps := c.comps[k := Done] + if c.comps[k].before <= -c.expected then [Load] else [])
  {
  }

  /** Completer `k` has resumed what was left of its window, and is done. */
  ghost predicate ResumedAll(c: State, g: View, k: nat, c': State) {
    && k < |g.wins| && k < |c.comps| && c.comps[k].Resume? && g.wins[k].left <= |g.log| && OnlySlots(c, c')
    && Frees(c, g.log, g.wins[k].lo, g.wins[k].left, c')
    && c'.comps == c.comps[k := Done] + if c.comps[k].before <= -c.expected then [Load] else []
  }

  lemma {:induction false} ResumeEnds(c: State, g: View, k: nat) returns (xs: seq<Action>, c': State)
    requires k < |c.comps| && c.comps[k].Resume? && Shape(c, g)
    ensures Works(c, xs, c', k) && ResumedAll(c, g, k, c')
    decreases if k < |g.wins| then g.wins[k].left else 0
  {
    WindowLeft(c, g, k);
    SlotSizes(c, g);
    hide Shape, StepWork, Works;
    WorksOne(c, k);
    if c.comps[k].ptr == Null {
      xs, c' := [Work(k)], StepWork(c, k);
      DecideOne(c, k);
      FreesNothing(c, g.log, g.wins[k].lo, c');
    } else {
      var c1 := StepWork(c, k);
      ResumeOne(c, g, k);
      xs, c' := ResumeEnds(c1, Resumed(g, k), k);
      WorksJoin(c, [Work(k)], c1, xs, c', k);
      xs := [Work(k)] + xs;
      ResumedLater(c, g, k, c1, c');
    }
  }

  lemma ResumedLater(c: State, g: View, k: nat, c1: State, c2: State)
    requires k < |g.wins| && k < |c.comps| && c.comps[k].Resume?
    requires g.wins[k].lo < g.wins[k].left <= |g.log| == |g.resumed| && g.log[g.wins[k].left - 1].id < |c.slots|
    requires OnlySlots(c, c1) && c1.slots == c.slots[g.log[g.wins[k].left - 1].id := Free]
    requires |c1.comps| == |c.comps| && c1.comps == c.comps[k := c1.comps[k]] && c1.comps[k].Resume?
    requires c1.comps[k].before == c.comps[k].before && ResumedAll(c1, Resumed(g, k), k, c2)
    ensures ResumedAll(c, g, k, c2)
  {
    FreesMore(c, g.log, g.wins[k].lo, g.wins[k].left, c1, c2);
    hide Frees;
    assert c1.comps[k := Done] == c.comps[k := Done];
  }

  lemma SlotSizes(c: State, g: View)
    requires Shape(c, g)
    ensures |c.slots| == |c.next| && |g.log| == |g.resumed| == |g.first|
  {
  }

  lemma FreesNothing(c: State, log: seq<Arrival>, lo: nat, c': State)
    requires lo <= |log| && c'.slots == c.slots
    ensures Frees(c, log, lo, lo, c')
  {
  }

  // ---------------------------------------------------------------------------------------------
  // From the cut to the end

  /** The window from `lo` to `hi` of the log has been completed: the completion step has run once, exactly the window
      has been released, the completer is done, and no other has moved. */
  ghost predicate Completes(c: State, log: seq<Arrival>, lo: nat, hi: nat, k: nat, c': State) {
    && k < |c.comps| <= |c'.comps| && c'.comps[..|c.comps|] == c.comps[k := Done]
    && c'.completions == c.completions + 1 && !c'.crashed && lo <= hi && Frees(c, log, lo, hi, c')
  }

  /** All that is left to do after the completion step has been done. */
  ghost predicate Releases(c: State, g: View, k: nat, c': State) {
    && k < |g.wins| && g.wins[k].left == g.wins[k].hi <= |g.log| && k < |c.comps| <= |c'.comps|
    && c'.comps[..|c.comps|] == c.comps[k := Done] && c'.completions == c.completions && !c'.crashed
    && g.wins[k].lo <= g.wins[k].hi && Frees(c, g.log, g.wins[k].lo, g.wins[k].hi, c')
  }

  /** What a completer's step after counting the drops changes. */
  lemma DetachedEffect(c: State, k: nat)
    requires k < |c.comps| && (c.comps[k].Complete? || c.comps[k].Reduce? || c.comps[k].Refill?)
    ensures var x, c1 := c.comps[k], StepWork(c, k);
      && c1.comps == c.comps[k := c1.comps[k]] && |c1.comps| == |c.comps| && c1.slots == c.slots
      && (x.Complete? ==> c1.comps[k].Reduce?) && (x.Reduce? ==> c1.comps[k].Refill?)
      && (x.Refill? ==> c1.comps[k].Resume?)
      && c1.completions == c.completions + (if x.Complete? then 1 else 0) && c1.crashed == c.crashed
  {
  }

  /** The counter is refilled. */
  lemma RefillOne(c: State, g: View, k: nat)
    requires k < |c.comps| && c.comps[k].Refill? && Sound(c) && Shape(c, g)
    ensures var c1 := StepWork(c, k);
      && c1.comps == c.comps[k := c1.comps[k]] && |c1.comps| == |c.comps| && c1.comps[k].Resume?
      && c1.slots == c.slots && c1.completions == c.completions && !c1.crashed && Shape(c1, g)
  {
    hide Shape, Sound, StepWork;
    DetachedEffect(c, k);
    ShapeDetached(c, g, k);
    ShapeSizes(c, g);
  }

  lemma RefillEnds(c: State, g: View, k: nat) returns (xs: seq<Action>, c': State)
    requires k < |c.comps| && c.comps[k].Refill? && Sound(c) && Shape(c, g)
    ensures Works(c, xs, c', k) && Releases(c, g, k, c')
  {
    SlotSizes(c, g);
    WindowWhole(c, g, k);
    RefillOne(c, g, k);
    WorksOne(c, k);
    var c1 := StepWork(c, k);
    hide Shape, Sound, StepWork, Works;
    xs, c' := ResumeEnds(c1, g, k);
    WorksJoin(c, [Work(k)], c1, xs, c', k);
    xs := [Work(k)] + xs;
    assert c1.comps[k := Done] == c.comps[k := Done];
  }

  lemma WindowWhole(c: State, g: View, k: nat)
    requires Shape(c, g) && k < |c.comps| && Detached(c.comps[k])
    ensures k < |g.wins| && g.wins[k].lo <= g.wins[k].left == g.wins[k].hi <= |g.log|
  {
    hide Matched, Linked, Tiled;
    OwnsWindow(c, g, k);
  }

  /** expected_ is lowered. */
  lemma ReduceOne(c: State, g: View, k: nat)
    requires k < |c.comps| && c.comps[k].Reduce? && Sound(c) && Shape(c, g)
    ensures var c1 := StepWork(c, k);
      && c1.comps == c.comps[k := c1.comps[k]] && |c1.comps| == |c.comps| && c1.comps[k].Refill?
      && c1.slots == c.slots && c1.completions == c.completions && Sound(c1) && Shape(c1, g)
  {
    hide Shape, Sound, StepWork;
    DetachedEffect(c, k);
    ShapeDetached(c, g, k);
    SlotSizes(c, g);
    SoundStep(c, Work(k));
  }

  lemma ReleasesLater(c: State, g: View, k: nat, c1: State, c2: State)
    requires k < |c.comps| == |c1.comps| && c1.comps == c.comps[k := c1.comps[k]]
    requires c1.slots == c.slots && c1.completions == c.completions && Releases(c1, g, k, c2)
    ensures Releases(c, g, k, c2)
  {
    assert c1.comps[k := Done] == c.comps[k := Done];
  }

  lemma ReduceEnds(c: State, g: View, k: nat) returns (xs: seq<Action>, c': State)
    requires k < |c.comps| && c.comps[k].Reduce? && Sound(c) && Shape(c, g)
    ensures Works(c, xs, c', k) && Releases(c, g, k, c')
  {
    SlotSizes(c, g);
    ReduceOne(c, g, k);
    WorksOne(c, k);
    var c1 := StepWork(c, k);
    hide Shape, Sound, StepWork, Works, Releases;
    xs, c' := RefillEnds(c1, g, k);
    WorksJoin(c, [Work(k)], c1, xs, c', k);
    xs := [Work(k)] + xs;
    ReleasesLater(c, g, k, c1, c');
  }

  /** The completion step runs. */
  lemma CompleteOne(c: State, g: View, k: nat)
    requires k < |c.comps| && c.comps[k].Complete? && Sound(c) && Shape(c, g)
    ensures var c1 := StepWork(c, k);
      && c1.comps == c.comps[k := c1.comps[k]] && |c1.comps| == |c.comps| && c1.comps[k].Reduce?
      && c1.slots == c.slots && c1.completions == c.completions + 1 && Sound(c1) && Shape(c1, g)
  {
    hide Shape, Sound, StepWork;
    DetachedEffect(c, k);
    ShapeDetached(c, g, k);
    SlotSizes(c, g);
    SoundStep(c, Work(k));
  }

  /** One entry of the window is looked at, or all have been. */
  lemma CountOne(c: State, g: View, k: nat) returns (g': View)
    requires k < |c.comps| && c.comps[k].CountDrops? && Sound(c) && Shape(c, g)
    ensures k < |g.wins| && g'.wins == g.wins && g'.log == g.log && Shape(StepWork(c, k), g')
    ensures var c1 := StepWork(c, k);
      && c1.comps == c.comps[k := c1.comps[k]] && |c1.comps| == |c.comps|
      && c1.slots == c.slots && c1.completions == c.completions && Sound(c1)
      && (c1.comps[k].Complete? || (c1.comps[k].CountDrops? && g'.snap < g.snap))
  {
    g' := ShapeCountDrops(c, g, k);
    CountEffect(c, g, k);
    SlotSizes(c, g);
    SoundStep(c, Work(k));
    hide Shape, Sound, StepWork;
  }

  lemma CountEffect(c: State, g: View, k: nat)
    requires k < |c.comps| && c.comps[k].CountDrops? && Shape(c, g)
    ensures k < |g.wins| && var c1 := StepWork(c, k);
      && c1.slots == c.slots && c1.completions == c.completions && c1.comps == c.comps[k := c1.comps[k]]
      && |c1.comps| == |c.comps|
      && (if g.snap > g.wins[k].lo then c1.comps[k].CountDrops? else c1.comps[k].Complete?)
  {
    hide Tiled, Matched, Linked;
    OwnsWindow(c, g, k);
    DropRead(g, c.comps[k], g.wins[k]);
    if g.snap > g.wins[k].lo { ReadWindow(c, g, k, g.snap); }
    hide CompsOk, CompOk;
  }

  /** From counting the drops on, a completer gets to the end by its own steps. */
  lemma {:induction false} DetachedEnds(c: State, g: View, k: nat) returns (xs: seq<Action>, c': State)
    requires k < |c.comps| && Uncompleted(c.comps[k]) && Sound(c) && Shape(c, g)
    ensures Works(c, xs, c', k) && k < |g.wins| && Completes(c, g.log, g.wins[k].lo, g.wins[k].hi, k, c')
    decreases c.comps[k].CountDrops?, g.snap
  {
    SlotSizes(c, g);
    WorksOne(c, k);
    var c1 := StepWork(c, k);
    hide Shape, Sound, StepWork, Works;
    if c.comps[k].CountDrops? {
      var g1 := CountOne(c, g, k);
      hide Completes;
      xs, c' := DetachedEnds(c1, g1, k);
      CompletesLater(c, g.log, g.wins[k].lo, g.wins[k].hi, k, c1, c');
    } else {
      CompleteOne(c, g, k);
      xs, c' := ReduceEnds(c1, g, k);
      CompletedNow(c, g, k, c1, c');
    }
    WorksJoin(c, [Work(k)], c1, xs, c', k);
    xs := [Work(k)] + xs;
  }

  lemma CompletedNow(c: State, g: View, k: nat, c1: State, c2: State)
    requires k < |c.comps| == |c1.comps| && c1.comps == c.comps[k := c1.comps[k]]
    requires c1.slots == c.slots && c1.completions == c.completions + 1 && Releases(c1, g, k, c2)
    ensures k < |g.wins| && Completes(c, g.log, g.wins[k].lo, g.wins[k].hi, k, c2)
  {
    assert c1.comps[k := Done] == c.comps[k := Done];
  }

  lemma CompletesLater(c: State, log: seq<Arrival>, lo: nat, hi: nat, k: nat, c1: State, c2: State)
    requires Completes(c1, log, lo, hi, k, c2) && c1.slots == c.slots && c1.completions == c.completions
    requires k < |c.comps| == |c1.comps| && c1.comps == c.comps[k := c1.comps[k]]
    ensures Completes(c, log, lo, hi, k, c2)
  {
    assert c1.comps[k := Done] == c.comps[k := Done];
  }

  // ---------------------------------------------------------------------------------------------
  // Taking the window off the list

  /** Completer `k` will complete the window of the oldest undetached arrivals. */
  ghost predicate Finishes(c: State, g: View, k: nat, c': State) {
    var lo := Tail(g.wins);
    lo + Width(c.expected) <= |g.log| && Completes(c, g.log, lo, lo + Width(c.expected), k, c')
  }

  lemma FinishesLater(c: State, g: View, k: nat, c1: State, g1: View, c2: State)
    requires Finishes(c1, g1, k, c2) && g1.log == g.log && g1.wins == g.wins && c1.expected == c.expected
    requires c1.slots == c.slots && c1.completions == c.completions
    requires k < |c.comps| == |c1.comps| && c1.comps == c.comps[k := c1.comps[k]]
    ensures Finishes(c, g, k, c2)
  {
    var lo := Tail(g.wins);
    CompletesLater(c, g.log, lo, lo + Width(c.expected), k, c1, c2);
  }

  /** What a step before the cut leaves alone. */
  predicate Searching(c: State, k: nat, c1: State) {
    && k < |c.comps| == |c1.comps| && c1.comps == c.comps[k := c1.comps[k]]
    && c1.slots == c.slots && c1.completions == c.completions && c1.expected == c.expected
  }

  lemma SearchStep(c: State, k: nat)
    requires k < |c.comps| && Acquiring(c.comps[k])
    ensures Searching(c, k, StepWork(c, k)) || StepWork(c, k).crashed
  {
    assert StepWork(c, k).crashed || StepWork(c, k).comps == c.comps[k := StepWork(c, k).comps[k]];
  }

  /** The window comes off at the root, or one looks for the node in front of it. */
  lemma TrimOne(c: State, g: View, k: nat) returns (g': View)
    requires k < |c.comps| && c.comps[k].Trim? && Sound(c) && Shape(c, g)
    ensures Searching(c, k, StepWork(c, k)) && Sound(StepWork(c, k)) && Shape(StepWork(c, k), g')
    ensures k == |g.wins| && Tail(g.wins) + Width(c.expected) <= |g.log| == |g.first|
    ensures var c1 := StepWork(c, k);
      (c1.comps[k].CountDrops? && g' == Detach(g, Width(c.expected)))
      || (c1.comps[k].Cut? && g'.log == g.log && g'.wins == g.wins)
  {
    g' := ShapeTrim(c, g, k);
    SearchStep(c, k);
    SlotSizes(c, g);
    ShapeSizes(StepWork(c, k), g');
    SoundStep(c, Work(k));
    LatestIs(c, g, k);
    hide Shape, Sound;
  }

  lemma LatestIs(c: State, g: View, k: nat)
    requires k < |c.comps| && Acquiring(c.comps[k]) && Shape(c, g)
    ensures k == |c.comps| - 1 == |g.wins|
  {
    hide Matched, Linked, Tiled;
    AcquiringIsLatest(c, g, k);
  }

  /** The window comes off inside the list, or one goes on looking. */
  lemma CutOne(c: State, g: View, k: nat) returns (g': View)
    requires k < |c.comps| && c.comps[k].Cut? && Sound(c) && Shape(c, g)
    ensures Searching(c, k, StepWork(c, k)) && Sound(StepWork(c, k)) && Shape(StepWork(c, k), g')
    ensures k == |g.wins| && Tail(g.wins) + Width(c.expected) <= |g.log| == |g.first|
    ensures var c1 := StepWork(c, k);
      (c1.comps[k].CountDrops? && g' == Detach(g, Width(c.expected)))
      || (c1.comps[k].Cut? && g'.log == g.log && g'.wins == g.wins && g'.snap < g.snap)
  {
    hide Shape, Sound, StepWork, Live, Searching;
    g' := ShapeCut(c, g, k);
    CutEffect(c, k);
    SearchStep(c, k);
    SlotSizes(c, g);
    ShapeSizes(StepWork(c, k), g');
    SoundStep(c, Work(k));
    LatestIs(c, g, k);
  }

  lemma CutEffect(c: State, k: nat)
    requires k < |c.comps| && c.comps[k].Cut? && Live(c, c.comps[k].ptr)
    ensures k < |StepWork(c, k).comps|
    ensures if Next(c, c.comps[k].ptr) == c.comps[k].head then StepWork(c, k).comps[k].CountDrops?
            else StepWork(c, k).comps[k].Cut?
  {
  }

  lemma FinishesNow(c: State, g: View, k: nat, c1: State, c2: State)
    requires Searching(c, k, c1) && k == |g.wins| && Tail(g.wins) + Width(c.expected) <= |g.log| == |g.first|
    requires var g1 := Detach(g, Width(c.expected)); Completes(c1, g1.log, g1.wins[k].lo, g1.wins[k].hi, k, c2)
    ensures Finishes(c, g, k, c2)
  {
    var lo := Tail(g.wins);
    CompletesLater(c, g.log, lo, lo + Width(c.expected), k, c1, c2);
  }

  /** From the trim on, wherever the window begins. */
  lemma {:induction false} TrimEnds(c: State, g: View, k: nat) returns (xs: seq<Action>, c': State)
    requires k < |c.comps| && (c.comps[k].Trim? || c.comps[k].Cut?) && Sound(c) && Shape(c, g)
    ensures Works(c, xs, c', k) && Finishes(c, g, k, c')
    decreases c.comps[k].Trim?, g.snap
  {
    SlotSizes(c, g);
    WorksOne(c, k);
    var c1 := StepWork(c, k);
    hide Shape, Sound, StepWork, Works;
    var g1;
    if c.comps[k].Trim? { g1 := TrimOne(c, g, k); } else { g1 := CutOne(c, g, k); }
    if c1.comps[k].CountDrops? {
      hide Completes;
      xs, c' := DetachedEnds(c1, g1, k);
      FinishesNow(c, g, k, c1, c');
    } else {
      hide Finishes;
      xs, c' := TrimEnds(c1, g1, k);
      FinishesLater(c, g, k, c1, g1, c');
    }
    WorksJoin(c, [Work(k)], c1, xs, c', k);
    xs := [Work(k)] + xs;
  }

  // ---------------------------------------------------------------------------------------------
  // Looking for the window

  /** How much of the list a pass will have seen in the end. */
  function Span(c: Comp, g: View): int {
    match c
    case Load => |g.log| - Tail(g.wins)
    case Walk(_, _, seen, _) => g.snap + seen - Tail(g.wins)
    case _ => 0
  }

  lemma WalkOne(c: State, g: View, k: nat) returns (g': View)
    requires k < |c.comps| && (c.comps[k] == Load || c.comps[k].Walk?) && Sound(c) && Shape(c, g)
    ensures Searching(c, k, StepWork(c, k)) && Sound(StepWork(c, k)) && Shape(StepWork(c, k), g')
    ensures g'.log == g.log && g'.wins == g.wins && g'.first == g.first
    ensures var x, x' := c.comps[k], StepWork(c, k).comps[k];
      && (x == Load ==> x'.Walk? && Span(x', g') == Span(x, g))
      && (x.Walk? && g.snap > Tail(g.wins) ==> x'.Walk? && Span(x', g') == Span(x, g) && g'.snap < g.snap)
      && (x.Walk? && g.snap <= Tail(g.wins) ==> if Span(x, g) >= Width(c.expected) then x'.Trim? else x' == Load)
  {
    g' := ShapeAcquire(c, g, k);
    SearchStep(c, k);
    SlotSizes(c, g);
    ShapeSizes(StepWork(c, k), g');
    SoundStep(c, Work(k));
    WalkEffect(c, g, k);
    hide Shape, Sound;
  }

  lemma WalkEffect(c: State, g: View, k: nat)
    requires k < |c.comps| && (c.comps[k] == Load || c.comps[k].Walk?) && Shape(c, g)
    ensures var x, x' := c.comps[k], StepWork(c, k).comps[k];
      && (x == Load ==> x' == Walk(c.working, c.working, 0, Null))
      && (x.Walk? && g.snap > Tail(g.wins) ==> x'.Walk? && x'.seen == x.seen + 1)
      && (x.Walk? && g.snap <= Tail(g.wins) ==> if Span(x, g) >= Width(c.expected) then x'.Trim? else x' == Load)
  {
    LatestIs(c, g, k);
    if c.comps[k].Walk? && g.snap > Tail(g.wins) {
      WalkReads(c, g, k);
    }
    hide Matched, Linked, Tiled;
    AcquiringIsLatest(c, g, k);
    hide CompsOk;
  }

  lemma WalkReads(c: State, g: View, k: nat)
    requires k < |c.comps| && c.comps[k].Walk? && Shape(c, g) && g.snap > Tail(g.wins)
    ensures Live(c, c.comps[k].ptr)
    ensures c.comps[k].seen + 1 >= c.expected && c.comps[k].head != Null ==> Live(c, c.comps[k].head)
  {
    hide Matched, Linked, Tiled;
    AcquiringIsLatest(c, g, k);
    hide CompsOk;
    var x := c.comps[k];
    ReadTail(c, g, g.snap);
    if x.seen >= Width(c.expected) { ReadTail(c, g, g.snap + Width(c.expected)); }
  }

  /** A pass comes to its end: with a window if what it saw was long enough. */
  lemma {:induction false} WalkEnds(c: State, g: View, k: nat) returns (xs: seq<Action>, c': State, g': View)
    requires k < |c.comps| && (c.comps[k] == Load || c.comps[k].Walk?) && Sound(c) && Shape(c, g)
    ensures Works(c, xs, c', k) && Searching(c, k, c') && k < |c'.comps| && Sound(c') && Shape(c', g')
    ensures g'.log == g.log && g'.wins == g.wins
    ensures if Span(c.comps[k], g) >= Width(c.expected) then c'.comps[k].Trim? else c'.comps[k] == Load
    decreases c.comps[k] == Load, g.snap
  {
    SlotSizes(c, g);
    WorksOne(c, k);
    var c1 := StepWork(c, k);
    hide Shape, Sound, StepWork, Works;
    var g1 := WalkOne(c, g, k);
    xs, c', g' := [Work(k)], c1, g1;
    assert k < |c1.comps| && c1.expected == c.expected;
    hide Searching, Span;
    if c1.comps[k].Walk? {
      xs, c', g' := WalkEnds(c1, g1, k);
      WorksJoin(c, [Work(k)], c1, xs, c', k);
      xs := [Work(k)] + xs;
      SearchingMore(c, k, c1, c');
    }
  }

  lemma SearchingMore(c: State, k: nat, c1: State, c2: State)
    requires Searching(c, k, c1) && Searching(c1, k, c2)
    ensures Searching(c, k, c2)
  {
  }

  /** An activation that looks for its window finds it if the list is long enough, and finishes. */
  lemma AcquireEnds(c: State, g: View, k: nat) returns (xs: seq<Action>, c': State)
    requires k < |c.comps| && Acquiring(c.comps[k]) && Sound(c) && Shape(c, g)
    requires Tail(g.wins) + Width(c.expected) <= |g.log|
    ensures Works(c, xs, c', k) && Finishes(c, g, k, c')
  {
    hide Shape, Sound, Works, Finishes;
    if c.comps[k].Trim? || c.comps[k].Cut? {
      xs, c' := TrimEnds(c, g, k);
    } else {
      var c1, g1;
      xs, c1, g1 := WalkEnds(c, g, k);
      if c1.comps[k] == Load {
        var c0, g0, ys := c1, g1, xs;
        xs, c1, g1 := WalkEnds(c0, g0, k);
        WorksJoin(c, ys, c0, xs, c1, k);
        xs := ys + xs;
      }
      var ys;
      ys, c' := TrimEnds(c1, g1, k);
      WorksJoin(c, xs, c1, ys, c', k);
      FinishesLater(c, g, k, c1, g1, c');
      xs := xs + ys;
    }
  }

  // ---------------------------------------------------------------------------------------------
  // What that means for the barrier

  /** The list behind working_set_ is long enough for a window. */
  ghost predicate LongEnough(c: State) { exists n: nat :: Width(c.expected) <= n && HasLength(c.next, c.working, n) }

  /** The arrival of slot `t` is one of the last `w` nodes of the list behind working_set_: the oldest. */
  ghost predicate Oldest(c: State, w: nat, t: nat) {
    exists n: nat, i: nat :: i < n <= i + w && OldestAt(c, n, i, t)
  }

  ghost predicate OldestAt(c: State, n: nat, i: nat, t: nat) {
    HasLength(c.next, c.working, n) && Follow(c.next, c.working, i).To? && Follow(c.next, c.working, i).node.id == t
  }

  /** Exactly the slots in `ts` have become free. */
  ghost predicate SetsFree(c: State, ts: iset<nat>, c': State) {
    |c'.slots| == |c.slots| && forall t: nat :: t < |c.slots| ==> c'.slots[t] == if t in ts then Free else c.slots[t]
  }

  lemma LengthIs(next: seq<Ptr>, p: Ptr, n: nat, m: nat)
    requires HasLength(next, p, n) && HasLength(next, p, m)
    ensures n == m
  {
    hide Follow;
    assert n < m ==> Follow(next, p, n) != Null;
    assert m < n ==> Follow(next, p, m) != Null;
  }

  lemma FollowWorking(c: State, g: View, i: nat)
    requires Shape(c, g)
    ensures Tail(g.wins) <= |g.log|
    ensures Follow(c.next, c.working, i)
         == if i <= |g.log| - Tail(g.wins) then At(g.log, Tail(g.wins), |g.log| - i) else Null
  {
    hide CompsOk, Matched, Linked, Follow, Down;
    var lo := Tail(g.wins);
    forall j | lo <= j < |g.log| ensures Down(c.next, g.log, lo, j) {
      assert Alive(g, j);
      SegmentDown(c, g, lo, |g.log|, j);
    }
    FollowDown(c.next, g.log, lo, |g.log|, i);
  }

  /** The oldest arrivals are the first of the undetached log. */
  lemma OldestIsWindow(c: State, g: View, w: nat, t: nat)
    requires Shape(c, g) && Tail(g.wins) + w <= |g.log|
    ensures Oldest(c, w, t) <==> InRange(g.log, Tail(g.wins), Tail(g.wins) + w, t)
  {
    var lo, m := Tail(g.wins), |g.log| - Tail(g.wins);
    WorkingLength(c, g);
    forall i: nat ensures Follow(c.next, c.working, i) == if i <= m then At(g.log, lo, |g.log| - i) else Null {
      FollowWorking(c, g, i);
    }
    hide Shape, Follow, HasLength;
    if Oldest(c, w, t) {
      var n: nat, i: nat :| i < n <= i + w && OldestAt(c, n, i, t);
      LengthIs(c.next, c.working, n, m);
      assert g.log[|g.log| - i - 1].id == t;
    }
    if InRange(g.log, lo, lo + w, t) {
      var j :| lo <= j < lo + w && g.log[j].id == t;
      assert OldestAt(c, m, |g.log| - j - 1, t);
    }
  }

  lemma EnoughIs(c: State, g: View)
    requires Shape(c, g) && LongEnough(c)
    ensures Tail(g.wins) + Width(c.expected) <= |g.log|
  {
    hide Shape, HasLength, Width;
    WorkingLength(c, g);
    var n: nat :| Width(c.expected) <= n && HasLength(c.next, c.working, n);
    LengthIs(c.next, c.working, n, |g.log| - Tail(g.wins));
  }

  /** A trim or a cut has a window. */
  lemma TrimHasWindow(c: State, g: View, k: nat)
    requires k < |c.comps| && (c.comps[k].Trim? || c.comps[k].Cut?) && Shape(c, g)
    ensures Tail(g.wins) + Width(c.expected) <= |g.log|
  {
    hide Matched, Linked, Tiled;
    AcquiringIsLatest(c, g, k);
  }

  /** complete_phase() completes the phase.  From every reachable state, an activation that looks for its window, and has
      found it or has a list that is long enough, gets to its end by its own steps, wherever in the list its window
      begins: the completion step has run once more, and exactly the oldest arrivals have been resumed. */
  lemma {:induction false} PhaseGetsCompleted(s: State, acts: seq<Action>, k: nat) returns (xs: seq<Action>, c': State)
    requires Init(s) && Runs(s, acts) && AllGood(s, acts) && k < |After(s, acts).comps|
    requires var c := After(s, acts);
      c.comps[k].Trim? || c.comps[k].Cut? || (Acquiring(c.comps[k]) && LongEnough(c))
    ensures var c := After(s, acts);
      && Works(c, xs, c', k) && |c.comps| <= |c'.comps| && c'.comps[..|c.comps|] == c.comps[k := Done]
      && c'.completions == c.completions + 1 && !c'.crashed
      && SetsFree(c, (iset t: nat | Oldest(c, Width(c.expected), t)), c')
  {
    var g := RunKeeps(s, acts);
    var c := After(s, acts);
    hide Runs, After, AllGood, AllPushes, AllExcess, Works, Oldest, Shape, Sound, Counted, Phased;
    if c.comps[k].Trim? || c.comps[k].Cut? { TrimHasWindow(c, g, k); } else { EnoughIs(c, g); }
    hide LongEnough, Finishes, SetsFree;
    xs, c' := AcquireEnds(c, g, k);
    FinishesOldest(c, g, k, c');
  }

  lemma FinishesOldest(c: State, g: View, k: nat, c': State)
    requires Shape(c, g) && Finishes(c, g, k, c')
    ensures k < |c.comps| <= |c'.comps| && c'.comps[..|c.comps|] == c.comps[k := Done]
    ensures c'.completions == c.completions + 1 && !c'.crashed
    ensures SetsFree(c, (iset t: nat | Oldest(c, Width(c.expected), t)), c')
  {
    hide Shape, Oldest, InRange;
    forall t: nat
      ensures Oldest(c, Width(c.expected), t) <==> InRange(g.log, Tail(g.wins), Tail(g.wins) + Width(c.expected), t)
    {
      OldestIsWindow(c, g, Width(c.expected), t);
    }
  }

  /** Completer `k` still has to resume the arrival of slot `t`. */
  ghost predicate ToResume(c: State, k: nat, t: nat)
    requires k < |c.comps|
  {
    exists drop :: Meets(c.next, Front(c.comps[k]), Arrival(t, drop))
  }

  lemma FrontIsRange(c: State, g: View, k: nat, t: nat)
    requires k < |c.comps| && k < |g.wins| && Shape(c, g)
    ensures g.wins[k].left <= |g.log|
    ensures ToResume(c, k, t) <==> InRange(g.log, g.wins[k].lo, g.wins[k].left, t)
  {
    MeetsWindow(c, g, k, Arrival(t, false));
    MeetsWindow(c, g, k, Arrival(t, true));
    hide Shape, Meets, Front;
    if InRange(g.log, g.wins[k].lo, g.wins[k].left, t) {
      var j :| g.wins[k].lo <= j < g.wins[k].left && g.log[j].id == t;
      assert g.log[j] == Arrival(t, g.log[j].drop);
    }
  }

  lemma AfterCutEnds(c: State, g: View, k: nat) returns (xs: seq<Action>, c': State)
    requires k < |c.comps| && c.comps[k] != Done && !Acquiring(c.comps[k]) && Sound(c) && Shape(c, g)
    ensures Works(c, xs, c', k) && k < |g.wins| && g.wins[k].left <= |g.log|
    ensures |c.comps| <= |c'.comps| && c'.comps[..|c.comps|] == c.comps[k := Done] && !c'.crashed
    ensures c'.completions == c.completions + (if Uncompleted(c.comps[k]) then 1 else 0)
    ensures Frees(c, g.log, g.wins[k].lo, g.wins[k].left, c')
  {
    ShapeSizes(c, g);
    hide Shape, Sound, Works;
    if c.comps[k].Resume? {
      xs, c' := ResumeEnds(c, g, k);
    } else {
      WindowWhole(c, g, k);
      if c.comps[k].Refill? {
        xs, c' := RefillEnds(c, g, k);
      } else if c.comps[k].Reduce? {
        xs, c' := ReduceEnds(c, g, k);
      } else {
        xs, c' := DetachedEnds(c, g, k);
      }
    }
  }

  /** And an activation that has its window resumes exactly those of it who are still asleep. */
  lemma {:induction false} WindowGetsResumed(s: State, acts: seq<Action>, k: nat) returns (xs: seq<Action>, c': State)
    requires Init(s) && Runs(s, acts) && AllGood(s, acts) && k < |After(s, acts).comps|
    requires After(s, acts).comps[k] != Done && !Acquiring(After(s, acts).comps[k])
    ensures var c := After(s, acts);
      && Works(c, xs, c', k) && |c.comps| <= |c'.comps| && c'.comps[..|c.comps|] == c.comps[k := Done]
      && c'.completions == c.completions + (if Uncompleted(c.comps[k]) then 1 else 0) && !c'.crashed
      && SetsFree(c, (iset t: nat | ToResume(c, k, t)), c')
  {
    var g := RunKeeps(s, acts);
    var c := After(s, acts);
    hide Runs, After, AllGood, AllPushes, AllExcess, Works, ToResume, Shape, Sound, Counted, Phased, Frees, SetsFree;
    xs, c' := AfterCutEnds(c, g, k);
    FreesFront(c, g, k, c');
  }

  lemma FreesFront(c: State, g: View, k: nat, c': State)
    requires k < |c.comps| && k < |g.wins| && Shape(c, g) && Frees(c, g.log, g.wins[k].lo, g.wins[k].left, c')
    ensures SetsFree(c, (iset t: nat | ToResume(c, k, t)), c')
  {
    hide Shape, ToResume, InRange;
    forall t: nat ensures ToResume(c, k, t) <==> InRange(g.log, g.wins[k].lo, g.wins[k].left, t) {
      FrontIsRange(c, g, k, t);
    }
  }

  // ---------------------------------------------------------------------------------------------
  // Arrivals

  /** Who has announced himself gets into the list by his own steps, and starts a completer if he took the counter to
      zero. */
  lemma {:induction false} ArrivalEnds(c: State, t: nat) returns (xs: seq<Action>, c': State)
    requires t < |c.slots| == |c.next| && Announced(c.slots[t])
    ensures Leads(c, xs, c') && forall i :: 0 <= i < |xs| ==> xs[i] == LoadSet(t) || xs[i] == CasSet(t, false)
    ensures c' == c.(working := To(Arrival(t, c.slots[t].drop)), next := c.next[t := c.working],
                     slots := c.slots[t := Pushed(c.slots[t].drop)],
                     comps := if c.slots[t].last then c.comps + [Load] else c.comps)
    decreases if c.slots[t].PushLoad? then 2 else if c.slots[t].previous != c.working then 1 else 0
  {
    var a := if c.slots[t].PushLoad? then LoadSet(t) else CasSet(t, false);
    LeadsOne(c, a);
    var c1 := Step(c, a);
    xs, c' := [a], c1;
    hide Leads;
    if !c1.slots[t].Pushed? {
      xs, c' := ArrivalEnds(c1, t);
      LeadsJoin(c, [a], c1, xs, c');
      xs := [a] + xs;
      assert c1.slots[t := Pushed(c.slots[t].drop)] == c.slots[t := Pushed(c.slots[t].drop)];
      assert c1.next[t := c.working] == c.next[t := c.working];
    }
  }

  /** Steps of arrivals that have announced themselves. */
  predicate Pushing(a: Action) { a.LoadSet? || a.CasSet? }

  ghost predicate OnlyPushing(xs: seq<Action>) { forall i :: 0 <= i < |xs| ==> Pushing(xs[i]) }

  lemma {:induction false} PushingKeeps(c: State, g: View, xs: seq<Action>) returns (g': View)
    requires Inv(c, g) && Runs(c, xs) && OnlyPushing(xs)
    ensures Inv(After(c, xs), g')
    decreases |xs|
  {
    hide Inv, Enabled, Step, PushOf, Detaches, Evolves;
    g' := g;
    if xs != [] {
      var n := |xs| - 1;
      var g1 := PushingKeeps(c, g, xs[..n]);
      assert Pushing(xs[n]);
      g' := StepKeeps(After(c, xs[..n]), g1, xs[n]);
    }
  }

  /** What pushing leaves alone: it may only start completers. */
  ghost predicate OnlyStarts(c: State, c': State) {
    && c'.expected == c.expected && c'.count == c.count && c'.completions == c.completions
    && |c.comps| <= |c'.comps| && c'.comps[..|c.comps|] == c.comps
    && forall k :: |c.comps| <= k < |c'.comps| ==> c'.comps[k] == Load
  }

  lemma StartsMore(c: State, c1: State, c2: State)
    requires OnlyStarts(c, c1) && OnlyStarts(c1, c2)
    ensures OnlyStarts(c, c2)
  {
    forall k | 0 <= k < |c.comps| ensures c2.comps[k] == c.comps[k] {
      assert c2.comps[..|c1.comps|][k] == c1.comps[k] && c1.comps[..|c.comps|][k] == c.comps[k];
    }
    forall k | |c.comps| <= k < |c2.comps| ensures c2.comps[k] == Load {
      assert k < |c1.comps| ==> c2.comps[..|c1.comps|][k] == c1.comps[k];
    }
  }

  lemma OneArrives(c: State, g: View, t: nat) returns (xs: seq<Action>, c': State, g': View)
    requires Inv(c, g) && t < |c.slots| && Announced(c.slots[t])
    ensures Leads(c, xs, c') && OnlyPushing(xs) && Inv(c', g') && OnlyStarts(c, c')
    ensures Lists.Count(c'.slots, Announced) < Lists.Count(c.slots, Announced)
  {
    SlotSizes(c, g);
    hide Inv, Leads;
    xs, c' := ArrivalEnds(c, t);
    PushingOnly(xs, t);
    hide OnlyPushing;
    g' := LeadsKeeps(c, g, xs, c');
    ArrivalEffect(c, t, c');
  }

  lemma PushingOnly(xs: seq<Action>, t: nat)
    requires forall i :: 0 <= i < |xs| ==> xs[i] == LoadSet(t) || xs[i] == CasSet(t, false)
    ensures OnlyPushing(xs)
  {
  }

  lemma LeadsKeeps(c: State, g: View, xs: seq<Action>, c': State) returns (g': View)
    requires Inv(c, g) && Leads(c, xs, c') && OnlyPushing(xs)
    ensures Inv(c', g')
  {
    hide Inv, OnlyPushing;
    g' := PushingKeeps(c, g, xs);
  }

  lemma ArrivalEffect(c: State, t: nat, c': State)
    requires t < |c.slots| && Announced(c.slots[t])
    requires c'.slots == c.slots[t := Pushed(c.slots[t].drop)]
    requires c'.comps == if c.slots[t].last then c.comps + [Load] else c.comps
    requires c'.expected == c.expected && c'.count == c.count && c'.completions == c.completions
    ensures OnlyStarts(c, c') && Lists.Count(c'.slots, Announced) < Lists.Count(c.slots, Announced)
  {
    Lists.CountUpdate(c.slots, t, Pushed(c.slots[t].drop), Announced);
    hide Lists.Count;
  }

  /** Everybody who has announced himself gets into the list. */
  lemma {:induction false} AllArrive(c: State, g: View) returns (xs: seq<Action>, c': State, g': View)
    requires Inv(c, g)
    ensures Leads(c, xs, c') && OnlyPushing(xs) && Inv(c', g') && OnlyStarts(c, c') && Nobody(c'.slots)
    decreases Lists.Count(c.slots, Announced)
  {
    hide Inv, OnlyStarts, Announced, Lists.Count;
    if Nobody(c.slots) {
      xs, c', g' := [], c, g;
      StartsNone(c);
    } else {
      var t :| 0 <= t < |c.slots| && Announced(c.slots[t]);
      var ys, c1, g1 := OneArrives(c, g, t);
      xs, c', g' := AllArrive(c1, g1);
      LeadsJoin(c, ys, c1, xs, c');
      StartsMore(c, c1, c');
      xs := ys + xs;
    }
  }

  lemma StartsNone(c: State)
    ensures OnlyStarts(c, c)
  {
  }

  /** With everybody in the list the owner of a due phase has a window. */
  lemma DueHasWindow(c: State, g: View)
    requires Inv(c, g) && Nobody(c.slots) && Acquiring(LastComp(c)) && c.expected >= 1
    ensures Tail(g.wins) + Width(c.expected) <= |g.log|
  {
    ExpectedDebt(c, g);
    ShapeSizes(c, g);
    Lists.CountPositive(c.slots, Announced);
    hide Shape, Sound, Phased;
  }

  /** And a due phase has an owner. */
  lemma DueHasOwner(c: State)
    requires Sound(c) && Nobody(c.slots) && c.count <= 0
    ensures c.comps != [] && Holds(LastComp(c))
  {
    Lists.CountPositive(c.slots, IsLast);
    assert forall t :: 0 <= t < |c.slots| && IsLast(c.slots[t]) ==> Announced(c.slots[t]);
  }

  lemma OwnerStarts(c: State, c1: State)
    requires OnlyStarts(c, c1) && Sound(c1) && Sound(c) && c.count <= 0 && c1.comps != [] && Holds(LastComp(c1))
    requires Acquiring(LastComp(c)) || !Holds(LastComp(c))
    ensures Acquiring(LastComp(c1))
  {
    if |c1.comps| == |c.comps| {
      assert c1.comps[..|c.comps|] == c1.comps;
    }
  }

  /** A phase that is due gets completed.  From every reachable state in which the counter is down and somebody is
      expected, and the owner of the phase has not taken a window off the list yet, there is a way to go on with nobody
      new arriving after which the completion step has run once more. */
  lemma {:induction false} DuePhaseCompletes(s: State, acts: seq<Action>) returns (xs: seq<Action>, c': State)
    requires Init(s) && Runs(s, acts) && AllGood(s, acts)
    requires var c := After(s, acts);
      c.count <= 0 && c.expected >= 1 && (Acquiring(LastComp(c)) || !Holds(LastComp(c)))
    ensures Leads(After(s, acts), xs, c') && forall i :: 0 <= i < |xs| ==> !xs[i].Arrive?
    ensures c'.completions == After(s, acts).completions + 1
  {
    var g := RunKeeps(s, acts);
    hide Runs, After, AllGood, AllPushes, AllExcess, Inv;
    xs, c' := DueAt(After(s, acts), g);
  }

  lemma DueAt(c: State, g: View) returns (xs: seq<Action>, c': State)
    requires Inv(c, g) && c.count <= 0 && c.expected >= 1 && (Acquiring(LastComp(c)) || !Holds(LastComp(c)))
    ensures Leads(c, xs, c') && (forall i :: 0 <= i < |xs| ==> !xs[i].Arrive?) && c'.completions == c.completions + 1
  {
    hide Inv, OnlyStarts, Leads, LastComp, Holds, Nobody, Acquiring;
    var ys, c1, g1 := AllArrive(c, g);
    StartsCount(c, c1);
    OwnerReady(c, g, c1, g1);
    var zs;
    zs, c' := OwnerEnds(c1, g1);
    LeadsJoin(c, ys, c1, zs, c');
    xs := ys + zs;
  }

  lemma OwnerReady(c: State, g: View, c1: State, g1: View)
    requires Inv(c, g) && Inv(c1, g1) && OnlyStarts(c, c1) && Nobody(c1.slots) && c.count <= 0 && c.expected >= 1
    requires Acquiring(LastComp(c)) || !Holds(LastComp(c))
    ensures c1.comps != [] && Acquiring(LastComp(c1)) && Tail(g1.wins) + Width(c1.expected) <= |g1.log|
  {
    StartsCount(c, c1);
    hide Shape, Sound, Counted, Phased, OnlyStarts, Nobody, LastComp, Holds;
    DueHasOwner(c1);
    OwnerStarts(c, c1);
    DueHasWindow(c1, g1);
  }

  lemma OwnerEnds(c: State, g: View) returns (xs: seq<Action>, c': State)
    requires Inv(c, g) && c.comps != [] && Acquiring(LastComp(c)) && Tail(g.wins) + Width(c.expected) <= |g.log|
    ensures Leads(c, xs, c') && (forall i :: 0 <= i < |xs| ==> !xs[i].Arrive?) && c'.completions == c.completions + 1
  {
    hide Shape, Sound, Counted, Phased;
    xs, c' := AcquireEnds(c, g, |c.comps| - 1);
  }

  lemma StartsCount(c: State, c1: State)
    requires OnlyStarts(c, c1)
    ensures c1.completions == c.completions && c1.count == c.count && c1.expected == c.expected
  {
  }
}
