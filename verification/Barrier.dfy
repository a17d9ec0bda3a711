/** The phase barrier: arrivals count themselves down and push onto a shared stack; the arrival that takes
    the counter to zero completes the phase by detaching the oldest `expected_` nodes. */
module Barrier {
  import opened Lists

  /** One arrival: a waiter that sits in a coroutine frame, or a heap-allocated drop token. */
  datatype Arrival = Arrival(id: nat, drop: bool)

  /** A tagged pointer of the working set. */
  datatype Ptr = Null | To(node: Arrival)

  /** One arrival in progress.  `last` records that it took the counter from one to zero. */
  datatype Slot =
    | Free
    | PushLoad(drop: bool, last: bool)
    | PushCas(drop: bool, last: bool, previous: Ptr)
    | Pushed(drop: bool)

  /** One activation of complete_phase(). */
  datatype Comp =
    | Load                                                 // aquire_window(): about to load working_set_
    | Walk(current: Ptr, ptr: Ptr, seen: nat, head: Ptr)   // aquire_window(): inside the walk
    | Trim(head: Ptr)                                      // about to compare-exchange the root
    | Cut(head: Ptr, ptr: Ptr)                             // looking for the node in front of `head`
    | CountDrops(head: Ptr, ptr: Ptr, drops: nat)
    | Complete(head: Ptr, drops: nat)                      // about to run the completion step
    | Reduce(head: Ptr, drops: nat)                        // about to lower expected_
    | Refill(head: Ptr)                                    // about to fetch_add expected_ to count_
    | Resume(ptr: Ptr, before: int, used: int)             // resuming; `used` is the expected_ that was added
    | Done

  /** `crashed` records the dereference of something that is not a pushed arrival. */
  datatype State = State(expected: int, count: int, working: Ptr, next: seq<Ptr>, slots: seq<Slot>,
                         comps: seq<Comp>, completions: nat, crashed: bool)

  datatype Action =
    | Arrive(t: nat, drop: bool)
    | LoadSet(t: nat)
    | CasSet(t: nat, spurious: bool)
    | ReuseNode(t: nat, junk: Ptr)
    | Work(c: nat)

  predicate Enabled(s: State, a: Action) {
    && |s.slots| == |s.next|
    && match a
       case Arrive(t, _) => t < |s.slots| && s.slots[t] == Free
       case LoadSet(t) => t < |s.slots| && s.slots[t].PushLoad?
       case CasSet(t, _) => t < |s.slots| && s.slots[t].PushCas?
       case ReuseNode(t, _) => t < |s.slots| && s.slots[t] == Free
       case Work(c) => c < |s.comps| && s.comps[c] != Done
  }

  predicate Live(s: State, p: Ptr) {
    p.To? && p.node.id < |s.slots| == |s.next| && s.slots[p.node.id] == Pushed(p.node.drop)
  }

  function Next(s: State, p: Ptr): Ptr
    requires Live(s, p)
  {
    s.next[p.node.id]
  }

  function StepCas(s: State, t: nat, spurious: bool): State
    requires t < |s.slots| == |s.next| && s.slots[t].PushCas?
  {
    var PushCas(drop, last, previous) := s.slots[t];
    var linked := s.(next := s.next[t := previous]);
    if s.working == previous && !spurious then
      linked.(working := To(Arrival(t, drop)), slots := s.slots[t := Pushed(drop)],
              comps := if last then s.comps + [Load] else s.comps)
    else linked.(slots := s.slots[t := PushCas(drop, last, s.working)])
  }

  /** One turn of the walk in aquire_window(): `ptr` runs ahead, `head` follows `expected` nodes behind. */
  function StepWalk(s: State, w: Comp): (Comp, bool)
    requires w.Walk?
  {
    var Walk(current, ptr, seen, head) := w;
    if ptr == Null then (if head == Null then Load else Trim(head), false)
    else if !Live(s, ptr) then (w, true)
    else if seen + 1 < s.expected then (Walk(current, Next(s, ptr), seen + 1, head), false)
    else if head == Null then (Walk(current, Next(s, ptr), seen + 1, current), false)
    else if !Live(s, head) then (w, true)
    else (Walk(current, Next(s, ptr), seen + 1, Next(s, head)), false)
  }

  /** complete_phase(), one shared access at a time. */
  function StepWork(s: State, c: nat): State
    requires c < |s.comps| && s.comps[c] != Done
  {
    match s.comps[c]
    case Load => s.(comps := s.comps[c := Walk(s.working, s.working, 0, Null)])
    case Walk(_, _, _, _) =>
      var (w, bad) := StepWalk(s, s.comps[c]);
      s.(comps := s.comps[c := w], crashed := s.crashed || bad)
    case Trim(head) =>
      if s.working == head then s.(working := Null, comps := s.comps[c := CountDrops(head, head, 0)])
      else s.(comps := s.comps[c := Cut(head, s.working)])
    case Cut(head, ptr) =>
      if ptr == Null then s.(comps := s.comps[c := CountDrops(head, head, 0)])
      else if !Live(s, ptr) then s.(crashed := true)
      else if Next(s, ptr) == head then
        s.(next := s.next[ptr.node.id := Null], comps := s.comps[c := CountDrops(head, head, 0)])
      else s.(comps := s.comps[c := Cut(head, Next(s, ptr))])
    case CountDrops(head, ptr, drops) =>
      if ptr == Null then s.(comps := s.comps[c := Complete(head, drops)])
      else if !Live(s, ptr) then s.(crashed := true)
      else s.(comps := s.comps[c := CountDrops(head, Next(s, ptr), drops + if ptr.node.drop then 1 else 0)])
    case Complete(head, drops) =>
      s.(completions := s.completions + 1, comps := s.comps[c := Reduce(head, drops)])
    case Reduce(head, drops) => s.(expected := s.expected - drops, comps := s.comps[c := Refill(head)])
    case Refill(head) =>
      s.(count := s.count + s.expected, comps := s.comps[c := Resume(head, s.count, s.expected)])
    case Resume(ptr, before, used) =>
      if ptr == Null then
        // the decision to complete another phase re-reads expected_
        s.(comps := s.comps[c := Done] + if before <= -s.expected then [Load] else [])
      else if !Live(s, ptr) then s.(crashed := true)
      else s.(slots := s.slots[ptr.node.id := Free], comps := s.comps[c := Resume(Next(s, ptr), before, used)])
  }

  function Step(s: State, a: Action): State
    requires Enabled(s, a)
  {
    match a
    case Arrive(t, drop) => s.(count := s.count - 1, slots := s.slots[t := PushLoad(drop, s.count == 1)])
    case LoadSet(t) => s.(slots := s.slots[t := PushCas(s.slots[t].drop, s.slots[t].last, s.working)])
    case CasSet(t, spurious) => StepCas(s, t, spurious)
    case ReuseNode(t, junk) => s.(next := s.next[t := junk])
    case Work(c) => StepWork(s, c)
  }

  predicate Init(s: State) {
    && s.expected >= 1 && s.count == s.expected && s.working == Null && |s.slots| == |s.next|
    && s.comps == [] && s.completions == 0 && !s.crashed && forall t :: 0 <= t < |s.slots| ==> s.slots[t] == Free
  }

  // ---------------------------------------------------------------------------------------------
  // One live completer

  predicate IsLast(x: Slot) { (x.PushLoad? || x.PushCas?) && x.last }

  /** Owns the right to complete a phase: it has not refilled the counter yet, or will go round again. */
  predicate Holds(c: Comp) {
    if c.Resume? then c.before <= -c.used else c != Done
  }

  /** At any time one activation, or one arrival about to start it, owns the phase if the counter is down to
      zero or below, and nobody does otherwise. */
  ghost predicate Sound(s: State) {
    && (forall c :: 0 <= c < |s.comps| - 1 ==> !Holds(s.comps[c]))
    && Count(s.slots, IsLast) + (if |s.comps| > 0 && Holds(s.comps[|s.comps| - 1]) then 1 else 0)
       == (if s.count <= 0 then 1 else 0)
  }

  /** What the code leaves to its callers: the expected_ that is re-read to decide about another phase must decide
      like the one that was added to the counter. */
  predicate Good(s: State, a: Action)
    requires Enabled(s, a)
  {
    a.Work? && s.comps[a.c].Resume? && s.comps[a.c].ptr == Null ==>
      (s.comps[a.c].before <= -s.expected <==> s.comps[a.c].before <= -s.comps[a.c].used)
  }

  lemma SoundArrival(s: State, a: Action)
    requires Sound(s) && Enabled(s, a) && !a.Work?
    ensures Sound(Step(s, a))
  {
    if !a.ReuseNode? {
      CountUpdate(s.slots, a.t, Step(s, a).slots[a.t], IsLast);
    }
  }

  /** The resume loop never touches a slot that is still on its way into the list. */
  lemma ResumeFrees(s: State, id: nat)
    requires id < |s.slots| && s.slots[id].Pushed?
    ensures Count(s.slots[id := Free], IsLast) == Count(s.slots, IsLast)
  {
    CountUpdate(s.slots, id, Free, IsLast);
  }

  lemma SoundWork(s: State, c: nat)
    requires Sound(s) && Enabled(s, Work(c)) && !(s.comps[c].Resume? && s.comps[c].ptr == Null)
    ensures Sound(StepWork(s, c))
  {
    match s.comps[c]
    case Resume(ptr, _, _) => if Live(s, ptr) { ResumeFrees(s, ptr.node.id); }
    case _ =>
  }

  lemma SoundDecision(s: State, c: nat)
    requires Sound(s) && Enabled(s, Work(c)) && s.comps[c].Resume? && s.comps[c].ptr == Null
    ensures Sound(StepWork(s, c)) <==> Good(s, Work(c))
  {
    var s', m := StepWork(s, c), |s.comps|;
    if s.comps[c].before <= -s.expected {
      assert s'.comps[m] == Load && Holds(s'.comps[m]);
      assert s'.comps[c] == Done;
      if !Good(s, Work(c)) {
        assert c != m - 1 ==> s'.comps[m - 1] == s.comps[m - 1];
      }
    }
  }

  /** Exactly the good steps keep the ownership of the phase sound. */
  lemma SoundStep(s: State, a: Action)
    requires Sound(s) && Enabled(s, a)
    ensures Sound(Step(s, a)) <==> Good(s, a)
  {
    if a.Work? {
      if s.comps[a.c].Resume? && s.comps[a.c].ptr == Null { SoundDecision(s, a.c); } else { SoundWork(s, a.c); }
    } else {
      SoundArrival(s, a);
    }
  }

  // ---------------------------------------------------------------------------------------------
  // What the pointers mean

  /** The window of one phase: the pushes from `lo` to `hi`, of which those from `left` on are resumed. */
  datatype Window = Window(lo: nat, hi: nat, left: nat)

  /** `log` lists every push; `wins` cuts its beginning into phases.  `first` marks the entries that end a
      chain, `resumed` those already resumed, and `pos` finds the entry of a pushed slot.  `snap` is the
      point up to which the walk of the current completer has got. */
  datatype View = View(initial: int, log: seq<Arrival>, wins: seq<Window>, first: seq<bool>, resumed: seq<bool>,
                       pos: seq<nat>, snap: nat)

  ghost predicate Alive(g: View, i: int) { 0 <= i < |g.log| == |g.resumed| && !g.resumed[i] }

  /** Pushed slots and unresumed entries of the log correspond one to one. */
  ghost predicate Matched(slots: seq<Slot>, g: View) {
    && |g.pos| == |slots|
    && (forall i :: Alive(g, i) ==>
          g.log[i].id < |slots| && slots[g.log[i].id] == Pushed(g.log[i].drop) && g.pos[g.log[i].id] == i)
    && (forall t :: 0 <= t < |slots| && slots[t].Pushed? ==> Alive(g, g.pos[t]) && g.log[g.pos[t]].id == t)
  }

  /** Every unresumed entry points to the entry pushed before it, unless it is the first of its chain. */
  ghost predicate Linked(next: seq<Ptr>, g: View) {
    forall i :: Alive(g, i) ==> Link(next, g, i)
  }

  ghost predicate Link(next: seq<Ptr>, g: View, i: int) {
    && 0 <= i < |g.log| == |g.first| && g.log[i].id < |next|
    && (if g.first[i] then next[g.log[i].id] == Null else i > 0 && next[g.log[i].id] == To(g.log[i - 1]))
  }

  /** The pointer to entry `i - 1`, or null at the beginning `lo` of the chain. */
  function At(log: seq<Arrival>, lo: nat, i: nat): Ptr
    requires i <= |log|
  {
    if i > lo then To(log[i - 1]) else Null
  }

  /** The entries from `lo` to `hi` form one chain. */
  ghost predicate Segment(g: View, lo: nat, hi: nat)
    requires lo <= hi <= |g.log| == |g.first|
  {
    forall i :: lo <= i < hi ==> (g.first[i] <==> i == lo)
  }

  ghost predicate WindowOk(g: View, w: Window)
    requires |g.log| == |g.first| == |g.resumed|
  {
    && w.lo < w.hi <= |g.log| && w.lo <= w.left <= w.hi && Segment(g, w.lo, w.hi)
    && (forall i :: w.lo <= i < w.hi ==> (g.resumed[i] <==> w.left <= i))
  }

  /** The beginning of the list that is not detached yet. */
  function Tail(wins: seq<Window>): nat { if wins == [] then 0 else wins[|wins| - 1].hi }

  /** The windows tile the log up to the undetached list, which is one chain of unresumed entries. */
  ghost predicate Tiled(g: View)
    requires |g.log| == |g.first| == |g.resumed|
  {
    && (forall k :: 0 <= k < |g.wins| ==> WindowOk(g, g.wins[k]))
    && (g.wins != [] ==> g.wins[0].lo == 0)
    && (forall j, k :: 0 <= j < k < |g.wins| ==> g.wins[j].hi <= g.wins[k].lo)
    && (forall j, k :: 0 <= j < k < |g.wins| && k == j + 1 ==> g.wins[j].hi == g.wins[k].lo)
    && Tail(g.wins) <= |g.log| && Segment(g, Tail(g.wins), |g.log|)
    && (forall i :: Tail(g.wins) <= i < |g.log| ==> !g.resumed[i])
  }

  ghost function Drops(log: seq<Arrival>, lo: nat, hi: nat): nat
    requires lo <= hi <= |log|
    decreases hi
  {
    if lo == hi then 0 else Drops(log, lo, hi - 1) + if log[hi - 1].drop then 1 else 0
  }

  /** Before the window is detached. */
  predicate Acquiring(c: Comp) { c == Load || c.Walk? || c.Trim? || c.Cut? }

  /** After the window is detached and before the counter is refilled. */
  predicate Detached(c: Comp) { c.CountDrops? || c.Complete? || c.Reduce? || c.Refill? }

  /** The completer of phase `k` and its window. */
  ghost predicate CompOk(g: View, c: Comp, w: Window) {
    && w.lo <= w.left <= w.hi <= |g.log|
    && match c
    case CountDrops(head, ptr, drops) =>
      && w.left == w.hi && head == At(g.log, w.lo, w.hi)
      && w.lo <= g.snap <= w.hi && ptr == At(g.log, w.lo, g.snap) && drops == Drops(g.log, g.snap, w.hi)
    case Complete(head, drops) =>
      w.left == w.hi && head == At(g.log, w.lo, w.hi) && drops == Drops(g.log, w.lo, w.hi)
    case Reduce(head, drops) =>
      w.left == w.hi && head == At(g.log, w.lo, w.hi) && drops == Drops(g.log, w.lo, w.hi)
    case Refill(head) => w.left == w.hi && head == At(g.log, w.lo, w.hi)
    case Resume(ptr, _, _) => ptr == At(g.log, w.lo, w.left)
    case Done => w.left == w.lo
    case _ => false
  }

  /** How many nodes the walk leaves behind `head`: it takes one even if nobody is expected any more. */
  function Width(expected: int): nat { if expected < 1 then 1 else expected }

  /** The completer that looks for its window: the oldest `Width(expected)` undetached entries. */
  ghost predicate AcquireOk(g: View, c: Comp, expected: int) {
    var lo, n, e := Tail(g.wins), |g.log|, Width(expected);
    && lo <= n
    && match c
       case Load => true
       case Walk(current, ptr, seen, head) =>
         && lo <= g.snap && g.snap + seen <= n
         && current == At(g.log, lo, g.snap + seen) && ptr == At(g.log, lo, g.snap)
         && (if seen < e then head == Null
             else g.snap + e <= n && head == At(g.log, lo, g.snap + e))
       case Trim(head) => lo + e <= n && head == At(g.log, lo, lo + e)
       case Cut(head, ptr) =>
         lo + e < g.snap <= n && head == At(g.log, lo, lo + e) && ptr == At(g.log, lo, g.snap)
       case _ => false
  }

  ghost predicate CompsOk(s: State, g: View) {
    var m := |s.comps|;
    && |g.wins| <= m
    && (forall k :: 0 <= k < |g.wins| ==> CompOk(g, s.comps[k], g.wins[k]))
    && (|g.wins| == m || (|g.wins| == m - 1 && AcquireOk(g, s.comps[m - 1], s.expected)))
  }

  ghost predicate Shape(s: State, g: View) {
    && |s.slots| == |s.next| == |g.pos| && !s.crashed
    && |g.log| == |g.first| == |g.resumed| && Tail(g.wins) <= |g.log|
    && Matched(s.slots, g) && Linked(s.next, g) && Tiled(g)
    && s.working == At(g.log, Tail(g.wins), |g.log|)
    && CompsOk(s, g)
  }

  /** The arrival that a step pushes. */
  function PushOf(s: State, a: Action): seq<Arrival>
    requires Enabled(s, a)
  {
    if a.CasSet? && s.working == s.slots[a.t].previous && !a.spurious then [Arrival(a.t, s.slots[a.t].drop)] else []
  }

  /** The step takes a window off the list. */
  predicate Detaches(s: State, a: Action)
    requires Enabled(s, a)
  {
    && a.Work?
    && match s.comps[a.c]
       case Trim(head) => s.working == head
       case Cut(head, ptr) => Live(s, ptr) && Next(s, ptr) == head
       case _ => false
  }

  /** How a step may change the meaning of the pointers: the log grows by pushes only, and the phases by
      the window of the oldest undetached entries only. */
  ghost predicate Evolves(g: View, pushed: seq<Arrival>, detaches: bool, expected: int, g': View) {
    && g'.initial == g.initial && g'.log == g.log + pushed
    && |g'.wins| == |g.wins| + (if detaches then 1 else 0)
    && (forall k :: 0 <= k < |g.wins| ==> g'.wins[k].lo == g.wins[k].lo && g'.wins[k].hi == g.wins[k].hi)
    && (detaches ==> g'.wins[|g.wins|].lo == Tail(g.wins) && g'.wins[|g.wins|].hi == Tail(g.wins) + Width(expected))
  }

  /** The search for the node in front of the window does not run off the list. */
  predicate CutFinds(c: Comp) { c.Cut? ==> c.ptr != Null }

  // ---------------------------------------------------------------------------------------------
  // Reading along a chain

  lemma ReadNext(s: State, g: View, lo: nat, hi: nat, i: nat)
    requires |s.slots| == |s.next| && |g.log| == |g.first| == |g.resumed| && Matched(s.slots, g) && Linked(s.next, g)
    requires lo < i <= hi <= |g.log| && Segment(g, lo, hi) && Alive(g, i - 1)
    ensures Live(s, At(g.log, lo, i)) && Next(s, At(g.log, lo, i)) == At(g.log, lo, i - 1)
  {
  }

  lemma AtInjective(slots: seq<Slot>, g: View, lo: nat, i: nat, j: nat)
    requires Matched(slots, g) && lo < i <= |g.log| && lo < j <= |g.log| && Alive(g, i - 1) && Alive(g, j - 1)
    ensures At(g.log, lo, i) == At(g.log, lo, j) ==> i == j
  {
  }

  // ---------------------------------------------------------------------------------------------
  // Arrivals keep the shape

  lemma ShapeOutside(s: State, s': State, g: View, t: nat)
    requires Shape(s, g) && t < |s.slots| == |s'.slots| == |s'.next| && !s.slots[t].Pushed? && !s'.slots[t].Pushed?
    requires s'.slots == s.slots[t := s'.slots[t]] && s'.next == s.next[t := s'.next[t]]
    requires s'.working == s.working && s'.comps == s.comps && s'.expected == s.expected && !s'.crashed
    ensures Shape(s', g)
  {
    hide Tiled, CompOk, AcquireOk;
    assert forall i :: Alive(g, i) ==> g.log[i].id != t;
  }

  /** The view after `t` has pushed. */
  ghost function Push(g: View, t: nat, drop: bool): View
    requires t < |g.pos|
  {
    g.(log := g.log + [Arrival(t, drop)], first := g.first + [|g.log| == Tail(g.wins)],
       resumed := g.resumed + [false], pos := g.pos[t := |g.log|])
  }

  lemma PushMatched(slots: seq<Slot>, g: View, t: nat, drop: bool)
    requires Matched(slots, g) && |g.log| == |g.first| == |g.resumed| && t < |slots| && !slots[t].Pushed?
    ensures Matched(slots[t := Pushed(drop)], Push(g, t, drop))
    ensures forall i :: Alive(Push(g, t, drop), i) <==> i == |g.log| || Alive(g, i)
    ensures forall i :: Alive(g, i) ==> g.log[i].id != t
  {
    var g' := Push(g, t, drop);
    forall i ensures Alive(g', i) <==> i == |g.log| || Alive(g, i) {
    }
  }

  lemma PushLinked(slots: seq<Slot>, next: seq<Ptr>, g: View, t: nat, drop: bool, w: Ptr)
    requires |g.log| == |g.first| == |g.resumed| && |g.pos| == |slots| == |next|
    requires Matched(slots, g) && Linked(next, g) && t < |slots| && !slots[t].Pushed?
    requires Tail(g.wins) <= |g.log| && w == At(g.log, Tail(g.wins), |g.log|)
    ensures Linked(next[t := w], Push(g, t, drop))
  {
    var g', next' := Push(g, t, drop), next[t := w];
    PushMatched(slots, g, t, drop);
    forall i | Alive(g', i) ensures Link(next', g', i) {
      assert i > 0 ==> g'.log[i - 1] == g.log[i - 1];
      if i < |g.log| {
        assert Alive(g, i) && Link(next, g, i) && g.log[i].id != t;
      } else {
        assert g'.log[i].id == t;
      }
    }
  }

  lemma PushTiled(g: View, t: nat, drop: bool)
    requires |g.log| == |g.first| == |g.resumed| && t < |g.pos| && Tiled(g)
    ensures Tiled(Push(g, t, drop))
  {
    var g' := Push(g, t, drop);
    forall k | 0 <= k < |g.wins| ensures WindowOk(g', g.wins[k]) {
      assert WindowOk(g, g.wins[k]);
    }
  }

  lemma {:induction false} DropsFrame(log: seq<Arrival>, log': seq<Arrival>, lo: nat, hi: nat)
    requires lo <= hi <= |log| && log <= log'
    ensures Drops(log', lo, hi) == Drops(log, lo, hi)
    decreases hi
  {
    if lo < hi {
      DropsFrame(log, log', lo, hi - 1);
    }
  }

  lemma PushComps(s: State, s': State, g: View, t: nat, drop: bool)
    requires |g.log| == |g.first| == |g.resumed| && t < |g.pos| && CompsOk(s, g)
    requires s'.expected == s.expected
    requires s'.comps == s.comps || (s'.comps == s.comps + [Load] && |g.wins| == |s.comps|)
    ensures CompsOk(s', Push(g, t, drop))
  {
    var g' := Push(g, t, drop);
    forall k | 0 <= k < |g.wins| ensures CompOk(g', s'.comps[k], g.wins[k]) {
      assert CompOk(g, s.comps[k], g.wins[k]);
      PushComp(g, g', s.comps[k], g.wins[k]);
    }
    hide CompOk;
  }

  lemma PushComp(g: View, g': View, c: Comp, w: Window)
    requires CompOk(g, c, w) && g.log <= g'.log && g'.snap == g.snap
    ensures CompOk(g', c, w)
  {
    if c.CountDrops? { DropsFrame(g.log, g'.log, g.snap, w.hi); }
    if c.Complete? || c.Reduce? { DropsFrame(g.log, g'.log, w.lo, w.hi); }
  }

  lemma ShapePush(s: State, g: View, t: nat)
    requires Shape(s, g) && Sound(s) && t < |s.slots| && s.slots[t].PushCas? && s.slots[t].previous == s.working
    ensures Shape(StepCas(s, t, false), Push(g, t, s.slots[t].drop))
  {
    hide Matched, Linked, Tiled, CompsOk;
    var PushCas(drop, last, _) := s.slots[t];
    PushMatched(s.slots, g, t, drop);
    PushLinked(s.slots, s.next, g, t, drop, s.working);
    PushTiled(g, t, drop);
    if last { LastMeansNobody(s, g, t); }
    PushComps(s, StepCas(s, t, false), g, t, drop);
  }

  /** While an arrival is about to complete a phase, all earlier phases have been taken off the list. */
  lemma LastMeansNobody(s: State, g: View, t: nat)
    requires CompsOk(s, g) && Sound(s) && t < |s.slots| && IsLast(s.slots[t])
    ensures |g.wins| == |s.comps|
  {
    CountPositive(s.slots, IsLast);
  }

  // ---------------------------------------------------------------------------------------------
  // Completers keep the shape

  /** A completer that still looks for its window is the latest one, and nobody else has a phase open. */
  lemma AcquiringIsLatest(s: State, g: View, c: nat)
    requires CompsOk(s, g) && c < |s.comps| && Acquiring(s.comps[c])
    ensures c == |s.comps| - 1 == |g.wins| && AcquireOk(g, s.comps[c], s.expected)
  {
    assert c < |g.wins| ==> CompOk(g, s.comps[c], g.wins[c]);
  }

  /** A completer past that owns the window of its own number. */
  lemma OwnsWindow(s: State, g: View, c: nat)
    requires CompsOk(s, g) && c < |s.comps| && !Acquiring(s.comps[c])
    ensures c < |g.wins| && CompOk(g, s.comps[c], g.wins[c])
  {
  }

  /** A step that changes nothing but the latest completer's own position in its walk. */
  lemma CompsAcquire(s: State, s': State, g: View, g': View)
    requires CompsOk(s, g) && |s.comps| == |g.wins| + 1 == |s'.comps|
    requires g' == g.(snap := g'.snap) && s'.comps == s.comps[|g.wins| := s'.comps[|g.wins|]]
    requires s'.expected == s.expected && AcquireOk(g', s'.comps[|g.wins|], s.expected)
    requires forall k :: 0 <= k < |g.wins| ==> !s.comps[k].CountDrops?
    ensures CompsOk(s', g')
  {
    forall k | 0 <= k < |g.wins| ensures CompOk(g', s'.comps[k], g'.wins[k]) {
      assert CompOk(g, s.comps[k], g.wins[k]);
    }
  }

  lemma ShapeSnap(s: State, s': State, g: View, g': View)
    requires Shape(s, g) && g' == g.(snap := g'.snap) && CompsOk(s', g')
    requires s'.slots == s.slots && s'.next == s.next && s'.working == s.working && !s'.crashed
    ensures Shape(s', g')
  {
    hide CompsOk;
    assert forall i :: Alive(g', i) <==> Alive(g, i);
    assert forall i :: Alive(g', i) ==> Link(s.next, g, i);
    forall k | 0 <= k < |g'.wins| ensures WindowOk(g', g'.wins[k]) {
      assert WindowOk(g, g.wins[k]);
    }
  }

  /** The undetached list, as far as reading along it is concerned. */
  lemma ReadTail(s: State, g: View, i: nat)
    requires Shape(s, g) && Tail(g.wins) < i <= |g.log|
    ensures Alive(g, i - 1)
    ensures Live(s, At(g.log, Tail(g.wins), i)) && Next(s, At(g.log, Tail(g.wins), i)) == At(g.log, Tail(g.wins), i - 1)
  {
    hide CompsOk, Matched, Linked;
    ReadNext(s, g, Tail(g.wins), |g.log|, i);
  }

  lemma WalkStep(s: State, g: View, w: Comp) returns (g': View)
    requires Shape(s, g) && w.Walk? && AcquireOk(g, w, s.expected)
    ensures g' == g.(snap := if g.snap > Tail(g.wins) then g.snap - 1 else g.snap)
    ensures !StepWalk(s, w).1 && AcquireOk(g', StepWalk(s, w).0, s.expected)
  {
    hide Shape;
    var lo := Tail(g.wins);
    g' := g;
    if g.snap > lo {
      ReadTail(s, g, g.snap);
      if w.seen >= Width(s.expected) { ReadTail(s, g, g.snap + Width(s.expected)); }
      g' := g.(snap := g.snap - 1);
    }
    hide Live;
  }

  lemma ShapeAcquire(s: State, g: View, c: nat) returns (g': View)
    requires Shape(s, g) && Sound(s) && c < |s.comps| && (s.comps[c] == Load || s.comps[c].Walk?)
    ensures Shape(StepWork(s, c), g')
    ensures g' == g.(snap := if s.comps[c] == Load then |g.log| else if g.snap > Tail(g.wins) then g.snap - 1 else g.snap)
  {
    hide Matched, Linked, Tiled, CompsOk, AcquireOk;
    AcquiringIsLatest(s, g, c);
    assert forall k :: 0 <= k < |g.wins| ==> !s.comps[k].CountDrops?;
    hide Sound;
    if s.comps[c] == Load {
      g' := g.(snap := |g.log|);
      LoadStep(g, s.expected);
    } else {
      g' := WalkStep(s, g, s.comps[c]);
    }
    CompsAcquire(s, StepWork(s, c), g, g');
    ShapeSnap(s, StepWork(s, c), g, g');
  }

  lemma LoadStep(g: View, expected: int)
    requires Tail(g.wins) <= |g.log|
    ensures var p := At(g.log, Tail(g.wins), |g.log|); AcquireOk(g.(snap := |g.log|), Walk(p, p, 0, Null), expected)
  {
  }

  /** The view after the oldest `e` undetached entries became the next window. */
  ghost function Detach(g: View, e: nat): View
    requires Tail(g.wins) + e <= |g.log| == |g.first|
  {
    var lo := Tail(g.wins);
    g.(wins := g.wins + [Window(lo, lo + e, lo + e)], snap := lo + e,
       first := if lo + e < |g.log| then g.first[lo + e := true] else g.first)
  }

  lemma DetachTiled(g: View, e: nat)
    requires |g.log| == |g.first| == |g.resumed| && e >= 1 && Tail(g.wins) + e <= |g.log| && Tiled(g)
    ensures Tiled(Detach(g, e)) && Tail(Detach(g, e).wins) == Tail(g.wins) + e
  {
    var g', lo := Detach(g, e), Tail(g.wins);
    forall k | 0 <= k < |g.wins| ensures g.wins[k].hi <= lo && WindowOk(g', g'.wins[k]) {
      BeforeTail(g, k);
      DetachWindow(g, e, k);
    }
    assert WindowOk(g', g'.wins[|g.wins|]);
    hide WindowOk;
  }

  lemma DetachWindow(g: View, e: nat, k: nat)
    requires |g.log| == |g.first| == |g.resumed| && Tail(g.wins) + e <= |g.log| && Tiled(g)
    requires e >= 1 && k < |g.wins| && g.wins[k].hi <= Tail(g.wins)
    ensures WindowOk(Detach(g, e), g.wins[k])
  {
    assert WindowOk(g, g.wins[k]);
  }

  lemma BeforeTail(g: View, k: nat)
    requires |g.log| == |g.first| == |g.resumed| && Tiled(g) && k < |g.wins|
    ensures g.wins[k].hi <= Tail(g.wins)
  {
    assert k < |g.wins| - 1 ==> g.wins[k].hi <= g.wins[|g.wins| - 1].lo;
    assert WindowOk(g, g.wins[|g.wins| - 1]);
  }

  lemma DetachMatched(slots: seq<Slot>, g: View, e: nat)
    requires |g.log| == |g.first| == |g.resumed| && Tail(g.wins) + e <= |g.log| && Matched(slots, g)
    ensures Matched(slots, Detach(g, e))
  {
    assert forall i :: Alive(Detach(g, e), i) <==> Alive(g, i);
  }

  lemma DetachLinked(slots: seq<Slot>, next: seq<Ptr>, g: View, e: nat)
    requires |g.log| == |g.first| == |g.resumed| && Tail(g.wins) + e <= |g.log|
    requires Matched(slots, g) && Linked(next, g) && |slots| == |next|
    requires Tail(g.wins) + e < |g.log| ==> Alive(g, Tail(g.wins) + e)
    ensures var b := Tail(g.wins) + e;
      Linked(if b < |g.log| then next[g.log[b].id := Null] else next, Detach(g, e))
  {
    var g', b := Detach(g, e), Tail(g.wins) + e;
    var next' := if b < |g.log| then next[g.log[b].id := Null] else next;
    forall i | Alive(g', i) ensures Link(next', g', i) {
      assert Alive(g, i) && Link(next, g, i);
      if b < |g.log| && i != b {
        assert g.log[i].id != g.log[b].id;
      }
    }
  }

  lemma DetachComps(s: State, s': State, g: View, e: nat)
    requires CompsOk(s, g) && |s.comps| == |g.wins| + 1 && |g.log| == |g.first|
    requires e >= 1 && Tail(g.wins) + e <= |g.log|
    requires forall k :: 0 <= k < |g.wins| ==> !s.comps[k].CountDrops?
    requires var head := At(g.log, Tail(g.wins), Tail(g.wins) + e);
      s'.comps == s.comps[|g.wins| := CountDrops(head, head, 0)]
    ensures CompsOk(s', Detach(g, e))
  {
    var g' := Detach(g, e);
    forall k | 0 <= k < |g'.wins| ensures CompOk(g', s'.comps[k], g'.wins[k]) {
      if k < |g.wins| {
        assert CompOk(g, s.comps[k], g.wins[k]);
      }
    }
  }

  /** Taking the window off the list, at the root or by cutting the link in front of it. */
  lemma ShapeDetach(s: State, s': State, g: View, e: nat)
    requires Shape(s, g) && Sound(s) && |s.comps| == |g.wins| + 1 && e >= 1 && Tail(g.wins) + e <= |g.log|
    requires Holds(s.comps[|g.wins|])
    requires var head := At(g.log, Tail(g.wins), Tail(g.wins) + e);
      s'.comps == s.comps[|g.wins| := CountDrops(head, head, 0)]
    requires s'.slots == s.slots && !s'.crashed
    requires var b := Tail(g.wins) + e;
      if b < |g.log| then g.log[b].id < |s.next| && s'.next == s.next[g.log[b].id := Null] && s'.working == s.working
      else s'.next == s.next && s'.working == Null
    ensures Shape(s', Detach(g, e))
  {
    HolderIsLatest(s, |g.wins|);
    hide Matched, Linked, Tiled, CompsOk, Sound;
    var b := Tail(g.wins) + e;
    if b < |g.log| { ReadTail(s, g, b + 1); }
    DetachMatched(s.slots, g, e);
    DetachLinked(s.slots, s.next, g, e);
    DetachTiled(g, e);
    DetachComps(s, s', g, e);
  }

  lemma ShapeTrim(s: State, g: View, c: nat) returns (g': View)
    requires c < |s.comps| && s.comps[c].Trim? && Shape(s, g) && Sound(s)
    ensures Shape(StepWork(s, c), g') && Evolves(g, [], s.working == s.comps[c].head, s.expected, g')
    ensures Tail(g.wins) + Width(s.expected) <= |g.log| == |g.first|
    ensures g' == if s.working == s.comps[c].head then Detach(g, Width(s.expected)) else g.(snap := |g.log|)
  {
    hide Matched, Linked, Tiled, CompsOk;
    AcquiringIsLatest(s, g, c);
    var lo, e, n := Tail(g.wins), Width(s.expected), |g.log|;
    ReadTail(s, g, n);
    ReadTail(s, g, lo + e);
    AtInjective(s.slots, g, lo, n, lo + e);
    if s.working == s.comps[c].head {
      g' := Detach(g, e);
      ShapeDetach(s, StepWork(s, c), g, e);
    } else {
      g' := g.(snap := n);
      assert forall k :: 0 <= k < |g.wins| ==> !s.comps[k].CountDrops?;
      CompsAcquire(s, StepWork(s, c), g, g');
      ShapeSnap(s, StepWork(s, c), g, g');
    }
  }

  lemma ShapeCut(s: State, g: View, c: nat) returns (g': View)
    requires c < |s.comps| && s.comps[c].Cut? && Shape(s, g) && Sound(s)
    ensures Live(s, s.comps[c].ptr) && Shape(StepWork(s, c), g')
    ensures Evolves(g, [], Next(s, s.comps[c].ptr) == s.comps[c].head, s.expected, g')
    ensures Tail(g.wins) + Width(s.expected) < g.snap <= |g.log| == |g.first|
    ensures g' == if Next(s, s.comps[c].ptr) == s.comps[c].head then Detach(g, Width(s.expected))
                  else g.(snap := g.snap - 1)
  {
    hide Matched, Linked, Tiled, CompsOk;
    AcquiringIsLatest(s, g, c);
    var lo, e := Tail(g.wins), Width(s.expected);
    ReadTail(s, g, g.snap);
    ReadTail(s, g, g.snap - 1);
    ReadTail(s, g, lo + e);
    AtInjective(s.slots, g, lo, g.snap - 1, lo + e);
    if Next(s, s.comps[c].ptr) == s.comps[c].head {
      g' := Detach(g, e);
      ShapeDetach(s, StepWork(s, c), g, e);
    } else {
      g' := g.(snap := g.snap - 1);
      assert forall k :: 0 <= k < |g.wins| ==> !s.comps[k].CountDrops?;
      CompsAcquire(s, StepWork(s, c), g, g');
      ShapeSnap(s, StepWork(s, c), g, g');
    }
  }

  lemma {:induction false} DropsFront(log: seq<Arrival>, lo: nat, hi: nat)
    requires lo < hi <= |log|
    ensures Drops(log, lo, hi) == (if log[lo].drop then 1 else 0) + Drops(log, lo + 1, hi)
    decreases hi
  {
    if lo + 1 < hi {
      DropsFront(log, lo, hi - 1);
    }
  }

  /** A step of completer `c` that changes only its own position within its window. */
  lemma CompsWindow(s: State, s': State, g: View, g': View, c: nat)
    requires CompsOk(s, g) && c < |g.wins| && c == |s.comps| - 1 && |s'.comps| == |s.comps|
    requires g' == g.(snap := g'.snap) && s'.comps == s.comps[c := s'.comps[c]] && CompOk(g', s'.comps[c], g.wins[c])
    requires forall k :: 0 <= k < c ==> !s.comps[k].CountDrops?
    ensures CompsOk(s', g')
  {
    forall k | 0 <= k < |g.wins| && k != c ensures CompOk(g', s'.comps[k], g'.wins[k]) {
      assert CompOk(g, s.comps[k], g.wins[k]);
    }
  }

  /** Reading along the unresumed part of a window. */
  lemma ReadWindow(s: State, g: View, k: nat, i: nat)
    requires Shape(s, g) && k < |g.wins| && g.wins[k].lo < i <= g.wins[k].left
    ensures g.wins[k].hi <= |g.log| && Alive(g, i - 1)
    ensures var p := At(g.log, g.wins[k].lo, i); Live(s, p) && Next(s, p) == At(g.log, g.wins[k].lo, i - 1)
  {
    hide CompsOk, Matched, Linked;
    assert WindowOk(g, g.wins[k]);
    ReadNext(s, g, g.wins[k].lo, g.wins[k].hi, i);
  }

  lemma DropStep(s: State, g: View, c: nat, w: Window)
    requires c < |s.comps| && s.comps[c].CountDrops? && CompOk(g, s.comps[c], w) && !s.crashed
    requires g.snap > w.lo ==>
      var p := At(g.log, w.lo, g.snap); Live(s, p) && Next(s, p) == At(g.log, w.lo, g.snap - 1)
    ensures StepWork(s, c) == s.(comps := s.comps[c := StepWork(s, c).comps[c]])
    ensures CompOk(if g.snap > w.lo then g.(snap := g.snap - 1) else g, StepWork(s, c).comps[c], w)
  {
    if g.snap > w.lo {
      DropsFront(g.log, g.snap - 1, w.hi);
    }
    hide Live, Drops;
  }

  lemma HolderIsLatest(s: State, c: nat)
    requires Sound(s) && c < |s.comps| && Holds(s.comps[c])
    ensures c == |s.comps| - 1 && forall k :: 0 <= k < c ==> !s.comps[k].CountDrops?
  {
  }

  lemma ShapeCountDrops(s: State, g: View, c: nat) returns (g': View)
    requires c < |s.comps| && s.comps[c].CountDrops? && Shape(s, g) && Sound(s)
    ensures Shape(StepWork(s, c), g') && c < |g.wins|
    ensures g' == g.(snap := if g.snap > g.wins[c].lo then g.snap - 1 else g.snap)
  {
    hide Matched, Linked, Tiled, CompsOk, Sound, CompOk, Live;
    HolderIsLatest(s, c);
    OwnsWindow(s, g, c);
    g' := g;
    DropRead(g, s.comps[c], g.wins[c]);
    if g.snap > g.wins[c].lo {
      ReadWindow(s, g, c, g.snap);
      g' := g.(snap := g.snap - 1);
    }
    DropStep(s, g, c, g.wins[c]);
    hide Drops, StepWork, At;
    CompsWindow(s, StepWork(s, c), g, g', c);
    ShapeSnap(s, StepWork(s, c), g, g');
  }

  lemma DropRead(g: View, c: Comp, w: Window)
    requires c.CountDrops? && CompOk(g, c, w)
    ensures g.snap <= w.hi == w.left <= |g.log| && c.ptr == At(g.log, w.lo, g.snap)
  {
  }

  /** Between counting the drops and refilling the counter a completer touches no list. */
  lemma ShapeDetached(s: State, g: View, c: nat)
    requires c < |s.comps| && Detached(s.comps[c]) && !s.comps[c].CountDrops? && Shape(s, g) && Sound(s)
    ensures Shape(StepWork(s, c), g)
  {
    hide Matched, Linked, Tiled, CompsOk, Sound, Drops;
    HolderIsLatest(s, c);
    OwnsWindow(s, g, c);
    CompsWindow(s, StepWork(s, c), g, g, c);
    hide CompOk;
    ShapeSnap(s, StepWork(s, c), g, g);
  }

  /** The view after completer `k` resumed one more entry of its window. */
  ghost function Resumed(g: View, k: nat): View
    requires k < |g.wins| && 0 < g.wins[k].left <= |g.resumed|
  {
    var i := g.wins[k].left - 1;
    g.(wins := g.wins[k := g.wins[k].(left := i)], resumed := g.resumed[i := true])
  }

  lemma ResumedWindow(g: View, k: nat, j: nat)
    requires |g.log| == |g.first| == |g.resumed| && Tiled(g) && j < |g.wins| && k < |g.wins|
    requires g.wins[k].lo < g.wins[k].left <= |g.log|
    ensures WindowOk(Resumed(g, k), Resumed(g, k).wins[j])
  {
    assert WindowOk(g, g.wins[j]) && WindowOk(g, g.wins[k]);
    assert j < k ==> g.wins[j].hi <= g.wins[k].lo;
    assert k < j ==> g.wins[k].hi <= g.wins[j].lo;
  }

  lemma ResumedTiled(g: View, k: nat)
    requires |g.log| == |g.first| == |g.resumed| && Tiled(g) && k < |g.wins| && g.wins[k].lo < g.wins[k].left
    requires g.wins[k].left <= g.wins[k].hi <= |g.log|
    ensures Tiled(Resumed(g, k)) && Tail(Resumed(g, k).wins) == Tail(g.wins)
  {
    var g', i := Resumed(g, k), g.wins[k].left - 1;
    forall j | 0 <= j < |g.wins| ensures WindowOk(g', g'.wins[j]) {
      ResumedWindow(g, k, j);
    }
    BeforeTail(g, k);
  }

  lemma ResumedMatched(slots: seq<Slot>, next: seq<Ptr>, g: View, k: nat)
    requires |g.log| == |g.first| == |g.resumed| && k < |g.wins| && 0 < g.wins[k].left <= |g.resumed|
    requires Matched(slots, g) && Linked(next, g) && Alive(g, g.wins[k].left - 1)
    ensures g.log[g.wins[k].left - 1].id < |slots|
    ensures Matched(slots[g.log[g.wins[k].left - 1].id := Free], Resumed(g, k)) && Linked(next, Resumed(g, k))
  {
    var g', i := Resumed(g, k), g.wins[k].left - 1;
    assert forall j :: Alive(g', j) <==> Alive(g, j) && j != i;
    forall j | Alive(g', j) ensures Link(next, g', j) {
      assert Link(next, g, j);
    }
  }

  lemma ResumedComps(s: State, s': State, g: View, k: nat)
    requires CompsOk(s, g) && k < |g.wins| && 0 < g.wins[k].left <= |g.resumed|
    requires s'.expected == s.expected && |s'.comps| == |s.comps| && s'.comps == s.comps[k := s'.comps[k]]
    requires Tail(Resumed(g, k).wins) == Tail(g.wins)
    requires CompOk(Resumed(g, k), s'.comps[k], Resumed(g, k).wins[k])
    ensures CompsOk(s', Resumed(g, k))
  {
    var g' := Resumed(g, k);
    forall j | 0 <= j < |g.wins| && j != k ensures CompOk(g', s'.comps[j], g'.wins[j]) {
      assert CompOk(g, s.comps[j], g.wins[j]);
    }
    hide CompOk;
  }

  lemma ShapeResume(s: State, g: View, c: nat)
    requires Shape(s, g) && c < |s.comps| && s.comps[c].Resume? && s.comps[c].ptr != Null
    ensures Live(s, s.comps[c].ptr)
    ensures c < |g.wins| && 0 < g.wins[c].left <= |g.resumed| && Shape(StepWork(s, c), Resumed(g, c))
    ensures s.comps[c].ptr == To(g.log[g.wins[c].left - 1])
  {
    hide Matched, Linked, Tiled, CompsOk;
    OwnsWindow(s, g, c);
    ReadWindow(s, g, c, g.wins[c].left);
    ResumedTiled(g, c);
    ResumedMatched(s.slots, s.next, g, c);
    ResumedComps(s, StepWork(s, c), g, c);
  }

  lemma ShapeDecision(s: State, g: View, c: nat)
    requires Enabled(s, Work(c)) && s.comps[c].Resume? && s.comps[c].ptr == Null && Good(s, Work(c))
    requires Shape(s, g) && Sound(s)
    ensures Shape(StepWork(s, c), g)
  {
    hide Matched, Linked, Tiled;
    var s' := StepWork(s, c);
    OwnsWindow(s, g, c);
    if s.comps[c].before <= -s.expected {
      assert c == |s.comps| - 1;
    }
    forall k | 0 <= k < |g.wins| ensures CompOk(g, s'.comps[k], g.wins[k]) {
      assert CompOk(g, s.comps[k], g.wins[k]);
    }
  }

  lemma ShapeStep(s: State, g: View, a: Action) returns (g': View)
    requires Enabled(s, a) && Shape(s, g) && Sound(s) && Good(s, a)
    ensures Shape(Step(s, a), g') && Evolves(g, PushOf(s, a), Detaches(s, a), s.expected, g')
    ensures a.Work? ==> CutFinds(s.comps[a.c])
  {
    g' := g;
    hide Shape, Sound, Good;
    match a
    case Work(c) => g' := ShapeWork(s, g, c);
    case CasSet(t, spurious) =>
      if s.working == s.slots[t].previous && !spurious {
        ShapePush(s, g, t);
        ShapeSizes(s, g);
        g' := Push(g, t, s.slots[t].drop);
      } else {
        ShapeQuiet(s, g, a);
      }
    case _ => ShapeQuiet(s, g, a);
  }

  lemma ShapeWork(s: State, g: View, c: nat) returns (g': View)
    requires Enabled(s, Work(c)) && Shape(s, g) && Sound(s) && Good(s, Work(c))
    ensures Shape(StepWork(s, c), g') && Evolves(g, [], Detaches(s, Work(c)), s.expected, g')
    ensures CutFinds(s.comps[c])
  {
    g' := g;
    hide Shape, Sound, Good, StepWork, Evolves;
    match s.comps[c] {
      case Load => g' := ShapeAcquire(s, g, c); EvolvesNot(g, g', s.expected);
      case Walk(_, _, _, _) => g' := ShapeAcquire(s, g, c); EvolvesNot(g, g', s.expected);
      case Trim(_) => g' := ShapeTrim(s, g, c);
      case Cut(_, _) => g' := ShapeCut(s, g, c);
      case Resume(ptr, _, _) =>
        if ptr == Null {
          ShapeDecision(s, g, c);
          EvolvesNot(g, g, s.expected);
        } else {
          ShapeResume(s, g, c);
          g' := Resumed(g, c);
          EvolvesNot(g, g', s.expected);
        }
      case CountDrops(_, _, _) => g' := ShapeCountDrops(s, g, c); EvolvesNot(g, g', s.expected);
      case _ => ShapeDetached(s, g, c); EvolvesNot(g, g, s.expected);
    }
  }

  lemma EvolvesNot(g: View, g': View, expected: int)
    requires g'.initial == g.initial && g'.log == g.log && |g'.wins| == |g.wins|
    requires forall k :: 0 <= k < |g.wins| ==> g'.wins[k].lo == g.wins[k].lo && g'.wins[k].hi == g.wins[k].hi
    ensures Evolves(g, [], false, expected, g')
  {
  }

  lemma ShapeSizes(s: State, g: View)
    requires Shape(s, g)
    ensures |g.pos| == |s.slots| && !s.crashed && Tail(g.wins) <= |g.log|
  {
  }

  lemma ShapeQuiet(s: State, g: View, a: Action)
    requires Shape(s, g) && Enabled(s, a) && !a.Work? && (a.CasSet? ==> s.working != s.slots[a.t].previous || a.spurious)
    ensures Shape(Step(s, a), g)
  {
    ShapeSizes(s, g);
    hide Shape;
    assert s.next == s.next[a.t := s.next[a.t]] && s.slots == s.slots[a.t := s.slots[a.t]];
    ShapeOutside(s, Step(s, a), g, a.t);
  }

  // ---------------------------------------------------------------------------------------------
  // Counting

  predicate Announced(x: Slot) { x.PushLoad? || x.PushCas? }

  /** The drops of its window are not taken off expected_ yet. */
  predicate Unsettled(c: Comp) { c.CountDrops? || c.Complete? || c.Reduce? }

  /** The completion step of its phase has not run yet. */
  predicate Uncompleted(c: Comp) { c.CountDrops? || c.Complete? }

  function LastComp(s: State): Comp { if s.comps == [] then Done else s.comps[|s.comps| - 1] }

  /** How many arrivals a phase takes beyond those it expects. */
  function Excess(expected: int): nat { Width(expected) - expected }

  /** How many arrivals all phases so far took without expecting them: none as long as somebody is expected. */
  ghost function Debt(initial: int, log: seq<Arrival>, wins: seq<Window>): nat {
    if wins == [] then 0
    else
      var lo := wins[|wins| - 1].lo;
      Debt(initial, log, wins[..|wins| - 1]) + if lo <= |log| then Excess(initial - Drops(log, 0, lo)) else 0
  }

  lemma {:induction false} DebtFrame(initial: int, log: seq<Arrival>, log': seq<Arrival>, wins: seq<Window>,
                                     wins': seq<Window>)
    requires log <= log' && |wins| == |wins'|
    requires forall k :: 0 <= k < |wins| ==> wins[k].lo <= |log| && wins'[k].lo == wins[k].lo
    ensures Debt(initial, log', wins') == Debt(initial, log, wins)
  {
    if wins != [] {
      var n := |wins| - 1;
      DebtFrame(initial, log, log', wins[..n], wins'[..n]);
      DropsFrame(log, log', 0, wins[n].lo);
    }
  }

  /** The debt after a step: the window that is taken off the list adds the excess of its phase. */
  lemma DebtStep(g: View, pushed: seq<Arrival>, detaches: bool, expected: int, g': View)
    requires Evolves(g, pushed, detaches, expected, g') && Tail(g.wins) <= |g.log|
    requires forall k :: 0 <= k < |g.wins| ==> g.wins[k].lo <= |g.log|
    requires detaches ==> pushed == [] && expected == g.initial - Drops(g.log, 0, Tail(g.wins))
    ensures Debt(g'.initial, g'.log, g'.wins)
         == Debt(g.initial, g.log, g.wins) + if detaches then Excess(expected) else 0
  {
    var n := |g.wins|;
    assert g'.wins[..n] == if detaches then g'.wins[..|g'.wins| - 1] else g'.wins;
    DebtFrame(g.initial, g.log, g'.log, g.wins, g'.wins[..n]);
    if detaches { assert g'.log == g.log; }
  }

  /** The counter is what is still expected: the undetached arrivals, those that are announced but not pushed,
      and those that were taken without being expected make up the difference, to zero while a window is
      detached and the counter not yet refilled. */
  ghost predicate Counted(s: State, g: View) {
    Count(s.slots, Announced) + |g.log| - Tail(g.wins) + Debt(g.initial, g.log, g.wins)
      == (if Detached(LastComp(s)) then 0 else s.expected) - s.count
  }

  lemma CountedArrival(s: State, g: View, a: Action, g': View)
    requires Enabled(s, a) && !a.Work? && Sound(s) && Counted(s, g)
    requires Evolves(g, PushOf(s, a), false, s.expected, g')
    requires Debt(g'.initial, g'.log, g'.wins) == Debt(g.initial, g.log, g.wins)
    ensures Counted(Step(s, a), g')
  {
    hide Debt;
    var s' := Step(s, a);
    if !a.ReuseNode? {
      if IsLast(s.slots[a.t]) { CountPositive(s.slots, IsLast); }
      CountUpdate(s.slots, a.t, s'.slots[a.t], Announced);
    }
    assert Tail(g'.wins) == Tail(g.wins);
    assert Detached(LastComp(s')) <==> Detached(LastComp(s));
    hide Sound;
  }

  lemma CountedWork(s: State, g: View, c: nat, g': View)
    requires Enabled(s, Work(c)) && Sound(s) && Counted(s, g) && Good(s, Work(c)) && !StepWork(s, c).crashed
    requires CutFinds(s.comps[c])
    requires Evolves(g, [], Detaches(s, Work(c)), s.expected, g')
    requires Debt(g'.initial, g'.log, g'.wins)
          == Debt(g.initial, g.log, g.wins) + if Detaches(s, Work(c)) then Excess(s.expected) else 0
    ensures Counted(StepWork(s, c), g')
  {
    hide Debt;
    var s' := StepWork(s, c);
    assert Tail(g'.wins) == Tail(g.wins) + if Detaches(s, Work(c)) then Width(s.expected) else 0;
    assert s.comps[c].Resume? || c == |s.comps| - 1;
    WorkEffect(s, c);
    if s.comps[c].Resume? && s.comps[c].ptr != Null {
      CountUpdate(s.slots, s.comps[c].ptr.node.id, Free, Announced);
    }
    hide Sound, Evolves, Good, StepWork;
  }

  /** What a completer's step does to the counters. */
  lemma WorkEffect(s: State, c: nat)
    requires Enabled(s, Work(c)) && !StepWork(s, c).crashed && Sound(s) && Good(s, Work(c)) && CutFinds(s.comps[c])
    ensures var s' := StepWork(s, c);
      && s'.count == s.count + (if s.comps[c].Refill? then s.expected else 0)
      && s'.expected == s.expected - (if s.comps[c].Reduce? then s.comps[c].drops else 0)
      && s'.completions == s.completions + (if s.comps[c].Complete? then 1 else 0)
      && (s.comps[c].Resume? && s.comps[c].ptr != Null ==>
            Live(s, s.comps[c].ptr) && s'.slots == s.slots[s.comps[c].ptr.node.id := Free])
      && (!(s.comps[c].Resume? && s.comps[c].ptr != Null) ==> s'.slots == s.slots)
      && (Detached(LastComp(s')) <==>
            Detaches(s, Work(c)) || (Detached(LastComp(s)) && !s.comps[c].Refill?))
      && (Unsettled(LastComp(s')) <==>
            Detaches(s, Work(c)) || (Unsettled(LastComp(s)) && !s.comps[c].Reduce?))
      && (Uncompleted(LastComp(s')) <==>
            Detaches(s, Work(c)) || (Uncompleted(LastComp(s)) && !s.comps[c].Complete?))
  {
  }

  // ---------------------------------------------------------------------------------------------
  // Phases

  /** Every phase takes as many arrivals as the first one minus everybody dropped in earlier phases, and the
      completion step has run once for each phase but the one that is being completed. */
  ghost predicate Phased(s: State, g: View) {
    && (forall k :: 0 <= k < |g.wins| ==> WindowSize(g, g.wins[k]))
    && Tail(g.wins) <= |g.log|
    && (Unsettled(LastComp(s)) ==> g.wins != [])
    && Settled(s, g) <= |g.log| && s.expected == g.initial - Drops(g.log, 0, Settled(s, g))
    && s.completions == |g.wins| - (if Uncompleted(LastComp(s)) then 1 else 0)
  }

  ghost predicate WindowSize(g: View, w: Window) {
    w.lo <= |g.log| && w.hi - w.lo == Width(g.initial - Drops(g.log, 0, w.lo))
  }

  /** The arrivals whose drops are taken off expected_. */
  function Settled(s: State, g: View): nat {
    if Unsettled(LastComp(s)) && g.wins != [] then g.wins[|g.wins| - 1].lo else Tail(g.wins)
  }

  lemma {:induction false} DropsSplit(log: seq<Arrival>, mid: nat, hi: nat)
    requires mid <= hi <= |log|
    ensures Drops(log, 0, hi) == Drops(log, 0, mid) + Drops(log, mid, hi)
    decreases hi
  {
    if mid < hi {
      DropsSplit(log, mid, hi - 1);
    }
  }

  lemma PhasedArrival(s: State, g: View, a: Action, g': View)
    requires Enabled(s, a) && !a.Work? && Sound(s) && Phased(s, g)
    requires Evolves(g, PushOf(s, a), false, s.expected, g')
    ensures Phased(Step(s, a), g')
  {
    var s' := Step(s, a);
    if !a.ReuseNode? && IsLast(s.slots[a.t]) { CountPositive(s.slots, IsLast); }
    assert Unsettled(LastComp(s')) <==> Unsettled(LastComp(s));
    assert Uncompleted(LastComp(s')) <==> Uncompleted(LastComp(s));
    hide Sound, Drops;
    assert Tail(g'.wins) == Tail(g.wins) && Settled(s', g') == Settled(s, g);
    DropsFrame(g.log, g'.log, 0, Settled(s, g));
    forall k | 0 <= k < |g'.wins| ensures WindowSize(g', g'.wins[k]) {
      assert WindowSize(g, g.wins[k]);
      DropsFrame(g.log, g'.log, 0, g.wins[k].lo);
    }
  }

  lemma WorkOwner(s: State, c: nat)
    requires Enabled(s, Work(c)) && Sound(s)
    ensures Detaches(s, Work(c)) ==> c == |s.comps| - 1 && Acquiring(LastComp(s))
    ensures s.comps[c].Reduce? || s.comps[c].Complete? ==> LastComp(s) == s.comps[c]
  {
    hide Live;
  }

  lemma PhasedWork(s: State, g: View, c: nat, g': View)
    requires Enabled(s, Work(c)) && Sound(s) && Phased(s, g) && Good(s, Work(c)) && !StepWork(s, c).crashed
    requires CutFinds(s.comps[c]) && Tail(g'.wins) <= |g'.log|
    requires Evolves(g, [], Detaches(s, Work(c)), s.expected, g')
    requires s.comps[c].Reduce? ==> c == |g.wins| - 1 && g.wins[c].lo <= g.wins[c].hi <= |g.log|
    requires s.comps[c].Reduce? ==> s.comps[c].drops == Drops(g.log, g.wins[c].lo, g.wins[c].hi)
    ensures Phased(StepWork(s, c), g')
  {
    WorkEffect(s, c);
    WorkOwner(s, c);
    hide Sound, StepWork, Phased, Evolves, Tail, Good, Detaches, Drops, CutFinds;
    PhasedFrom(s, g, s.comps[c], Detaches(s, Work(c)), StepWork(s, c), g');
  }

  /** What happens to the phases, given what happens to the counters. */
  lemma PhasedFrom(s: State, g: View, x: Comp, detaches: bool, s': State, g': View)
    requires Phased(s, g) && Evolves(g, [], detaches, s.expected, g') && Tail(g'.wins) <= |g'.log|
    requires detaches ==> Acquiring(LastComp(s))
    requires x.Reduce? || x.Complete? ==> LastComp(s) == x && !detaches
    requires x.Reduce? ==> g.wins != [] && g.wins[|g.wins| - 1].lo <= Tail(g.wins) <= |g.log|
    requires x.Reduce? ==> x.drops == Drops(g.log, g.wins[|g.wins| - 1].lo, Tail(g.wins))
    requires s'.expected == s.expected - (if x.Reduce? then x.drops else 0)
    requires s'.completions == s.completions + (if x.Complete? then 1 else 0)
    requires Unsettled(LastComp(s')) <==> detaches || (Unsettled(LastComp(s)) && !x.Reduce?)
    requires Uncompleted(LastComp(s')) <==> detaches || (Uncompleted(LastComp(s)) && !x.Complete?)
    ensures Phased(s', g')
  {
    hide Drops, LastComp;
    if x.Reduce? { DropsSplit(g.log, g.wins[|g.wins| - 1].lo, Tail(g.wins)); }
    assert g'.log == g.log && (detaches ==> Settled(s, g) == Tail(g.wins));
    PhasedSizes(g, detaches, s.expected, g');
    hide WindowSize;
    assert !detaches && g.wins != [] ==> g'.wins[|g'.wins| - 1].lo == g.wins[|g.wins| - 1].lo;
    assert Tail(g'.wins) == Tail(g.wins) + if detaches then Width(s.expected) else 0;
  }

  lemma PhasedSizes(g: View, detaches: bool, expected: int, g': View)
    requires Evolves(g, [], detaches, expected, g') && Tail(g.wins) <= |g.log|
    requires forall k :: 0 <= k < |g.wins| ==> WindowSize(g, g.wins[k])
    requires detaches ==> expected == g.initial - Drops(g.log, 0, Tail(g.wins))
    ensures forall k :: 0 <= k < |g'.wins| ==> WindowSize(g', g'.wins[k])
  {
    hide Drops;
    assert g'.log == g.log;
    forall k | 0 <= k < |g'.wins| ensures WindowSize(g', g'.wins[k]) {
      assert k < |g.wins| ==> WindowSize(g, g.wins[k]);
    }
  }

  // ---------------------------------------------------------------------------------------------
  // Every good step keeps everything

  ghost predicate Inv(s: State, g: View) { Shape(s, g) && Sound(s) && Counted(s, g) && Phased(s, g) }

  lemma InitView(s: State) returns (g: View)
    requires Init(s)
    ensures Inv(s, g) && g.initial == s.expected && g.log == [] && Debt(g.initial, g.log, g.wins) == 0
  {
    g := View(s.expected, [], [], [], [], seq(|s.slots|, i => 0), 0);
    CountPositive(s.slots, IsLast);
    CountPositive(s.slots, Announced);
    assert forall i :: !Alive(g, i);
  }

  lemma {:induction false} StepKeeps(s: State, g: View, a: Action) returns (g': View)
    requires Enabled(s, a) && Inv(s, g) && Good(s, a)
    ensures Inv(Step(s, a), g') && Evolves(g, PushOf(s, a), Detaches(s, a), s.expected, g')
  {
    hide Shape, Sound, Counted, Phased, Good, Evolves;
    g' := ShapeStep(s, g, a);
    SoundStep(s, a);
    ShapeSizes(Step(s, a), g');
    StepDebt(s, g, a, g');
    if a.Work? {
      CountedWork(s, g, a.c, g');
      if s.comps[a.c].Reduce? { ReduceReads(s, g, a.c); }
      PhasedWork(s, g, a.c, g');
    } else {
      CountedArrival(s, g, a, g');
      PhasedArrival(s, g, a, g');
    }
  }

  /** Whoever detaches a window finds the expected_ that the arrivals before it have left. */
  lemma StepDebt(s: State, g: View, a: Action, g': View)
    requires Enabled(s, a) && Inv(s, g) && Evolves(g, PushOf(s, a), Detaches(s, a), s.expected, g')
    ensures Debt(g'.initial, g'.log, g'.wins)
         == Debt(g.initial, g.log, g.wins) + if Detaches(s, a) then Excess(s.expected) else 0
  {
    hide Matched, Linked, Debt, Drops;
    forall k | 0 <= k < |g.wins| ensures g.wins[k].lo <= |g.log| {
      assert WindowSize(g, g.wins[k]);
    }
    if Detaches(s, a) {
      AcquiringIsLatest(s, g, a.c);
      assert LastComp(s) == s.comps[a.c];
    }
    hide Inv;
    DebtStep(g, PushOf(s, a), Detaches(s, a), s.expected, g');
  }

  lemma ReduceReads(s: State, g: View, c: nat)
    requires c < |s.comps| && s.comps[c].Reduce? && Shape(s, g) && Sound(s)
    ensures c == |g.wins| - 1 && g.wins[c].lo <= g.wins[c].hi <= |g.log|
    ensures s.comps[c].drops == Drops(g.log, g.wins[c].lo, g.wins[c].hi)
  {
    hide Matched, Linked, Tiled;
    assert c == |s.comps| - 1;
    OwnsWindow(s, g, c);
  }

  // ---------------------------------------------------------------------------------------------
  // Whole runs

  ghost predicate Runs(s: State, acts: seq<Action>)
    decreases |acts|, 0
  {
    acts == [] || (Runs(s, acts[..|acts| - 1]) && Enabled(After(s, acts[..|acts| - 1]), acts[|acts| - 1]))
  }

  ghost function After(s: State, acts: seq<Action>): State
    requires Runs(s, acts)
    decreases |acts|, 1
  {
    if acts == [] then s else Step(After(s, acts[..|acts| - 1]), acts[|acts| - 1])
  }

  /** Every state of the run has one owner of the phase, or none, as the counter says. */
  ghost predicate AlwaysSound(s: State, acts: seq<Action>)
    requires Runs(s, acts)
    decreases |acts|
  {
    Sound(After(s, acts)) && (acts == [] || AlwaysSound(s, acts[..|acts| - 1]))
  }

  /** Every step of the run is a good one. */
  ghost predicate AllGood(s: State, acts: seq<Action>)
    requires Runs(s, acts)
    decreases |acts|
  {
    acts == [] || (AllGood(s, acts[..|acts| - 1]) && Good(After(s, acts[..|acts| - 1]), acts[|acts| - 1]))
  }

  lemma SoundInit(s: State)
    requires Init(s)
    ensures Sound(s)
  {
    CountPositive(s.slots, IsLast);
  }

  /** Exactly when the phase always has one owner or none, as the counter says: no racing drop lets a finished
      completer think that another phase is due, or miss that one is. */
  lemma {:induction false} SoundIffGood(s: State, acts: seq<Action>)
    requires Init(s) && Runs(s, acts)
    ensures AlwaysSound(s, acts) <==> AllGood(s, acts)
    decreases |acts|
  {
    hide Step, Enabled, Sound, Good;
    if acts == [] {
      SoundInit(s);
    } else {
      var n := |acts| - 1;
      SoundIffGood(s, acts[..n]);
      if AllGood(s, acts[..n]) {
        assert Sound(After(s, acts[..n]));
        SoundStep(After(s, acts[..n]), acts[n]);
      }
    }
  }

  /** Everybody a run pushed, in order, and everybody it resumed or deleted, in order. */
  ghost function AllPushes(s: State, acts: seq<Action>): seq<Arrival>
    requires Runs(s, acts)
    decreases |acts|
  {
    if acts == [] then []
    else AllPushes(s, acts[..|acts| - 1]) + PushOf(After(s, acts[..|acts| - 1]), acts[|acts| - 1])
  }

  function ResumeOf(s: State, a: Action): seq<Arrival>
    requires Enabled(s, a)
  {
    if a.Work? && s.comps[a.c].Resume? && s.comps[a.c].ptr != Null then [s.comps[a.c].ptr.node] else []
  }

  ghost function AllResumes(s: State, acts: seq<Action>): seq<Arrival>
    requires Runs(s, acts)
    decreases |acts|
  {
    if acts == [] then []
    else AllResumes(s, acts[..|acts| - 1]) + ResumeOf(After(s, acts[..|acts| - 1]), acts[|acts| - 1])
  }

  /** How many arrivals the phases of a run took without expecting them. */
  ghost function AllExcess(s: State, acts: seq<Action>): nat
    requires Runs(s, acts)
    decreases |acts|
  {
    if acts == [] then 0
    else
      var c, a := After(s, acts[..|acts| - 1]), acts[|acts| - 1];
      AllExcess(s, acts[..|acts| - 1]) + if Detaches(c, a) then Excess(c.expected) else 0
  }

  lemma {:induction false} RunKeeps(s: State, acts: seq<Action>) returns (g: View)
    requires Init(s) && Runs(s, acts) && AllGood(s, acts)
    ensures Inv(After(s, acts), g) && g.initial == s.expected && g.log == AllPushes(s, acts)
    ensures Debt(g.initial, g.log, g.wins) == AllExcess(s, acts)
    decreases |acts|
  {
    hide Step, Enabled, Inv, Good, PushOf, Detaches, Debt, Excess;
    if acts == [] {
      g := InitView(s);
    } else {
      var n := |acts| - 1;
      var g0 := RunKeeps(s, acts[..n]);
      g := StepKeeps(After(s, acts[..n]), g0, acts[n]);
      StepDebt(After(s, acts[..n]), g0, acts[n], g);
    }
  }

  // ---------------------------------------------------------------------------------------------
  // What every good run guarantees

  /** 1 if `x` is pushed and not resumed. */
  function Asleep(slots: seq<Slot>, x: Arrival): nat {
    if x.id < |slots| && slots[x.id] == Pushed(x.drop) then 1 else 0
  }

  /** How often `x` occurs in `xs`. */
  ghost function Times(xs: seq<Arrival>, x: Arrival): nat { multiset(xs)[x] }

  lemma TimesAppend(xs: seq<Arrival>, ys: seq<Arrival>, x: Arrival)
    ensures Times(xs + ys, x) == Times(xs, x) + Times(ys, x)
  {
  }

  lemma AsleepStep(s: State, a: Action, x: Arrival)
    requires Enabled(s, a) && !Step(s, a).crashed
    ensures Asleep(Step(s, a).slots, x) + Times(ResumeOf(s, a), x) == Asleep(s.slots, x) + Times(PushOf(s, a), x)
  {
    if a.Work? {
      if s.comps[a.c].Resume? && s.comps[a.c].ptr != Null {
        var n := s.comps[a.c].ptr.node;
        assert Step(s, a).slots == s.slots[n.id := Free];
        hide Step, Enabled;
      } else {
        assert Step(s, a).slots == s.slots;
        hide Step, Enabled;
      }
    } else if a.CasSet? && PushOf(s, a) != [] {
      assert Step(s, a).slots == s.slots[a.t := Pushed(s.slots[a.t].drop)];
      hide Step, Enabled;
    }
  }

  lemma {:induction false} RunNeverCrashes(s: State, acts: seq<Action>)
    requires Init(s) && Runs(s, acts) && AllGood(s, acts)
    ensures !After(s, acts).crashed
  {
    var g := RunKeeps(s, acts);
    hide Runs, After, AllGood, AllPushes;
    ShapeSizes(After(s, acts), g);
  }

  /** Conservation: every arrival was pushed exactly as often as it was resumed, once more while it sleeps. */
  lemma {:induction false} RunsConserve(s: State, acts: seq<Action>, x: Arrival)
    requires Init(s) && Runs(s, acts) && AllGood(s, acts)
    ensures Times(AllPushes(s, acts), x) == Times(AllResumes(s, acts), x) + Asleep(After(s, acts).slots, x)
    decreases |acts|
  {
    hide Step, Enabled, Good, Times;
    RunNeverCrashes(s, acts);
    if acts == [] {
      assert forall y :: Times([], y) == 0 by { NoTimes(); }
    } else {
      hide Asleep;
      var n := |acts| - 1;
      var c, a := After(s, acts[..n]), acts[n];
      RunsConserve(s, acts[..n], x);
      AsleepStep(c, a, x);
      hide PushOf, ResumeOf;
      TimesAppend(AllPushes(s, acts[..n]), PushOf(c, a), x);
      TimesAppend(AllResumes(s, acts[..n]), ResumeOf(c, a), x);
    }
  }

  lemma NoTimes()
    ensures forall x :: Times([], x) == 0
  {
  }

  /** The phases of a run, told by the log of its pushes: the windows tile the beginning of the log without gap
      or overlap, the window of each phase has as many arrivals as were first expected minus the drops in
      earlier windows (and one if that is nobody), and nobody is resumed before the completion step of his phase has
      run. */
  ghost predicate InPhases(initial: int, pushes: seq<Arrival>, c: State, g: View) {
    && g.log == pushes && |g.resumed| == |pushes|
    && (g.wins != [] ==> g.wins[0].lo == 0)
    && (forall j, k :: 0 <= j < k < |g.wins| && k == j + 1 ==> g.wins[j].hi == g.wins[k].lo)
    && (forall k :: 0 <= k < |g.wins| ==>
          var w := g.wins[k]; w.lo < w.hi <= |pushes| && w.hi - w.lo == Width(initial - Drops(pushes, 0, w.lo)))
    && |g.wins| - 1 <= c.completions <= |g.wins|
    && (forall k, i :: 0 <= k < |g.wins| && g.wins[k].lo <= i < g.wins[k].hi <= |pushes| ==>
          (g.resumed[i] ==> k < c.completions))
    && (forall i :: Tail(g.wins) <= i < |pushes| ==> !g.resumed[i])
    && (forall i :: 0 <= i < |pushes| && !g.resumed[i] ==>
          pushes[i].id < |c.slots| && c.slots[pushes[i].id] == Pushed(pushes[i].drop))
  }

  lemma {:induction false} RunsInPhases(s: State, acts: seq<Action>) returns (g: View)
    requires Init(s) && Runs(s, acts) && AllGood(s, acts)
    ensures InPhases(s.expected, AllPushes(s, acts), After(s, acts), g)
  {
    g := RunKeeps(s, acts);
    hide Runs, After, AllGood, AllPushes;
    ReportPhases(After(s, acts), g);
  }

  lemma ReportPhases(c: State, g: View)
    requires Inv(c, g)
    ensures InPhases(g.initial, g.log, c, g)
  {
    hide Linked, Sound, Counted, Drops;
    forall k | 0 <= k < |g.wins|
      ensures var w := g.wins[k]; w.lo < w.hi <= |g.log| && w.hi - w.lo == Width(g.initial - Drops(g.log, 0, w.lo))
    {
      assert WindowSize(g, g.wins[k]) && WindowOk(g, g.wins[k]);
    }
    forall k, i | 0 <= k < |g.wins| && g.wins[k].lo <= i < g.wins[k].hi <= |g.log| && g.resumed[i]
      ensures k < c.completions
    {
      ResumedCompleted(c, g, k, i);
    }
    hide CompsOk, Phased;
    assert forall i :: 0 <= i < |g.log| && !g.resumed[i] ==> Alive(g, i);
  }

  lemma ResumedCompleted(c: State, g: View, k: nat, i: nat)
    requires |g.log| == |g.first| == |g.resumed| && Tiled(g) && CompsOk(c, g) && Phased(c, g)
    requires k < |g.wins| && g.wins[k].lo <= i < g.wins[k].hi <= |g.log| && g.resumed[i]
    ensures k < c.completions
  {
    hide Drops;
    assert WindowOk(g, g.wins[k]) && CompOk(g, c.comps[k], g.wins[k]);
    assert k == |c.comps| - 1 ==> LastComp(c) == c.comps[k];
  }

  /** Where `n` links lead from `p`. */
  ghost function Follow(next: seq<Ptr>, p: Ptr, n: nat): Ptr
    decreases n
  {
    if n == 0 then p
    else if p == Null || p.node.id >= |next| then Null
    else Follow(next, next[p.node.id], n - 1)
  }

  /** One comes across `x` on the way from `p`. */
  ghost predicate Meets(next: seq<Ptr>, p: Ptr, x: Arrival) { exists n: nat :: Follow(next, p, n) == To(x) }

  /** The list from `p` has `n` nodes. */
  ghost predicate HasLength(next: seq<Ptr>, p: Ptr, n: nat) {
    Follow(next, p, n) == Null && forall i: nat :: i < n ==> Follow(next, p, i) != Null
  }

  /** What a completer still has to resume. */
  function Front(c: Comp): Ptr {
    match c
    case CountDrops(head, _, _) => head
    case Complete(head, _) => head
    case Reduce(head, _) => head
    case Refill(head) => head
    case Resume(ptr, _, _) => ptr
    case _ => Null
  }

  /** `x` is in the working set, or in the window of a completer that has not resumed it yet. */
  ghost predicate Listed(s: State, x: Arrival) {
    Meets(s.next, s.working, x) || exists k :: 0 <= k < |s.comps| && Meets(s.next, Front(s.comps[k]), x)
  }

  /** Entry `j` of the log points to the entry before it, or nowhere if it is the first from `lo` on. */
  ghost predicate Down(next: seq<Ptr>, log: seq<Arrival>, lo: nat, j: nat) {
    j < |log| && log[j].id < |next| && next[log[j].id] == At(log, lo, j)
  }

  /** Following the links of a chain is going down the log. */
  lemma {:induction false} FollowDown(next: seq<Ptr>, log: seq<Arrival>, lo: nat, i: nat, n: nat)
    requires lo <= i <= |log| && forall j :: lo <= j < i ==> Down(next, log, lo, j)
    ensures Follow(next, At(log, lo, i), n) == if n <= i - lo then At(log, lo, i - n) else Null
    decreases n
  {
    if n > 0 && i > lo {
      assert Down(next, log, lo, i - 1);
      FollowDown(next, log, lo, i - 1, n - 1);
    }
  }

  lemma SegmentDown(s: State, g: View, lo: nat, hi: nat, j: nat)
    requires |s.slots| == |s.next| && |g.log| == |g.first| == |g.resumed| && Matched(s.slots, g) && Linked(s.next, g)
    requires lo <= j < hi <= |g.log| && Segment(g, lo, hi) && Alive(g, j)
    ensures Down(s.next, g.log, lo, j)
  {
    ReadNext(s, g, lo, hi, j + 1);
    hide Matched, Linked;
  }

  lemma MeetsSegment(s: State, g: View, lo: nat, hi: nat, i: nat, x: Arrival)
    requires |s.slots| == |s.next| && |g.log| == |g.first| == |g.resumed| && Matched(s.slots, g) && Linked(s.next, g)
    requires lo <= i <= hi <= |g.log| && Segment(g, lo, hi) && forall j :: lo <= j < i ==> Alive(g, j)
    ensures Meets(s.next, At(g.log, lo, i), x) <==> exists j :: lo <= j < i && g.log[j] == x
    ensures HasLength(s.next, At(g.log, lo, i), i - lo)
  {
    hide Matched, Linked, Follow, Segment, Down;
    forall j | lo <= j < i ensures Down(s.next, g.log, lo, j) {
      SegmentDown(s, g, lo, hi, j);
    }
    hide Alive;
    forall n: nat ensures Follow(s.next, At(g.log, lo, i), n) == if n <= i - lo then At(g.log, lo, i - n) else Null {
      FollowDown(s.next, g.log, lo, i, n);
    }
    if j :| lo <= j < i && g.log[j] == x {
      assert Follow(s.next, At(g.log, lo, i), i - 1 - j) == To(x);
    }
  }

  lemma FrontOk(g: View, c: Comp, w: Window)
    requires CompOk(g, c, w)
    ensures w.hi <= |g.log| && Front(c) == At(g.log, w.lo, w.left)
  {
  }

  /** The working set is the undetached part of the log. */
  lemma MeetsWorking(s: State, g: View, x: Arrival)
    requires Shape(s, g)
    ensures Meets(s.next, s.working, x) <==> exists j :: Tail(g.wins) <= j < |g.log| && g.log[j] == x
  {
    hide Matched, Linked, CompsOk, Meets, HasLength;
    MeetsSegment(s, g, Tail(g.wins), |g.log|, |g.log|, x);
  }

  lemma WorkingLength(s: State, g: View)
    requires Shape(s, g)
    ensures Tail(g.wins) <= |g.log| && HasLength(s.next, s.working, |g.log| - Tail(g.wins))
  {
    hide Matched, Linked, CompsOk, Meets, HasLength;
    MeetsSegment(s, g, Tail(g.wins), |g.log|, |g.log|, Arrival(0, false));
  }

  lemma MeetsWindow(s: State, g: View, k: nat, x: Arrival)
    requires Shape(s, g) && k < |g.wins| && k < |s.comps|
    ensures g.wins[k].left <= |g.log|
    ensures Meets(s.next, Front(s.comps[k]), x) <==> exists j :: g.wins[k].lo <= j < g.wins[k].left && g.log[j] == x
  {
    assert CompOk(g, s.comps[k], g.wins[k]) && WindowOk(g, g.wins[k]);
    FrontOk(g, s.comps[k], g.wins[k]);
    hide Matched, Linked, CompsOk, Meets, HasLength, CompOk, Front;
    MeetsSegment(s, g, g.wins[k].lo, g.wins[k].hi, g.wins[k].left, x);
  }

  /** Who is listed is asleep: the entries of all lists are alive. */
  lemma ListedIsLive(s: State, g: View, x: Arrival)
    requires Shape(s, g) && Listed(s, x)
    ensures Live(s, To(x))
  {
    hide Matched, Linked, CompsOk, Meets;
    if Meets(s.next, s.working, x) {
      MeetsWorking(s, g, x);
      var j :| Tail(g.wins) <= j < |g.log| && g.log[j] == x;
      AliveIsLive(s, g, j);
    } else {
      var k :| 0 <= k < |s.comps| && Meets(s.next, Front(s.comps[k]), x);
      FrontIsWindow(s, g, k, x);
      MeetsWindow(s, g, k, x);
      var j :| g.wins[k].lo <= j < g.wins[k].left && g.log[j] == x;
      assert WindowOk(g, g.wins[k]);
      AliveIsLive(s, g, j);
    }
  }

  lemma FrontIsWindow(s: State, g: View, k: nat, x: Arrival)
    requires CompsOk(s, g) && k < |s.comps| && Meets(s.next, Front(s.comps[k]), x)
    ensures k < |g.wins|
  {
    hide CompOk;
    var n: nat :| Follow(s.next, Front(s.comps[k]), n) == To(x);
    assert Follow(s.next, Null, n) == Null;
  }

  lemma AliveIsLive(s: State, g: View, j: nat)
    requires |s.slots| == |s.next| && Matched(s.slots, g) && j < |g.log| == |g.resumed| && !g.resumed[j]
    ensures Live(s, To(g.log[j]))
  {
    assert Alive(g, j);
  }

  lemma LiveIsListed(s: State, g: View, x: Arrival)
    requires Shape(s, g) && Live(s, To(x))
    ensures Listed(s, x)
  {
    var i := g.pos[x.id];
    assert Alive(g, i) && g.log[i] == x;
    hide Matched, Linked, Meets;
    if i < Tail(g.wins) {
      var k := FindWindow(g, i, |g.wins|);
      assert WindowOk(g, g.wins[k]);
      hide CompOk;
      MeetsWindow(s, g, k, x);
    } else {
      MeetsWorking(s, g, x);
    }
  }

  /** Nobody is stranded and nobody else is listed: at any time, an arrival is asleep exactly if one meets it by
      following the links from working_set_ or from what a completer still has to resume. */
  lemma {:induction false} NobodyStranded(s: State, acts: seq<Action>, x: Arrival)
    requires Init(s) && Runs(s, acts) && AllGood(s, acts)
    ensures Live(After(s, acts), To(x)) <==> Listed(After(s, acts), x)
  {
    var g := RunKeeps(s, acts);
    hide Runs, After, AllGood, AllPushes, Shape, Listed, Live;
    var c := After(s, acts);
    if Live(c, To(x)) { LiveIsListed(c, g, x); }
    if Listed(c, x) { ListedIsLive(c, g, x); }
  }

  lemma {:induction false} FindWindow(g: View, i: nat, n: nat) returns (k: nat)
    requires |g.log| == |g.first| == |g.resumed| && Tiled(g) && 0 < n <= |g.wins| && i < g.wins[n - 1].hi
    ensures k < n && g.wins[k].lo <= i < g.wins[k].hi
  {
    if g.wins[n - 1].lo <= i {
      k := n - 1;
    } else {
      assert n > 1 ==> g.wins[n - 2].hi == g.wins[n - 1].lo;
      k := FindWindow(g, i, n - 1);
    }
  }

  lemma {:induction false} DropsBound(log: seq<Arrival>, mid: nat, hi: nat)
    requires mid <= hi <= |log|
    ensures Drops(log, 0, mid) <= Drops(log, 0, hi) <= Drops(log, 0, mid) + hi - mid
    decreases hi
  {
    if mid < hi {
      DropsBound(log, mid, hi - 1);
    }
  }

  /** As long as somebody is expected no phase has taken more than it expected. */
  lemma {:induction false} NoDebt(initial: int, log: seq<Arrival>, wins: seq<Window>, hi: nat)
    requires hi <= |log| && initial - Drops(log, 0, hi) >= 1
    requires forall k :: 0 <= k < |wins| ==> wins[k].lo <= hi
    ensures Debt(initial, log, wins) == 0
  {
    if wins != [] {
      var n := |wins| - 1;
      NoDebt(initial, log, wins[..n], hi);
      DropsBound(log, wins[n].lo, hi);
    }
  }

  /** The first phase that leaves nobody to be expected leaves exactly nobody. */
  lemma ExpectedDebt(s: State, g: View)
    requires Inv(s, g) && Acquiring(LastComp(s))
    ensures s.count <= 0 && s.expected == g.initial - Drops(g.log, 0, Tail(g.wins))
    ensures s.expected >= 1 ==> Debt(g.initial, g.log, g.wins) == 0
    ensures Debt(g.initial, g.log, g.wins) == 0 && g.initial >= 1 ==> s.expected >= 0
  {
    hide Matched, Linked, CompsOk, Drops, Debt;
    forall k | 0 <= k < |g.wins| ensures g.wins[k].lo <= Tail(g.wins) {
      BeforeTail(g, k);
      assert WindowOk(g, g.wins[k]);
    }
    if s.expected >= 1 { NoDebt(g.initial, g.log, g.wins, Tail(g.wins)); }
    if g.wins == [] {
      NoDrops0(g.log);
    } else {
      var w := g.wins[|g.wins| - 1];
      assert WindowOk(g, w) && WindowSize(g, w);
      DropsBound(g.log, w.lo, w.hi);
      LastDebt(g);
    }
  }

  lemma NoDrops0(log: seq<Arrival>)
    ensures Drops(log, 0, 0) == 0
  {
  }

  lemma LastDebt(g: View)
    requires g.wins != [] && g.wins[|g.wins| - 1].lo <= |g.log|
    ensures Debt(g.initial, g.log, g.wins) >= Excess(g.initial - Drops(g.log, 0, g.wins[|g.wins| - 1].lo))
  {
  }

  /** The counter over every good run: with the length `n` of the working set, what is announced, what is pushed and
      what was taken without being expected make up the difference between expected_ and count_. */
  lemma {:induction false} CounterLaw(s: State, acts: seq<Action>) returns (n: nat)
    requires Init(s) && Runs(s, acts) && AllGood(s, acts)
    ensures var c := After(s, acts);
      && HasLength(c.next, c.working, n)
      && Count(c.slots, Announced) + n + AllExcess(s, acts)
           == (if Detached(LastComp(c)) then 0 else c.expected) - c.count
  {
    var g := RunKeeps(s, acts);
    var c := After(s, acts);
    hide Runs, After, AllGood, AllPushes, AllExcess, Inv, HasLength, Debt, Announced;
    n := CounterOf(c, g);
  }

  lemma CounterOf(c: State, g: View) returns (n: nat)
    requires Inv(c, g)
    ensures HasLength(c.next, c.working, n)
    ensures Count(c.slots, Announced) + n + Debt(g.initial, g.log, g.wins)
         == (if Detached(LastComp(c)) then 0 else c.expected) - c.count
  {
    hide Shape, Phased, Sound, HasLength, Debt, Tail, Count, Announced, Detached, LastComp;
    WorkingLength(c, g);
    n := |g.log| - Tail(g.wins);
  }

  predicate Nobody(slots: seq<Slot>) { forall t :: 0 <= t < |slots| ==> !Announced(slots[t]) }

  /** aquire_window() spins in vain -- the working set is too short for a window and nobody is on his way into it --
      exactly if nobody is expected and the counter has not been taken below what is expected (and what was taken
      unexpectedly).  Until a phase takes more than it expects that is when expected_ and count_ are both zero. */
  lemma {:induction false} SpinIsJustified(s: State, acts: seq<Action>) returns (n: nat)
    requires Init(s) && Runs(s, acts) && AllGood(s, acts) && Acquiring(LastComp(After(s, acts)))
    ensures var c := After(s, acts);
      && HasLength(c.next, c.working, n)
      && (n < Width(c.expected) && Nobody(c.slots) <==>
            c.expected <= 0 && c.count == c.expected - AllExcess(s, acts))
      && (AllExcess(s, acts) == 0 ==>
            (n < Width(c.expected) && Nobody(c.slots) <==> c.expected == 0 && c.count == 0))
  {
    n := CounterLaw(s, acts);
    var g := RunKeeps(s, acts);
    var c := After(s, acts);
    ExpectedDebt(c, g);
    CountPositive(c.slots, Announced);
    hide Runs, After, AllGood, AllPushes, AllExcess, Inv, HasLength, Debt, Announced;
  }

  // ---------------------------------------------------------------------------------------------
  // Runs without drops are good

  ghost predicate NoDrops(s: State) {
    && (forall t :: 0 <= t < |s.slots| && s.slots[t] != Free ==> !s.slots[t].drop)
    && (forall c :: 0 <= c < |s.comps| ==>
          && (Unsettled(s.comps[c]) ==> s.comps[c].drops == 0)
          && (s.comps[c].Resume? ==> s.comps[c].used == s.expected))
  }

  lemma NoDropsStep(s: State, a: Action)
    requires NoDrops(s) && Enabled(s, a) && !(a.Arrive? && a.drop) && s.expected >= 1
    ensures NoDrops(Step(s, a)) && Good(s, a) && Step(s, a).expected == s.expected
  {
    if a.Work? { NoDropsWork(s, a.c); }
  }

  lemma NoDropsWork(s: State, c: nat)
    requires NoDrops(s) && Enabled(s, Work(c)) && s.expected >= 1
    ensures NoDrops(StepWork(s, c)) && Good(s, Work(c)) && StepWork(s, c).expected == s.expected
  {
    var s' := StepWork(s, c);
    assert Unsettled(s.comps[c]) ==> s.comps[c].drops == 0;
    assert s.comps[c].CountDrops? && Live(s, s.comps[c].ptr) ==> !s.comps[c].ptr.node.drop;
    assert s'.expected == s.expected;
  }

  /** A run in which nobody drops out never goes wrong. */
  lemma {:induction false} DropFreeIsGood(s: State, acts: seq<Action>)
    requires Init(s) && Runs(s, acts) && forall i :: 0 <= i < |acts| ==> !(acts[i].Arrive? && acts[i].drop)
    ensures AllGood(s, acts) && NoDrops(After(s, acts)) && After(s, acts).expected == s.expected
    decreases |acts|
  {
    hide Step, Enabled, Good;
    if acts != [] {
      var n := |acts| - 1;
      DropFreeIsGood(s, acts[..n]);
      NoDropsStep(After(s, acts[..n]), acts[n]);
    }
  }
}
