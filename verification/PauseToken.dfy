/** The pause token: a gate made of one atomic word, on which coroutines push themselves while it is closed and
    which is opened by taking the whole stack at once. */
module PauseToken {
  import opened Lists

  /** Where one coroutine is.  `Flag` as the token's word means unpaused, `Zero` means paused with nobody waiting. */
  datatype Pc =
    | Idle
    | PushLoad                        // pause(pauser*): about to load resuming_
    | PushCas(previous: Word)         // pause(pauser*): about to compare-exchange against `previous`
    | Parked
    | Posted                          // its resume event is posted
    | PauseCas                        // pause(): saw the unpaused flag, about to compare-exchange it
    | Walking(ptr: Word)              // unpause(): about to read the link of `ptr`
    | Waking(ptr: Word, rest: Word)   // unpause(): link saved, about to resume `ptr`

  datatype State = State(word: Word, next: seq<Word>, pc: seq<Pc>, crashed: bool)

  datatype Action =
    | AwaitReady(t: nat)
    | LoadWord(t: nat)
    | CasWord(t: nat, spurious: bool)
    | Pause(t: nat)
    | CasPause(t: nat, spurious: bool)
    | Unpause(t: nat)
    | Walk(t: nat)
    | Wake(t: nat)
    | Run(t: nat)
    | ReuseNode(t: nat, junk: Word)

  predicate Enabled(s: State, a: Action) {
    && a.t < |s.pc| == |s.next|
    && match a
       case AwaitReady(t) => s.pc[t] == Idle
       case LoadWord(t) => s.pc[t] == PushLoad
       case CasWord(t, _) => s.pc[t].PushCas?
       case Pause(t) => s.pc[t] == Idle
       case CasPause(t, _) => s.pc[t] == PauseCas
       case Unpause(t) => s.pc[t] == Idle
       case Walk(t) => s.pc[t].Walking?
       case Wake(t) => s.pc[t].Waking?
       case Run(t) => s.pc[t] == Posted
       case ReuseNode(t, _) => s.pc[t] != Parked && !s.pc[t].PushCas?
  }

  predicate Live(s: State, w: Word) {
    w.Node? && w.id < |s.pc| == |s.next| && s.pc[w.id] == Parked
  }

  /** The loop head of pause(pauser*): leave if the token is unpaused, else try against what was seen. */
  function Try(seen: Word): Pc { if seen == Flag then Idle else PushCas(seen) }

  function StepCas(s: State, t: nat, spurious: bool): State
    requires t < |s.pc| == |s.next| && s.pc[t].PushCas?
  {
    var linked := s.(next := s.next[t := s.pc[t].previous]);
    if s.word == s.pc[t].previous && !spurious then linked.(word := Node(t), pc := s.pc[t := Parked])
    else linked.(pc := s.pc[t := Try(s.word)])
  }

  function Step(s: State, a: Action): State
    requires Enabled(s, a)
  {
    match a
    case AwaitReady(t) => s.(pc := s.pc[t := if s.word == Flag then Idle else PushLoad])
    case LoadWord(t) => s.(pc := s.pc[t := Try(s.word)])
    case CasWord(t, spurious) => StepCas(s, t, spurious)
    case Pause(t) => s.(pc := s.pc[t := if s.word == Flag then PauseCas else Idle])
    case CasPause(t, spurious) =>
      if s.word != Flag then s.(pc := s.pc[t := Idle])
      else if spurious then s
      else s.(word := Zero, pc := s.pc[t := Idle])
    case Unpause(t) => s.(word := Flag, pc := s.pc[t := if s.word == Flag then Idle else Walking(s.word)])
    case Walk(t) =>
      var ptr := s.pc[t].ptr;
      if ptr == Zero then s.(pc := s.pc[t := Idle])
      else if !Live(s, ptr) then s.(crashed := true)
      else s.(pc := s.pc[t := Waking(ptr, s.next[ptr.id])])
    case Wake(t) =>
      var Waking(ptr, rest) := s.pc[t];
      if !Live(s, ptr) then s.(crashed := true)
      else s.(pc := s.pc[ptr.id := Posted][t := Walking(rest)])
    case Run(t) => s.(pc := s.pc[t := Idle])
    case ReuseNode(t, junk) => s.(next := s.next[t := junk])
  }

  /** The token is constructed paused, with nobody waiting. */
  predicate Init(s: State) {
    s.word == Zero && |s.pc| == |s.next| && !s.crashed && forall t :: 0 <= t < |s.pc| ==> s.pc[t] == Idle
  }

  // ---------------------------------------------------------------------------------------------
  // The abstract gate

  /** Where a coroutine waits: not at all, at the closed gate, or on the list of the unpauser `w`. */
  datatype Place = Out | AtGate | With(w: nat)

  datatype Gate = Gate(open: bool, place: seq<Place>)

  datatype Event = Silent | Enter(t: nat) | Close | Open(w: nat) | Deliver(t: nat, w: nat)

  /** One enters only while the gate is closed, and who was taken along is delivered once, by his taker. */
  predicate CanHappen(m: Gate, e: Event) {
    match e
    case Silent => true
    case Enter(t) => !m.open && t < |m.place| && m.place[t] == Out
    case Close => m.open
    case Open(_) => true
    case Deliver(t, w) => t < |m.place| && m.place[t] == With(w)
  }

  /** Opening takes everybody at the gate along. */
  ghost function Happen(m: Gate, e: Event): Gate
    requires CanHappen(m, e)
  {
    match e
    case Silent => m
    case Enter(t) => m.(place := m.place[t := AtGate])
    case Close => m.(open := false)
    case Open(w) => Gate(true, Taken(m.place, w))
    case Deliver(t, _) => m.(place := m.place[t := Out])
  }

  ghost predicate GateStep(m: Gate, e: Event, m': Gate) { CanHappen(m, e) && m' == Happen(m, e) }

  ghost function Taken(place: seq<Place>, w: nat): (r: seq<Place>)
    ensures |r| == |place| && forall t :: 0 <= t < |place| ==> r[t] == if place[t] == AtGate then With(w) else place[t]
  {
    seq(|place|, t requires 0 <= t < |place| => if place[t] == AtGate then With(w) else place[t])
  }

  function EventOf(s: State, a: Action): Event
    requires Enabled(s, a)
  {
    match a
    case CasWord(t, spurious) => if s.word == s.pc[t].previous && !spurious then Enter(t) else Silent
    case CasPause(_, spurious) => if s.word == Flag && !spurious then Close else Silent
    case Unpause(t) => Open(t)
    case Wake(t) => if s.pc[t].ptr.Node? then Deliver(s.pc[t].ptr.id, t) else Silent
    case _ => Silent
  }

  // ---------------------------------------------------------------------------------------------
  // The simulation

  /** The lists behind the words: the stack, and for each coroutine the list it still has to resume. */
  datatype View = View(gate: Gate, stack: seq<nat>, lists: seq<seq<nat>>)

  /** `l` lists, once each, exactly the coroutines at place `p`. */
  ghost predicate Holds(place: seq<Place>, l: seq<nat>, p: Place) {
    && (forall i, j :: 0 <= i < j < |l| ==> l[i] != l[j])
    && (forall i :: 0 <= i < |l| ==> l[i] < |place| && place[l[i]] == p)
    && (forall t :: 0 <= t < |place| && place[t] == p ==> t in l)
  }

  /** Nobody tries to link in front of the unpaused flag. */
  predicate Refused(p: Pc) { p == PushCas(Flag) }

  ghost predicate Sleeping(pc: seq<Pc>, g: View) {
    && |pc| == |g.gate.place| == |g.lists|
    && (forall t :: 0 <= t < |pc| ==> (pc[t] == Parked <==> g.gate.place[t] != Out))
    && (forall t :: 0 <= t < |pc| ==> !Refused(pc[t]))
    && (forall t :: 0 <= t < |pc| && g.gate.place[t].With? ==> g.gate.place[t].w < |pc|)
  }

  /** The list that coroutine `w` is walking along. */
  ghost predicate WalkOk(next: seq<Word>, p: Pc, l: seq<nat>) {
    match p
    case Walking(ptr) => Forward(next, l, 0, |l|, ptr)
    case Waking(ptr, rest) => l != [] && ptr == Node(l[0]) && Forward(next, l[1..], 0, |l| - 1, rest)
    case _ => l == []
  }

  ghost predicate ListsOk(s: State, g: View) {
    forall w :: 0 <= w < |s.pc| ==>
      w < |g.lists| && Holds(g.gate.place, g.lists[w], With(w)) && WalkOk(s.next, s.pc[w], g.lists[w])
  }

  ghost predicate StackOk(s: State, g: View) {
    && Holds(g.gate.place, g.stack, AtGate)
    && (if g.gate.open then s.word == Flag && g.stack == []
        else s.word != Flag && Forward(s.next, g.stack, 0, |g.stack|, s.word))
  }

  ghost predicate Inv(s: State, g: View) {
    |s.pc| == |s.next| && !s.crashed && Sleeping(s.pc, g) && StackOk(s, g) && ListsOk(s, g)
  }

  lemma InitView(s: State) returns (g: View)
    requires Init(s)
    ensures Inv(s, g) && g.gate == Gate(false, seq(|s.pc|, i => Out))
  {
    g := View(Gate(false, seq(|s.pc|, i => Out)), [], seq(|s.pc|, i => []));
  }

  lemma HoldsFrame(place: seq<Place>, place': seq<Place>, l: seq<nat>, p: Place)
    requires Holds(place, l, p) && |place'| == |place|
    requires forall t :: 0 <= t < |place| ==> (place'[t] == p <==> place[t] == p)
    ensures Holds(place', l, p)
  {
  }

  /** A list survives what happens to the nodes of others. */
  lemma WalkFrame(place: seq<Place>, next: seq<Word>, next': seq<Word>, p: Pc, l: seq<nat>, q: Place)
    requires Holds(place, l, q) && WalkOk(next, p, l) && |next'| == |next| == |place|
    requires forall t :: 0 <= t < |place| && place[t] == q ==> next'[t] == next[t]
    ensures WalkOk(next', p, l)
  {
    if p.Walking? {
      ForwardFrame(next, next', l, l, 0, |l|, p.ptr);
    } else if p.Waking? {
      ForwardFrame(next, next', l[1..], l[1..], 0, |l| - 1, p.rest);
    }
  }

  /** A step of a coroutine that is not asleep, that leaves the word and all sleepers' nodes alone. */
  lemma KeepsOutside(s: State, g: View, t: nat, w: Word, p: Pc)
    requires Inv(s, g) && t < |s.pc| && s.pc[t] != Parked && p != Parked && !Refused(p)
    requires p == s.pc[t] || (!p.Walking? && !p.Waking? && g.lists[t] == [])
    ensures Inv(s.(next := s.next[t := w], pc := s.pc[t := p]), g)
  {
    hide Forward, Holds;
    var s' := s.(next := s.next[t := w], pc := s.pc[t := p]);
    StackFrame(s, s', g, t);
    forall u | 0 <= u < |s.pc|
      ensures Holds(g.gate.place, g.lists[u], With(u)) && WalkOk(s'.next, s'.pc[u], g.lists[u])
    {
      WalkFrame(g.gate.place, s.next, s'.next, s.pc[u], g.lists[u], With(u));
    }
  }

  lemma StackFrame(s: State, s': State, g: View, t: nat)
    requires StackOk(s, g) && Sleeping(s.pc, g) && t < |s.pc| == |s.next| && s.pc[t] != Parked
    requires s'.word == s.word && |s'.next| == |s.next| && s'.next == s.next[t := s'.next[t]]
    ensures StackOk(s', g)
  {
    if !g.gate.open {
      ForwardFrame(s.next, s'.next, g.stack, g.stack, 0, |g.stack|, s.word);
    }
  }

  lemma KeepsPush(s: State, g: View, t: nat) returns (g': View)
    requires Inv(s, g) && t < |s.pc| && s.pc[t] == PushCas(s.word) && s.word != Flag
    ensures Inv(StepCas(s, t, false), g') && GateStep(g.gate, Enter(t), g'.gate)
  {
    hide Forward, Holds;
    var s', place := StepCas(s, t, false), g.gate.place;
    assert !g.gate.open && place[t] == Out && WalkOk(s.next, s.pc[t], g.lists[t]);
    g' := View(Gate(false, place[t := AtGate]), [t] + g.stack, g.lists);
    EnterHolds(place, g.stack, t);
    ForwardCons(s.next, g.stack, s.word, t);
    forall u | 0 <= u < |s.pc|
      ensures Holds(g'.gate.place, g.lists[u], With(u)) && WalkOk(s'.next, s'.pc[u], g.lists[u])
    {
      HoldsFrame(place, g'.gate.place, g.lists[u], With(u));
      WalkFrame(place, s.next, s'.next, s.pc[u], g.lists[u], With(u));
    }
  }

  lemma EnterHolds(place: seq<Place>, stack: seq<nat>, t: nat)
    requires Holds(place, stack, AtGate) && t < |place| && place[t] == Out
    ensures Holds(place[t := AtGate], [t] + stack, AtGate) && t !in stack
  {
    assert forall u :: u in [t] + stack <==> u == t || u in stack;
  }

  lemma KeepsOpen(s: State, g: View, w: nat) returns (g': View)
    requires Inv(s, g) && Enabled(s, Unpause(w))
    ensures Inv(Step(s, Unpause(w)), g') && GateStep(g.gate, Open(w), g'.gate)
  {
    hide Forward, Holds;
    var s', place := Step(s, Unpause(w)), g.gate.place;
    assert WalkOk(s.next, s.pc[w], g.lists[w]);
    g' := View(Gate(true, Taken(place, w)), [], g.lists[w := g.stack]);
    TakenHolds(place, g.stack, g.lists[w], w);
    forall u | 0 <= u < |s.pc|
      ensures Holds(g'.gate.place, g'.lists[u], With(u)) && WalkOk(s'.next, s'.pc[u], g'.lists[u])
    {
      if u != w {
        HoldsFrame(place, g'.gate.place, g.lists[u], With(u));
      }
    }
  }

  /** Whoever waited at the gate is now on the list of the one who opened it. */
  lemma TakenHolds(place: seq<Place>, stack: seq<nat>, l: seq<nat>, w: nat)
    requires Holds(place, stack, AtGate) && Holds(place, l, With(w)) && l == []
    ensures Holds(Taken(place, w), stack, With(w)) && Holds(Taken(place, w), [], AtGate)
  {
  }

  /** Saving the link of the node to be resumed next. */
  lemma SaveLink(next: seq<Word>, ptr: Word, l: seq<nat>)
    requires WalkOk(next, Walking(ptr), l)
    ensures ptr == Zero <==> l == []
    ensures l != [] ==> ptr == Node(l[0]) && l[0] < |next| && WalkOk(next, Waking(ptr, next[l[0]]), l)
  {
    if l != [] {
      ForwardTail(next, l, ptr);
    }
  }

  lemma KeepsWalk(s: State, g: View, t: nat)
    requires Inv(s, g) && Enabled(s, Walk(t))
    ensures Inv(Step(s, Walk(t)), g)
  {
    hide Forward, Holds, WalkOk, StackOk;
    var l := g.lists[t];
    if l != [] { HeadHeld(g.gate.place, l, With(t)); }
    SaveLink(s.next, s.pc[t].ptr, l);
    var s' := Step(s, Walk(t));
    assert StackOk(s', g) by { StackFrame(s, s', g, t); }
    assert l == [] ==> WalkOk(s.next, Idle, []) by { EmptyWalk(s.next); }
    forall u | 0 <= u < |s.pc|
      ensures Holds(g.gate.place, g.lists[u], With(u)) && WalkOk(s'.next, s'.pc[u], g.lists[u])
    {
    }
  }

  lemma HeadHeld(place: seq<Place>, l: seq<nat>, p: Place)
    requires Holds(place, l, p) && l != []
    ensures l[0] < |place| && place[l[0]] == p
  {
  }

  lemma EmptyWalk(next: seq<Word>)
    ensures WalkOk(next, Idle, [])
  {
  }

  lemma KeepsWake(s: State, g: View, t: nat) returns (g': View)
    requires Inv(s, g) && Enabled(s, Wake(t))
    ensures Inv(Step(s, Wake(t)), g') && GateStep(g.gate, EventOf(s, Wake(t)), g'.gate)
    ensures Live(s, s.pc[t].ptr)
  {
    hide Forward, Holds;
    assert WalkOk(s.next, s.pc[t], g.lists[t]);
    var l, place, n := g.lists[t], g.gate.place, s.pc[t].ptr.id;
    HeadHeld(place, l, With(t));
    g' := View(g.gate.(place := place[n := Out]), g.stack, g.lists[t := l[1..]]);
    DeliverHolds(place, l, With(t));
    var s' := Step(s, Wake(t));
    assert WalkOk(s.next, s.pc[n], g.lists[n]);
    forall u | 0 <= u < |s.pc|
      ensures Holds(g'.gate.place, g'.lists[u], With(u)) && WalkOk(s'.next, s'.pc[u], g'.lists[u])
    {
      assert WalkOk(s.next, s.pc[u], g.lists[u]);
      if u != t {
        HoldsFrame(place, g'.gate.place, g.lists[u], With(u));
      }
    }
    HoldsFrame(place, g'.gate.place, g.stack, AtGate);
  }

  lemma DeliverHolds(place: seq<Place>, l: seq<nat>, p: Place)
    requires Holds(place, l, p) && l != [] && p != Out
    ensures Holds(place[l[0] := Out], l[1..], p)
  {
    var place', l' := place[l[0] := Out], l[1..];
    forall t | 0 <= t < |place'| && place'[t] == p ensures t in l' {
      var i :| 0 <= i < |l| && l[i] == t;
      assert l'[i - 1] == t;
    }
  }

  lemma KeepsClose(s: State, g: View, t: nat)
    requires Inv(s, g) && t < |s.pc| && s.pc[t] == PauseCas && s.word == Flag
    ensures Inv(s.(word := Zero, pc := s.pc[t := Idle]), g.(gate := g.gate.(open := false))) && g.gate.open
  {
    hide Holds;
    var s' := s.(word := Zero, pc := s.pc[t := Idle]);
    forall u | 0 <= u < |s.pc|
      ensures Holds(g.gate.place, g.lists[u], With(u)) && WalkOk(s'.next, s'.pc[u], g.lists[u])
    {
      assert WalkOk(s.next, s.pc[u], g.lists[u]);
    }
  }

  /** A coroutine outside unpause() has no list of its own. */
  lemma NoList(s: State, g: View, t: nat)
    requires Inv(s, g) && t < |s.pc| && !s.pc[t].Walking? && !s.pc[t].Waking?
    ensures t < |g.lists| && g.lists[t] == []
  {
    assert WalkOk(s.next, s.pc[t], g.lists[t]);
  }

  /** Every step of the code is an event at the gate, or leaves it alone. */
  lemma {:induction false} StepRefines(s: State, g: View, a: Action) returns (g': View)
    requires Inv(s, g) && Enabled(s, a)
    ensures Inv(Step(s, a), g') && GateStep(g.gate, EventOf(s, a), g'.gate)
  {
    g' := g;
    var t := a.t;
    assert s.next == s.next[t := s.next[t]] && s.pc == s.pc[t := s.pc[t]];
    assert !s.crashed && !Refused(s.pc[t]) && (s.word == Flag <==> g.gate.open);
    hide Inv;
    match a
    case CasWord(_, spurious) =>
      NoList(s, g, t);
      if s.word == s.pc[t].previous && !spurious {
        g' := KeepsPush(s, g, t);
      } else {
        KeepsOutside(s, g, t, s.pc[t].previous, Try(s.word));
      }
    case Unpause(_) => g' := KeepsOpen(s, g, t);
    case Walk(_) => KeepsWalk(s, g, t);
    case Wake(_) => g' := KeepsWake(s, g, t);
    case CasPause(_, spurious) =>
      NoList(s, g, t);
      if s.word == Flag && !spurious {
        KeepsClose(s, g, t);
        g' := g.(gate := g.gate.(open := false));
      } else {
        KeepsOutside(s, g, t, s.next[t], Step(s, a).pc[t]);
      }
    case ReuseNode(_, junk) => KeepsOutside(s, g, t, junk, s.pc[t]);
    case _ =>
      NoList(s, g, t);
      KeepsOutside(s, g, t, s.next[t], Step(s, a).pc[t]);
  }

  // ---------------------------------------------------------------------------------------------
  // Whole runs

  ghost predicate Runs(s: State, acts: seq<Action>)
    decreases |acts|, 0
  {
    acts == [] || (Runs(s, acts[..|acts| - 1]) && Enabled(After(s, acts[..|acts| - 1]), acts[|acts| - 1]))
  }

  ghost function After(s: State, acts: seq<Action>): State
    requires Runs(s, acts)
    decreases |acts|, 1
  {
    if acts == [] then s else Step(After(s, acts[..|acts| - 1]), acts[|acts| - 1])
  }

  ghost function Events(s: State, acts: seq<Action>): seq<Event>
    requires Runs(s, acts)
    decreases |acts|
  {
    if acts == [] then []
    else Events(s, acts[..|acts| - 1]) + [EventOf(After(s, acts[..|acts| - 1]), acts[|acts| - 1])]
  }

  ghost predicate GateRuns(m: Gate, es: seq<Event>)
    decreases |es|, 0
  {
    es == [] || (GateRuns(m, es[..|es| - 1]) && CanHappen(GateAfter(m, es[..|es| - 1]), es[|es| - 1]))
  }

  ghost function GateAfter(m: Gate, es: seq<Event>): Gate
    requires GateRuns(m, es)
    decreases |es|, 1
  {
    if es == [] then m else Happen(GateAfter(m, es[..|es| - 1]), es[|es| - 1])
  }

  /** Every run of the code, with any number of coroutines reusing their nodes, is a run of the gate. */
  lemma {:induction false} RunRefines(s: State, acts: seq<Action>) returns (g: View)
    requires Init(s) && Runs(s, acts)
    ensures Inv(After(s, acts), g)
    ensures var m := Gate(false, seq(|s.pc|, i => Out));
      GateRuns(m, Events(s, acts)) && g.gate == GateAfter(m, Events(s, acts))
    decreases |acts|
  {
    hide Inv, Enabled, Step, EventOf, CanHappen, Happen;
    if acts == [] {
      g := InitView(s);
    } else {
      var n := |acts| - 1;
      var g0 := RunRefines(s, acts[..n]);
      g := StepRefines(After(s, acts[..n]), g0, acts[n]);
      var es := Events(s, acts);
      assert es[..|es| - 1] == Events(s, acts[..n]);
    }
  }

  /** Coroutine `t` is on the list that a coroutine inside unpause() still has to resume. */
  ghost predicate Carries(next: seq<Word>, p: Pc, t: nat) {
    match p
    case Walking(ptr) => Meets(next, ptr, t)
    case Waking(ptr, rest) => ptr == Node(t) || Meets(next, rest, t)
    case _ => false
  }

  lemma CarriesList(next: seq<Word>, p: Pc, l: seq<nat>, t: nat)
    requires WalkOk(next, p, l)
    ensures Carries(next, p, t) <==> t in l
  {
    hide Forward, Meets;
    match p
    case Walking(ptr) => MeetsForward(next, l, 0, |l|, ptr, t);
    case Waking(ptr, rest) =>
      MeetsForward(next, l[1..], 0, |l| - 1, rest, t);
      assert t in l <==> t == l[0] || t in l[1..];
    case _ =>
  }

  lemma StackMeets(s: State, g: View, t: nat)
    requires StackOk(s, g)
    ensures Meets(s.next, s.word, t) <==> t in g.stack
  {
    hide Forward, Meets, Holds;
    if g.gate.open {
      MeetsNothing(s.next, s.word, t);
    } else {
      MeetsForward(s.next, g.stack, 0, |g.stack|, s.word, t);
    }
  }

  /** A coroutine is asleep exactly if it is on the token's stack or on the list of somebody inside unpause(). */
  lemma SleeperIsListed(c: State, g: View, t: nat)
    requires Inv(c, g) && t < |c.pc|
    ensures c.pc[t] == Parked <==>
      Meets(c.next, c.word, t) || exists w :: 0 <= w < |c.pc| && Carries(c.next, c.pc[w], t)
  {
    StackMeets(c, g, t);
    hide Forward, Meets, Carries;
    forall w | 0 <= w < |c.pc| ensures Carries(c.next, c.pc[w], t) <==> t in g.lists[w] {
      CarriesList(c.next, c.pc[w], g.lists[w], t);
    }
    hide WalkOk;
    assert forall w :: 0 <= w < |c.pc| ==> Holds(g.gate.place, g.lists[w], With(w));
    if c.pc[t] == Parked && g.gate.place[t] != AtGate {
      var w := g.gate.place[t].w;
      assert t in g.lists[w];
    }
  }

  /** No run reads a node that is not asleep, and nobody is forgotten: whoever is asleep is on the stack or on the list
      of a coroutine inside unpause(), and nobody else is; and while the token is unpaused the stack is empty. */
  lemma {:induction false} RunsAreSafe(s: State, acts: seq<Action>)
    requires Init(s) && Runs(s, acts)
    ensures var c := After(s, acts);
      && !c.crashed
      && (forall t :: 0 <= t < |c.pc| ==>
            (c.pc[t] == Parked <==>
              Meets(c.next, c.word, t) || exists w :: 0 <= w < |c.pc| && Carries(c.next, c.pc[w], t)))
      && (c.word == Flag ==> forall t: nat :: !Meets(c.next, c.word, t))
  {
    var g := RunRefines(s, acts);
    var c := After(s, acts);
    hide Runs, After, Events, GateRuns, GateAfter, Meets, Carries;
    NotCrashed(c, g);
    forall t | 0 <= t < |c.pc|
      ensures c.pc[t] == Parked <==>
        Meets(c.next, c.word, t) || exists w :: 0 <= w < |c.pc| && Carries(c.next, c.pc[w], t)
    {
      SleeperIsListed(c, g, t);
    }
    if c.word == Flag {
      forall t: nat ensures !Meets(c.next, c.word, t) { MeetsNothing(c.next, c.word, t); }
    }
  }

  lemma NotCrashed(s: State, g: View)
    requires Inv(s, g)
    ensures !s.crashed
  {
  }
}
