/** What the operations of the pause token achieve: pause() pauses, unpause() resumes everybody who waits, and whoever
    waits gets past the token exactly when it is unpaused. */
module PauseProgress {
  import opened Lists
  import opened PauseToken

  // ---------------------------------------------------------------------------------------------
  // What a return means

  /** The step takes coroutine `a.t` out of co_await without sleep: it finds the token unpaused. */
  predicate Passes(s: State, a: Action)
    requires Enabled(s, a)
  {
    (a.AwaitReady? || a.LoadWord? || a.CasWord?) && Step(s, a).pc[a.t] == Idle
  }

  /** The step is a return from pause(). */
  predicate ReturnsFromPause(s: State, a: Action)
    requires Enabled(s, a)
  {
    (a.Pause? || a.CasPause?) && Step(s, a).pc[a.t] == Idle
  }

  /** Whoever returns from pause() leaves the token paused; whoever passes finds it unpaused; and only unpause()
      unpauses it. */
  lemma StepWord(s: State, g: View, a: Action)
    requires Inv(s, g) && Enabled(s, a)
    ensures ReturnsFromPause(s, a) ==> Step(s, a).word != Flag
    ensures Passes(s, a) ==> s.word == Flag
    ensures s.word != Flag && Step(s, a).word == Flag ==> a.Unpause?
  {
    hide StackOk, ListsOk;
  }

  /** A paused token is unpaused later only by unpause(). */
  lemma {:induction false} StaysPaused(c: State, g: View, xs: seq<Action>) returns (g': View)
    requires Inv(c, g) && Runs(c, xs) && c.word != Flag && forall k :: 0 <= k < |xs| ==> !xs[k].Unpause?
    ensures Inv(After(c, xs), g') && After(c, xs).word != Flag
    decreases |xs|
  {
    hide Inv, Enabled, Step;
    g' := g;
    if xs != [] {
      var n := |xs| - 1;
      var g1 := StaysPaused(c, g, xs[..n]);
      StepWord(After(c, xs[..n]), g1, xs[n]);
      g' := StepRefines(After(c, xs[..n]), g1, xs[n]);
    }
  }

  /** After a pause() has returned, nobody gets past the token before somebody calls unpause() again: `a` is the return,
      `b` the step that gets past, and `xs` what happens in between. */
  lemma {:induction false} PausePauses(s: State, acts: seq<Action>, a: Action, xs: seq<Action>, b: Action)
    requires Init(s) && Runs(s, acts) && Enabled(After(s, acts), a) && ReturnsFromPause(After(s, acts), a)
    requires var c := Step(After(s, acts), a);
      Runs(c, xs) && Enabled(After(c, xs), b) && Passes(After(c, xs), b)
    ensures exists k :: 0 <= k < |xs| && xs[k].Unpause?
  {
    var g := RunRefines(s, acts);
    hide Runs, After, Inv, Enabled, Step, Passes, ReturnsFromPause, Events, GateRuns, GateAfter;
    var c := Step(After(s, acts), a);
    StepWord(After(s, acts), g, a);
    var g1 := StepRefines(After(s, acts), g, a);
    if forall k :: 0 <= k < |xs| ==> !xs[k].Unpause? {
      var g2 := StaysPaused(c, g1, xs);
      StepWord(After(c, xs), g2, b);
    }
  }

  // ---------------------------------------------------------------------------------------------
  // Going on from a reachable state

  /** The steps `xs` lead from `c` to `c'`. */
  ghost predicate Leads(c: State, xs: seq<Action>, c': State) { Runs(c, xs) && After(c, xs) == c' }

  /** And they are all coroutine `t`'s own. */
  ghost predicate LeadsBy(c: State, xs: seq<Action>, c': State, t: nat) {
    Leads(c, xs, c') && forall i :: 0 <= i < |xs| ==> xs[i].t == t
  }

  /** And nobody calls pause() or unpause(). */
  ghost predicate Calm(xs: seq<Action>) {
    forall i :: 0 <= i < |xs| ==> !xs[i].Pause? && !xs[i].CasPause? && !xs[i].Unpause?
  }

  lemma CalmJoin(xs: seq<Action>, ys: seq<Action>)
    requires Calm(xs) && Calm(ys)
    ensures Calm(xs + ys)
  {
  }

  lemma {:induction false} LeadsJoin(c: State, xs: seq<Action>, c1: State, ys: seq<Action>, c2: State)
    requires Leads(c, xs, c1) && Leads(c1, ys, c2)
    ensures Leads(c, xs + ys, c2)
    decreases |ys|
  {
    if ys == [] {
      assert xs + ys == xs;
    } else {
      var n := |ys| - 1;
      LeadsJoin(c, xs, c1, ys[..n], After(c1, ys[..n]));
      assert (xs + ys)[..|xs + ys| - 1] == xs + ys[..n];
    }
  }

  lemma LeadsNowhere(c: State)
    ensures Leads(c, [], c)
  {
  }

  lemma LeadsOne(c: State, a: Action)
    requires Enabled(c, a)
    ensures Leads(c, [a], Step(c, a))
  {
    assert [a][..0] == [];
    assert Runs(c, []) && After(c, []) == c;
  }

  lemma ByOne(c: State, a: Action)
    requires Enabled(c, a)
    ensures LeadsBy(c, [a], Step(c, a), a.t)
  {
    LeadsOne(c, a);
  }

  lemma ByJoin(c: State, xs: seq<Action>, c1: State, ys: seq<Action>, c2: State, t: nat)
    requires LeadsBy(c, xs, c1, t) && LeadsBy(c1, ys, c2, t)
    ensures LeadsBy(c, xs + ys, c2, t)
  {
    LeadsJoin(c, xs, c1, ys, c2);
  }

  // ---------------------------------------------------------------------------------------------
  // unpause()

  /** Everybody at place `With(w)` has been resumed by `w`, who is through; nothing else has changed. */
  ghost predicate Resumed(c: State, place: seq<Place>, w: nat, c': State) {
    && |c'.pc| == |c.pc| == |place| && c'.word == c.word && c'.next == c.next && c'.crashed == c.crashed
    && forall t :: 0 <= t < |c.pc| ==>
         c'.pc[t] == if place[t] == With(w) then Posted else if t == w then Idle else c.pc[t]
  }

  predicate Sleeps(p: Pc) { p == Parked }

  /** The head of the list somebody walks along. */
  lemma WalkHead(s: State, g: View, w: nat)
    requires Inv(s, g) && w < |s.pc| && (s.pc[w].Walking? || s.pc[w].Waking?)
    ensures s.pc[w].Walking? && s.pc[w].ptr == Zero ==> forall t :: 0 <= t < |s.pc| ==> g.gate.place[t] != With(w)
    ensures s.pc[w].ptr != Zero ==>
      && Live(s, s.pc[w].ptr) && s.pc[w].ptr.id != w && g.gate.place[s.pc[w].ptr.id] == With(w)
    ensures s.pc[w].Waking? ==> s.pc[w].ptr != Zero
    ensures |g.gate.place| == |s.pc| == |s.next|
  {
    assert Holds(g.gate.place, g.lists[w], With(w)) && WalkOk(s.next, s.pc[w], g.lists[w]);
    hide StackOk, ListsOk;
  }

  lemma WakeEffect(c: State, g: View, w: nat) returns (g': View)
    requires Inv(c, g) && w < |c.pc| && c.pc[w].Waking?
    ensures Enabled(c, Wake(w)) && Inv(Step(c, Wake(w)), g') && |g.gate.place| == |c.pc|
    ensures c.pc[w].ptr.Node? && c.pc[w].ptr.id < |c.pc| && c.pc[w].ptr.id != w && c.pc[c.pc[w].ptr.id] == Parked
    ensures Step(c, Wake(w)) == c.(pc := c.pc[c.pc[w].ptr.id := Posted][w := Walking(c.pc[w].rest)])
    ensures g.gate.place[c.pc[w].ptr.id] == With(w) && g'.gate.place == g.gate.place[c.pc[w].ptr.id := Out]
  {
    WalkHead(c, g, w);
    hide Inv;
    g' := StepRefines(c, g, Wake(w));
  }

  lemma WalkEffect(c: State, g: View, w: nat) returns (g': View)
    requires Inv(c, g) && w < |c.pc| && c.pc[w].Walking?
    ensures Enabled(c, Walk(w)) && Inv(Step(c, Walk(w)), g') && g'.gate == g.gate && |g.gate.place| == |c.pc|
    ensures c.pc[w].ptr == Zero ==>
      Step(c, Walk(w)) == c.(pc := c.pc[w := Idle]) && forall t :: 0 <= t < |c.pc| ==> g.gate.place[t] != With(w)
    ensures c.pc[w].ptr != Zero ==> exists rest :: Step(c, Walk(w)) == c.(pc := c.pc[w := Waking(c.pc[w].ptr, rest)])
  {
    WalkHead(c, g, w);
    hide Inv;
    g' := StepRefines(c, g, Walk(w));
  }

  lemma ResumedMore(c: State, place: seq<Place>, w: nat, t: nat, p: Pc, c1: State, c2: State)
    requires w < |c.pc| == |place| && t < |c.pc| && t != w && place[t] == With(w)
    requires c1 == c.(pc := c.pc[t := Posted][w := p]) && Resumed(c1, place[t := Out], w, c2)
    ensures Resumed(c, place, w, c2)
  {
  }

  /** unpause() comes to an end by its own steps, and on the way it resumes everybody on its list. */
  lemma {:induction false} UnpauseEnds(c: State, g: View, w: nat) returns (xs: seq<Action>, c': State, g': View)
    requires Inv(c, g) && w < |c.pc| && (c.pc[w].Walking? || c.pc[w].Waking?)
    ensures LeadsBy(c, xs, c', w) && Calm(xs) && Inv(c', g') && Resumed(c, g.gate.place, w, c')
    decreases Count(c.pc, Sleeps), c.pc[w].Walking?
  {
    hide LeadsBy, Inv, Enabled, Step, Count;
    if c.pc[w].Waking? {
      var g1 := WakeEffect(c, g, w);
      var t, p := c.pc[w].ptr.id, Walking(c.pc[w].rest);
      var c1 := Step(c, Wake(w));
      ByOne(c, Wake(w));
      CountUpdate(c.pc, t, Posted, Sleeps);
      CountUpdate(c.pc[t := Posted], w, p, Sleeps);
      xs, c', g' := UnpauseEnds(c1, g1, w);
      ByJoin(c, [Wake(w)], c1, xs, c', w);
      CalmJoin([Wake(w)], xs);
      xs := [Wake(w)] + xs;
      ResumedMore(c, g.gate.place, w, t, p, c1, c');
    } else {
      g' := WalkEffect(c, g, w);
      xs, c' := [Walk(w)], Step(c, Walk(w));
      ByOne(c, Walk(w));
      if c.pc[w].ptr != Zero {
        CountUpdate(c.pc, w, c'.pc[w], Sleeps);
        var ys, c1 := xs, c';
        xs, c', g' := UnpauseEnds(c1, g', w);
        ByJoin(c, ys, c1, xs, c', w);
        CalmJoin(ys, xs);
        xs := ys + xs;
      }
    }
  }

  /** Who is at the gate hangs on the word. */
  lemma AtGateMeets(c: State, g: View, t: nat)
    requires Inv(c, g) && t < |c.pc|
    ensures |g.gate.place| == |c.pc| && (g.gate.place[t] == AtGate <==> Meets(c.next, c.word, t))
    ensures forall w :: 0 <= w < |c.pc| && c.pc[w] == Idle ==> g.gate.place[t] != With(w)
  {
    StackMeets(c, g, t);
    hide Meets, Forward;
    forall w | 0 <= w < |c.pc| && c.pc[w] == Idle ensures g.gate.place[t] != With(w) {
      NoList(c, g, w);
      assert Holds(g.gate.place, g.lists[w], With(w));
    }
  }

  /** unpause() unpauses and resumes exactly those who hang on the word, by its own steps. */
  lemma {:induction false} UnpauseResumesAll(s: State, acts: seq<Action>, t: nat) returns (xs: seq<Action>, c': State)
    requires Init(s) && Runs(s, acts) && t < |After(s, acts).pc| && After(s, acts).pc[t] == Idle
    ensures var c := After(s, acts);
      && LeadsBy(c, [Unpause(t)] + xs, c', t) && c'.word == Flag && |c'.pc| == |c.pc|
      && forall u :: 0 <= u < |c.pc| ==> c'.pc[u] == if Meets(c.next, c.word, u) then Posted else c.pc[u]
  {
    var g := RunRefines(s, acts);
    var c := After(s, acts);
    hide Runs, After, Events, GateRuns, GateAfter;
    xs, c' := UnpauseAt(c, g, t);
  }

  lemma UnpauseAt(c: State, g: View, t: nat) returns (xs: seq<Action>, c': State)
    requires Inv(c, g) && t < |c.pc| && c.pc[t] == Idle
    ensures LeadsBy(c, [Unpause(t)] + xs, c', t) && c'.word == Flag && |c'.pc| == |c.pc|
    ensures forall u :: 0 <= u < |c.pc| ==> c'.pc[u] == if Meets(c.next, c.word, u) then Posted else c.pc[u]
  {
    var g1 := UnpauseEffect(c, g, t);
    var c1 := Step(c, Unpause(t));
    ByOne(c, Unpause(t));
    hide Inv, Enabled, Step, Meets, LeadsBy;
    xs, c' := [], c1;
    assert [Unpause(t)] + [] == [Unpause(t)];
    if c.word != Flag {
      var g2;
      xs, c', g2 := UnpauseEnds(c1, g1, t);
      ByJoin(c, [Unpause(t)], c1, xs, c', t);
    }
    forall u | 0 <= u < |c.pc| ensures c'.pc[u] == if Meets(c.next, c.word, u) then Posted else c.pc[u] {
      if c.word == Flag { MeetsNothing(c.next, c.word, u); }
    }
  }

  lemma UnpauseEffect(c: State, g: View, t: nat) returns (g': View)
    requires Inv(c, g) && t < |c.pc| && c.pc[t] == Idle
    ensures Enabled(c, Unpause(t)) && Inv(Step(c, Unpause(t)), g') && |g'.gate.place| == |c.pc|
    ensures Step(c, Unpause(t)) == c.(word := Flag, pc := c.pc[t := if c.word == Flag then Idle else Walking(c.word)])
    ensures forall u :: 0 <= u < |c.pc| ==> (g'.gate.place[u] == With(t) <==> Meets(c.next, c.word, u))
  {
    AllAtGate(c, g, t);
    UnpauseStep(c, t);
    hide Inv, Meets, Step, Enabled, EventOf, GateStep;
    g' := StepRefines(c, g, Unpause(t));
    OpenStep(g.gate, t, g'.gate);
  }

  lemma UnpauseStep(c: State, t: nat)
    requires Enabled(c, Unpause(t))
    ensures Step(c, Unpause(t)) == c.(word := Flag, pc := c.pc[t := if c.word == Flag then Idle else Walking(c.word)])
    ensures EventOf(c, Unpause(t)) == Open(t)
  {
  }

  /** Opening the gate takes exactly those along who are at it. */
  lemma OpenStep(m: Gate, t: nat, m': Gate)
    requires GateStep(m, Open(t), m')
    ensures |m'.place| == |m.place|
    ensures forall u :: 0 <= u < |m.place| ==> (m'.place[u] == With(t) <==> m.place[u] == AtGate || m.place[u] == With(t))
  {
  }

  lemma AllAtGate(c: State, g: View, t: nat)
    requires Inv(c, g) && t < |c.pc| && c.pc[t] == Idle
    ensures Enabled(c, Unpause(t)) && |g.gate.place| == |c.pc|
    ensures forall u :: 0 <= u < |c.pc| ==>
      (g.gate.place[u] == AtGate <==> Meets(c.next, c.word, u)) && g.gate.place[u] != With(t)
  {
    hide Meets;
    forall u | 0 <= u < |c.pc|
      ensures |g.gate.place| == |c.pc| && (g.gate.place[u] == AtGate <==> Meets(c.next, c.word, u))
      ensures g.gate.place[u] != With(t)
    {
      AtGateMeets(c, g, u);
    }
  }

  /** pause() pauses, by its own steps, and disturbs nobody. */
  lemma PauseEnds(c: State, t: nat) returns (xs: seq<Action>)
    requires t < |c.pc| == |c.next| && (c.pc[t] == Idle || c.pc[t] == PauseCas)
    ensures var c' := c.(word := if c.word == Flag then Zero else c.word, pc := c.pc[t := Idle]);
      LeadsBy(c, (if c.pc[t] == Idle then [Pause(t)] else []) + xs, c', t)
  {
    var c1 := c;
    ghost var ys: seq<Action> := [];
    if c.pc[t] == Idle {
      c1 := Step(c, Pause(t));
      ByOne(c, Pause(t));
      ys := [Pause(t)];
    } else {
      LeadsNowhere(c);
    }
    hide LeadsBy;
    assert c.pc[t] == Idle && c.word != Flag ==> c1 == c.(pc := c.pc[t := Idle]);
    xs := [];
    assert ys + [] == ys;
    if c1.pc[t] == PauseCas {
      var c2 := Step(c1, CasPause(t, false));
      ByOne(c1, CasPause(t, false));
      xs := [CasPause(t, false)];
      ByJoin(c, ys, c1, xs, c2, t);
      assert c2.pc == c.pc[t := Idle];
    }
  }

  /** A coroutine inside co_await gets to sleep by its own steps if the token is paused, and gets out if it is not. */
  lemma {:induction false} AwaitEnds(c: State, t: nat) returns (xs: seq<Action>, c': State)
    requires t < |c.pc| == |c.next| && (c.pc[t] == Idle || c.pc[t] == PushLoad || c.pc[t].PushCas?)
    requires !Refused(c.pc[t])
    ensures LeadsBy(c, (if c.pc[t] == Idle then [AwaitReady(t)] else []) + xs, c', t) && Calm(xs)
    ensures c'.pc == c.pc[t := if c.word == Flag then Idle else Parked]
    ensures c.pc[t] == Idle && c.word == Flag ==> xs == []
    ensures c'.word == if c.word == Flag then Flag else Node(t)
    decreases if c.pc[t] == Idle then 3 else if c.pc[t] == PushLoad then 2
              else if c.pc[t] != PushCas(c.word) then 1 else 0
  {
    hide LeadsBy;
    var a := if c.pc[t] == Idle then AwaitReady(t) else if c.pc[t] == PushLoad then LoadWord(t) else CasWord(t, false);
    var c1 := Step(c, a);
    ByOne(c, a);
    xs, c' := [], c1;
    assert c1.pc == c.pc[t := c1.pc[t]];
    if c1.pc[t] == PushLoad || c1.pc[t].PushCas? {
      xs, c' := AwaitEnds(c1, t);
      assert [] + xs == xs;
      ByJoin(c, [a], c1, xs, c', t);
    }
    if c.pc[t] != Idle {
      xs := [a] + xs;
      assert [] + xs == xs && [a] + [] == [a];
    } else {
      assert [a] + [] == [a];
    }
  }

  lemma InsideAwait(c: State, g: View, t: nat)
    requires Inv(c, g) && t < |c.pc|
    ensures |c.pc| == |c.next| && !Refused(c.pc[t])
  {
    hide StackOk, ListsOk;
  }

  /** The sleeper's taker finishes, and the sleeper runs. */
  lemma SleeperRuns(c: State, g: View, t: nat) returns (xs: seq<Action>, c': State)
    requires Inv(c, g) && t < |c.pc| && c.pc[t] == Parked && c.word == Flag
    ensures Leads(c, xs, c') && Calm(xs) && t < |c'.pc| && c'.pc[t] == Idle && c'.word == Flag
  {
    var w := Taker(c, g, t);
    var ys, c1, g1 := UnpauseEnds(c, g, w);
    hide Inv;
    LeadsOne(c1, Run(t));
    LeadsJoin(c, ys, c1, [Run(t)], Step(c1, Run(t)));
    xs, c' := ys + [Run(t)], Step(c1, Run(t));
  }

  lemma Taker(c: State, g: View, t: nat) returns (w: nat)
    requires Inv(c, g) && t < |c.pc| && c.pc[t] == Parked && c.word == Flag
    ensures w < |c.pc| == |g.gate.place| == |c.next| && g.gate.place[t] == With(w)
    ensures c.pc[w].Walking? || c.pc[w].Waking?
  {
    hide Forward;
    assert g.gate.place[t] == AtGate ==> t in g.stack;
    w := g.gate.place[t].w;
    assert Holds(g.gate.place, g.lists[w], With(w)) && WalkOk(c.next, c.pc[w], g.lists[w]);
  }

  /** An unpaused token lets everybody through: from every reachable state in which it is unpaused, and for every
      coroutine inside co_await, asleep or not, there is a way to go on after which it is out. */
  lemma {:induction false} OpenLetsThrough(s: State, acts: seq<Action>, t: nat) returns (xs: seq<Action>, c': State)
    requires Init(s) && Runs(s, acts) && After(s, acts).word == Flag && t < |After(s, acts).pc|
    requires var p := After(s, acts).pc[t]; p == PushLoad || p.PushCas? || p == Parked || p == Posted
    ensures Leads(After(s, acts), xs, c') && Calm(xs) && t < |c'.pc| && c'.pc[t] == Idle && c'.word == Flag
  {
    var g := RunRefines(s, acts);
    hide Runs, After, Events, GateRuns, GateAfter, Leads;
    xs, c' := LetsThrough(After(s, acts), g, t);
  }

  lemma LetsThrough(c: State, g: View, t: nat) returns (xs: seq<Action>, c': State)
    requires Inv(c, g) && c.word == Flag && t < |c.pc|
    requires c.pc[t] == PushLoad || c.pc[t].PushCas? || c.pc[t] == Parked || c.pc[t] == Posted
    ensures Leads(c, xs, c') && Calm(xs) && t < |c'.pc| && c'.pc[t] == Idle && c'.word == Flag
  {
    InsideAwait(c, g, t);
    if c.pc[t] == Parked {
      xs, c' := SleeperRuns(c, g, t);
    } else if c.pc[t] == Posted {
      LeadsOne(c, Run(t));
      xs, c' := [Run(t)], Step(c, Run(t));
    } else {
      xs, c' := AwaitEnds(c, t);
      assert [] + xs == xs;
    }
  }

  /** A paused token puts to sleep whoever waits on it, by his own steps. */
  lemma {:induction false} PausedPutsToSleep(s: State, acts: seq<Action>, t: nat) returns (xs: seq<Action>, c': State)
    requires Init(s) && Runs(s, acts) && After(s, acts).word != Flag && t < |After(s, acts).pc|
    requires var p := After(s, acts).pc[t]; p == Idle || p == PushLoad || p.PushCas?
    ensures var c := After(s, acts);
      && LeadsBy(c, (if c.pc[t] == Idle then [AwaitReady(t)] else []) + xs, c', t)
      && c'.pc == c.pc[t := Parked] && c'.word == Node(t)
  {
    var g := RunRefines(s, acts);
    hide Runs, After, Events, GateRuns, GateAfter;
    InsideAwait(After(s, acts), g, t);
    xs, c' := AwaitEnds(After(s, acts), t);
  }
}
