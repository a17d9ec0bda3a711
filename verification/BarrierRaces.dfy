/** Runs of the barrier that go wrong: a racing drop makes a finished completer start a second one, and a phase that
    drops everybody leaves a completer spinning. */
module BarrierRaces {
  import opened Barrier

  lemma Begin(s: State) returns (acts: seq<Action>)
    requires Init(s)
    ensures Runs(s, acts) && After(s, acts) == s && AllGood(s, acts)
  {
    acts := [];
  }

  /** One more step of a run under construction. */
  lemma Extend(s: State, acts: seq<Action>, a: Action) returns (acts': seq<Action>, c': State)
    requires Runs(s, acts) && Enabled(After(s, acts), a)
    ensures Runs(s, acts') && After(s, acts') == c' == Step(After(s, acts), a)
    ensures AllGood(s, acts') <==> AllGood(s, acts) && Good(After(s, acts), a)
  {
    acts', c' := acts + [a], Step(After(s, acts), a);
    assert acts'[..|acts'| - 1] == acts;
  }

  /** An arrival of slot `t` that nobody disturbs. */
  lemma ArriveAndPush(s: State, acts: seq<Action>, t: nat, drop: bool) returns (acts': seq<Action>, c': State)
    requires Runs(s, acts)
    requires var c := After(s, acts); t < |c.slots| == |c.next| && c.slots[t] == Free
    ensures Runs(s, acts') && After(s, acts') == c'
    ensures var c := After(s, acts);
      c' == c.(count := c.count - 1, working := To(Arrival(t, drop)), next := c.next[t := c.working],
               slots := c.slots[t := Pushed(drop)], comps := if c.count == 1 then c.comps + [Load] else c.comps)
    ensures AllGood(s, acts) ==> AllGood(s, acts')
  {
    hide Runs, After, AllGood;
    var c := After(s, acts);
    acts', c' := Extend(s, acts, Arrive(t, drop));
    acts', c' := Extend(s, acts', LoadSet(t));
    acts', c' := Extend(s, acts', CasSet(t, false));
    assert c'.slots == c.slots[t := Pushed(drop)];
  }

  /** `y` and then `x` are all that is in the list, and completer `k` is to complete a phase of two. */
  predicate TwoReady(c: State, k: nat, y: Arrival, x: Arrival) {
    && k < |c.comps| && x.id < |c.slots| == |c.next| && y.id < |c.slots| && x.id != y.id && c.expected == 2
    && c.slots[y.id] == Pushed(y.drop) && c.next[y.id] == To(x)
    && c.slots[x.id] == Pushed(x.drop) && c.next[x.id] == Null
  }

  lemma AcquireTwo(s: State, acts: seq<Action>, k: nat, y: Arrival, x: Arrival)
    returns (acts': seq<Action>, c': State)
    requires Runs(s, acts)
    requires var c := After(s, acts); TwoReady(c, k, y, x) && c.working == To(y) && c.comps[k] == Load
    ensures Runs(s, acts') && After(s, acts') == c'
    ensures var c := After(s, acts); c' == c.(comps := c.comps[k := Trim(To(y))])
  {
    hide Runs, After, AllGood;
    var c := After(s, acts);
    acts', c' := Extend(s, acts, Work(k));
    acts', c' := Extend(s, acts', Work(k));
    assert c' == c.(comps := c.comps[k := Walk(To(y), To(x), 1, Null)]);
    acts', c' := Extend(s, acts', Work(k));
    acts', c' := Extend(s, acts', Work(k));
    assert c'.comps == c.comps[k := Trim(To(y))];
  }

  lemma CountTwo(s: State, acts: seq<Action>, k: nat, y: Arrival, x: Arrival)
    returns (acts': seq<Action>, c': State)
    requires Runs(s, acts)
    requires var c := After(s, acts); TwoReady(c, k, y, x) && c.working == To(y) && c.comps[k] == Trim(To(y))
    ensures Runs(s, acts') && After(s, acts') == c'
    ensures var c := After(s, acts); var drops := (if y.drop then 1 else 0) + (if x.drop then 1 else 0);
      c' == c.(working := Null, comps := c.comps[k := Complete(To(y), drops)])
  {
    hide Runs, After, AllGood;
    var c := After(s, acts);
    acts', c' := Extend(s, acts, Work(k));
    acts', c' := Extend(s, acts', Work(k));
    assert c' == c.(working := Null, comps := c.comps[k := CountDrops(To(y), To(x), if y.drop then 1 else 0)]);
    acts', c' := Extend(s, acts', Work(k));
    acts', c' := Extend(s, acts', Work(k));
    var drops := (if y.drop then 1 else 0) + (if x.drop then 1 else 0);
    assert c'.comps == c.comps[k := Complete(To(y), drops)];
  }

  /** Completer `k` takes its window of two up to the point where the counter is to be refilled. */
  lemma CompleteTwo(s: State, acts: seq<Action>, k: nat, y: Arrival, x: Arrival)
    returns (acts': seq<Action>, c': State)
    requires Runs(s, acts)
    requires var c := After(s, acts); TwoReady(c, k, y, x) && c.working == To(y) && c.comps[k] == Load
    ensures Runs(s, acts') && After(s, acts') == c'
    ensures var c := After(s, acts); var drops := (if y.drop then 1 else 0) + (if x.drop then 1 else 0);
      c' == c.(working := Null, comps := c.comps[k := Refill(To(y))], completions := c.completions + 1,
               expected := 2 - drops)
  {
    hide Runs, After, AllGood;
    var c := After(s, acts);
    acts', c' := AcquireTwo(s, acts, k, y, x);
    acts', c' := CountTwo(s, acts', k, y, x);
    acts', c' := Extend(s, acts', Work(k));
    acts', c' := Extend(s, acts', Work(k));
    assert c'.comps == c.comps[k := Refill(To(y))];
  }

  const A := Arrival(0, false)
  const B := Arrival(1, false)
  const X := Arrival(2, false)
  const Y := Arrival(3, true)

  /** The first phase: `A` and `B` complete it while `X` has announced itself; its completer has resumed
      everybody and is about to look whether another phase is due. */
  lemma FirstPhase(s: State) returns (acts: seq<Action>, c: State)
    requires s == State(2, 2, Null, [Null, Null, Null, Null], [Free, Free, Free, Free], [], 0, false)
    ensures Init(s) && Runs(s, acts) && After(s, acts) == c
    ensures c == State(2, 1, Null, [Null, To(A), Null, Null], [Free, Free, PushLoad(false, false), Free],
                       [Resume(Null, -1, 2)], 1, false)
  {
    hide Runs, After, AllGood;
    acts := Begin(s);
    acts, c := ArriveAndPush(s, acts, 0, false);
    acts, c := ArriveAndPush(s, acts, 1, false);
    assert c.next == [Null, To(A), Null, Null] && c.comps == [Load];
    acts, c := Extend(s, acts, Arrive(2, false));
    assert c.slots == [Pushed(false), Pushed(false), PushLoad(false, false), Free];
    acts, c := CompleteTwo(s, acts, 0, B, A);
    assert c.comps == [Refill(To(B))];
    acts, c := ResumeTwo(s, acts, c);
  }

  lemma ResumeTwo(s: State, acts: seq<Action>, c: State) returns (acts': seq<Action>, c': State)
    requires Runs(s, acts) && After(s, acts) == c
    requires c == State(2, -1, Null, [Null, To(A), Null, Null],
                        [Pushed(false), Pushed(false), PushLoad(false, false), Free], [Refill(To(B))], 1, false)
    ensures Runs(s, acts') && After(s, acts') == c'
    ensures c' == State(2, 1, Null, [Null, To(A), Null, Null], [Free, Free, PushLoad(false, false), Free],
                        [Resume(Null, -1, 2)], 1, false)
  {
    hide Runs, After, AllGood;
    acts', c' := Extend(s, acts, Work(0));
    assert c'.comps == [Resume(To(B), -1, 2)];
    acts', c' := Extend(s, acts', Work(0));
    assert c'.comps == [Resume(To(A), -1, 2)] && c'.slots == [Pushed(false), Free, PushLoad(false, false), Free];
    acts', c' := Extend(s, acts', Work(0));
    assert c'.comps == [Resume(Null, -1, 2)] && c'.slots == [Free, Free, PushLoad(false, false), Free];
  }

  /** The second phase: `X` and the drop token `Y` complete it, and expected_ falls to one. */
  lemma SecondPhase(s: State, acts: seq<Action>, c: State) returns (acts': seq<Action>, c': State)
    requires Runs(s, acts) && After(s, acts) == c
    requires c == State(2, 1, Null, [Null, To(A), Null, Null], [Free, Free, PushLoad(false, false), Free],
                        [Resume(Null, -1, 2)], 1, false)
    ensures Runs(s, acts') && After(s, acts') == c'
    ensures c'.comps == [Resume(Null, -1, 2), Refill(To(Y))] && c'.expected == 1 && |c'.slots| == |c'.next|
  {
    hide Runs, After, AllGood;
    acts', c' := Extend(s, acts, LoadSet(2));
    assert c'.slots == [Free, Free, PushCas(false, false, Null), Free];
    acts', c' := Extend(s, acts', CasSet(2, false));
    assert c'.slots == [Free, Free, Pushed(false), Free] && c'.next == [Null, To(A), Null, Null];
    acts', c' := ArriveAndPush(s, acts', 3, true);
    assert c'.next == [Null, To(A), Null, To(X)] && c'.comps == [Resume(Null, -1, 2), Load];
    acts', c' := CompleteTwo(s, acts', 1, Y, X);
    assert c'.comps == [Resume(Null, -1, 2), Refill(To(Y))];
  }

  /** With a racing drop two activations of complete_phase() own the barrier at once: the first completer
      re-reads expected_ after the second has lowered it and starts a third. */
  lemma TwoOwners() returns (s: State, acts: seq<Action>, c: State)
    ensures Init(s) && Runs(s, acts) && After(s, acts) == c && !AllGood(s, acts) && !Sound(c)
    ensures c.comps == [Done, Refill(To(Y)), Load] && Holds(c.comps[1]) && Holds(c.comps[2])
  {
    hide Runs, After, AllGood;
    s := State(2, 2, Null, [Null, Null, Null, Null], [Free, Free, Free, Free], [], 0, false);
    acts, c := FirstPhase(s);
    acts, c := SecondPhase(s, acts, c);
    acts, c := Extend(s, acts, Work(0));
    assert c.comps == [Done, Refill(To(Y)), Load];
    assert Holds(c.comps[1]);
  }

  const D := Arrival(0, true)

  lemma DropWindow(s: State, acts: seq<Action>, c: State) returns (acts': seq<Action>, c': State)
    requires Runs(s, acts) && After(s, acts) == c
    requires c == State(1, 0, To(D), [Null], [Pushed(true)], [Load], 0, false)
    ensures Runs(s, acts') && After(s, acts') == c'
    ensures c' == State(1, 0, Null, [Null], [Pushed(true)], [CountDrops(To(D), Null, 1)], 0, false)
    ensures AllGood(s, acts) ==> AllGood(s, acts')
  {
    hide Runs, After, AllGood;
    acts', c' := Extend(s, acts, Work(0));
    assert c'.comps == [Walk(To(D), To(D), 0, Null)];
    acts', c' := Extend(s, acts', Work(0));
    acts', c' := Extend(s, acts', Work(0));
    assert c'.comps == [Trim(To(D))];
    acts', c' := Extend(s, acts', Work(0));
    acts', c' := Extend(s, acts', Work(0));
    assert c'.comps == [CountDrops(To(D), Null, 1)];
  }

  lemma DropEverybody(s: State, acts: seq<Action>, c: State) returns (acts': seq<Action>, c': State)
    requires Runs(s, acts) && After(s, acts) == c
    requires c == State(1, 0, Null, [Null], [Pushed(true)], [CountDrops(To(D), Null, 1)], 0, false)
    ensures Runs(s, acts') && After(s, acts') == c'
    ensures c' == State(0, 0, Null, [Null], [Pushed(true)], [Refill(To(D))], 1, false)
    ensures AllGood(s, acts) ==> AllGood(s, acts')
  {
    hide Runs, After, AllGood;
    acts', c' := Extend(s, acts, Work(0));
    acts', c' := Extend(s, acts', Work(0));
    assert c'.comps == [Reduce(To(D), 1)];
    acts', c' := Extend(s, acts', Work(0));
    assert c'.comps == [Refill(To(D))];
  }

  /** A completer that finds the list empty looks at it again: until somebody pushes, two of its steps lead back to
      the same state. */
  lemma IdleTurn(c: State, k: nat)
    requires k < |c.comps| && c.comps[k] == Load && c.working == Null && |c.slots| == |c.next|
    ensures Enabled(c, Work(k)) && Enabled(Step(c, Work(k)), Work(k)) && Step(Step(c, Work(k)), Work(k)) == c
  {
    assert Step(Step(c, Work(k)), Work(k)).comps == c.comps;
  }

  /** When the only participant drops out the barrier ends up with a completer, an empty list, nobody on his
      way into it, and nobody who is expected: the completer spins until somebody arrives who was never expected. */
  lemma SpinsInVain() returns (s: State, acts: seq<Action>, c: State)
    ensures Init(s) && Runs(s, acts) && After(s, acts) == c && AllGood(s, acts)
    ensures c.expected == 0 && c.count == 0 && c.working == Null && c.slots == [Free] && c.comps == [Done, Load]
    ensures |c.next| == 1
    ensures Enabled(c, Work(1)) && Enabled(Step(c, Work(1)), Work(1)) && Step(Step(c, Work(1)), Work(1)) == c
  {
    hide Runs, After, AllGood;
    s := State(1, 1, Null, [Null], [Free], [], 0, false);
    acts := Begin(s);
    acts, c := ArriveAndPush(s, acts, 0, true);
    assert c.next == [Null] && c.slots == [Pushed(true)] && c.comps == [Load];
    acts, c := DropWindow(s, acts, c);
    acts, c := DropEverybody(s, acts, c);
    acts, c := Extend(s, acts, Work(0));
    assert c.comps == [Resume(To(D), 0, 0)];
    acts, c := Extend(s, acts, Work(0));
    assert c.comps == [Resume(Null, 0, 0)] && c.slots == [Free];
    acts, c := Extend(s, acts, Work(0));
    assert c.comps == [Done, Load];
    IdleTurn(c, 1);
  }

  const G := Arrival(0, false)

  /** Somebody arrives who is not expected: the spinning completer takes him for a window of one. */
  lemma TakeGuest(s: State, acts: seq<Action>, c: State) returns (acts': seq<Action>, c': State)
    requires Runs(s, acts) && After(s, acts) == c
    requires c.expected == 0 && c.count == 0 && c.working == Null && c.slots == [Free] && |c.next| == 1
    requires c.comps == [Done, Load]
    ensures Runs(s, acts') && After(s, acts') == c'
    ensures c' == c.(count := -1, next := [Null], slots := [Pushed(false)],
                     comps := [Done, CountDrops(To(G), To(G), 0)])
    ensures AllGood(s, acts) ==> AllGood(s, acts')
  {
    hide Runs, After, AllGood;
    acts', c' := ArriveAndPush(s, acts, 0, false);
    assert c'.next == [Null] && c'.slots == [Pushed(false)] && c'.comps == [Done, Load];
    acts', c' := Extend(s, acts', Work(1));
    acts', c' := Extend(s, acts', Work(1));
    assert c'.comps == [Done, Walk(To(G), Null, 1, To(G))];
    acts', c' := Extend(s, acts', Work(1));
    acts', c' := Extend(s, acts', Work(1));
    assert c'.comps == [Done, CountDrops(To(G), To(G), 0)];
  }

  lemma ResumeGuest(s: State, acts: seq<Action>, c: State) returns (acts': seq<Action>, c': State)
    requires Runs(s, acts) && After(s, acts) == c
    requires c.expected == 0 && c.count == -1 && c.working == Null && c.slots == [Pushed(false)] && c.next == [Null]
    requires c.comps == [Done, CountDrops(To(G), To(G), 0)]
    ensures Runs(s, acts') && After(s, acts') == c'
    ensures c'.expected == 0 && c'.count == -1 && c'.working == Null && c'.slots == [Free]
    ensures c'.comps == [Done, Done, Load]
    ensures AllGood(s, acts) ==> AllGood(s, acts')
  {
    hide Runs, After, AllGood;
    acts', c' := Extend(s, acts, Work(1));
    acts', c' := Extend(s, acts', Work(1));
    acts', c' := Extend(s, acts', Work(1));
    assert c'.comps == [Done, Reduce(To(G), 0)];
    acts', c' := Extend(s, acts', Work(1));
    acts', c' := Extend(s, acts', Work(1));
    assert c'.comps == [Done, Resume(To(G), -1, 0)];
    acts', c' := Extend(s, acts', Work(1));
    assert c'.comps == [Done, Resume(Null, -1, 0)] && c'.slots == [Free];
    acts', c' := Extend(s, acts', Work(1));
    assert c'.comps == [Done, Done, Load];
  }

  /** And then it spins again, with nobody expected and nobody on his way, but with the counter below zero: what was
      taken unexpectedly has to be counted when one tells whether a completer spins in vain. */
  lemma GuestLeavesDebt() returns (s: State, acts: seq<Action>, c: State)
    ensures Init(s) && Runs(s, acts) && After(s, acts) == c && AllGood(s, acts)
    ensures c.expected == 0 && c.count == -1 && c.working == Null && c.slots == [Free] && c.comps == [Done, Done, Load]
  {
    hide Runs, After, AllGood;
    s, acts, c := SpinsInVain();
    acts, c := TakeGuest(s, acts, c);
    acts, c := ResumeGuest(s, acts, c);
  }

  const P := Arrival(0, true)
  const Q := Arrival(1, true)

  /** Two participants, one phase, and a completer that has resumed both and not looked at expected_ again. */
  lemma BothReturn(s: State) returns (acts: seq<Action>, c: State)
    requires s == State(2, 2, Null, [Null, Null], [Free, Free], [], 0, false)
    ensures Init(s) && Runs(s, acts) && After(s, acts) == c
    ensures c == State(2, 2, Null, [Null, To(A)], [Free, Free], [Resume(Null, 0, 2)], 1, false)
  {
    hide Runs, After, AllGood;
    acts := Begin(s);
    acts, c := ArriveAndPush(s, acts, 0, false);
    acts, c := ArriveAndPush(s, acts, 1, false);
    assert c.next == [Null, To(A)] && c.comps == [Load] && c.slots == [Pushed(false), Pushed(false)];
    acts, c := CompleteTwo(s, acts, 0, B, A);
    assert c.comps == [Refill(To(B))];
    acts, c := ResumeBoth(s, acts, c);
  }

  lemma ResumeBoth(s: State, acts: seq<Action>, c: State) returns (acts': seq<Action>, c': State)
    requires Runs(s, acts) && After(s, acts) == c
    requires c == State(2, 0, Null, [Null, To(A)], [Pushed(false), Pushed(false)], [Refill(To(B))], 1, false)
    ensures Runs(s, acts') && After(s, acts') == c'
    ensures c' == State(2, 2, Null, [Null, To(A)], [Free, Free], [Resume(Null, 0, 2)], 1, false)
  {
    hide Runs, After, AllGood;
    acts', c' := Extend(s, acts, Work(0));
    assert c'.comps == [Resume(To(B), 0, 2)];
    acts', c' := Extend(s, acts', Work(0));
    assert c'.comps == [Resume(To(A), 0, 2)] && c'.slots == [Pushed(false), Free];
    acts', c' := Extend(s, acts', Work(0));
    assert c'.comps == [Resume(Null, 0, 2)] && c'.slots == [Free, Free];
  }

  /** The same with no more participants than are expected, each of whom keeps to the rules: they all drop out
      before the first completer has looked at expected_ again. */
  lemma EverybodyDrops() returns (s: State, acts: seq<Action>, c: State)
    ensures Init(s) && |s.slots| == s.expected && Runs(s, acts) && After(s, acts) == c
    ensures !AllGood(s, acts) && !Sound(c) && c.comps == [Done, Refill(To(Q)), Load]
  {
    hide Runs, After, AllGood;
    s := State(2, 2, Null, [Null, Null], [Free, Free], [], 0, false);
    acts, c := BothReturn(s);
    acts, c := ArriveAndPush(s, acts, 0, true);
    acts, c := ArriveAndPush(s, acts, 1, true);
    assert c.next == [Null, To(P)] && c.comps == [Resume(Null, 0, 2), Load];
    acts, c := CompleteTwo(s, acts, 1, Q, P);
    assert c.comps == [Resume(Null, 0, 2), Refill(To(Q))];
    acts, c := Extend(s, acts, Work(0));
    assert c.comps == [Done, Refill(To(Q)), Load];
    assert Holds(c.comps[1]);
  }
}
