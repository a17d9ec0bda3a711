/** The latch in general: any number of coroutines count down by any positive amounts and wait, in any order and as
    often as they like, on the pause token behind the counter. */
module SharedLatch {
  import opened Lists
  import Latch
  import PauseToken
  import PauseProgress

  type Token = PauseToken.State

  /** `owed` are the coroutines inside count_down() that are about to call unpause(). */
  datatype State = State(count: int, token: Token, owed: set<nat>)

  /** A latch never pauses its token again, and unpauses it only out of count_down(). */
  datatype Action = CountDown(t: nat, amount: int) | TokenStep(a: PauseToken.Action)

  predicate Enabled(s: State, x: Action) {
    match x
    case CountDown(t, amount) =>
      amount > 0 && t < |s.token.pc| == |s.token.next| && s.token.pc[t] == PauseToken.Idle && t !in s.owed
    case TokenStep(a) =>
      && PauseToken.Enabled(s.token, a) && !a.Pause? && !a.CasPause?
      && (a.Unpause? ==> a.t in s.owed) && (a.t in s.owed ==> a.Unpause? || a.ReuseNode?)
  }

  function Step(s: State, x: Action): State
    requires Enabled(s, x)
  {
    match x
    case CountDown(t, amount) =>
      // count_.fetch_sub(_amount)
      s.(count := s.count - amount, owed := if 0 < s.count <= amount then s.owed + {t} else s.owed)
    case TokenStep(a) =>
      s.(token := PauseToken.Step(s.token, a), owed := if a.Unpause? then s.owed - {a.t} else s.owed)
  }

  predicate Init(s: State) { s.count > 0 && PauseToken.Init(s.token) && s.owed == {} }

  // ---------------------------------------------------------------------------------------------
  // Before and after the latch opens

  /** Nobody is inside unpause(), or was resumed by it. */
  predicate Untouched(pc: seq<PauseToken.Pc>) {
    forall t :: 0 <= t < |pc| ==> !pc[t].Walking? && !pc[t].Waking? && !pc[t].Posted? && !pc[t].PauseCas?
  }

  /** Nobody pauses the token, or tries to link in front of the unpaused flag. */
  predicate Regular(pc: seq<PauseToken.Pc>) {
    forall t :: 0 <= t < |pc| ==> !pc[t].PauseCas? && !PauseToken.Refused(pc[t])
  }

  /** Closed until the count is down; then one coroutine owes the call of unpause(), and then the token is open. */
  ghost predicate Staged(s: State) {
    && Regular(s.token.pc)
    && (forall t :: t in s.owed ==> t < |s.token.pc| && s.token.pc[t] == PauseToken.Idle)
    && (s.token.word != Flag ==> Untouched(s.token.pc))
    && (if s.count > 0 then s.owed == {} && s.token.word != Flag
        else if s.token.word == Flag then s.owed == {}
        else exists t :: s.owed == {t})
  }

  ghost predicate Inv(s: State, g: PauseToken.View) { PauseToken.Inv(s.token, g) && Staged(s) }

  /** The step takes a coroutine past the latch: it finds the token unpaused, or has been resumed. */
  predicate Passes(s: State, x: Action)
    requires Enabled(s, x)
  {
    x.TokenStep? && (x.a.AwaitReady? || x.a.LoadWord? || x.a.CasWord? || x.a.Run?)
    && PauseToken.Step(s.token, x.a).pc[x.a.t] == PauseToken.Idle
  }

  lemma PassesOpen(s: State, x: Action)
    requires Enabled(s, x) && Staged(s) && s.token.word != Flag
    ensures !Passes(s, x)
  {
  }

  lemma StagedToken(s: State, a: PauseToken.Action)
    requires Enabled(s, TokenStep(a)) && Staged(s) && !a.Unpause? && !PauseToken.Step(s.token, a).crashed
    ensures Staged(Step(s, TokenStep(a)))
  {
    var s', pc := Step(s, TokenStep(a)), s.token.pc;
    assert |s'.token.pc| == |pc| && s'.count == s.count && s'.owed == s.owed;
    assert s'.token.word == Flag <==> s.token.word == Flag;
    assert Regular(s'.token.pc);
    assert forall t :: t in s.owed ==> s'.token.pc[t] == PauseToken.Idle;
    assert s.token.word != Flag ==> Untouched(s'.token.pc);
  }

  lemma StagedUnpause(s: State, t: nat)
    requires Enabled(s, TokenStep(PauseToken.Unpause(t))) && Staged(s)
    ensures Staged(Step(s, TokenStep(PauseToken.Unpause(t))))
    ensures s.token.word != Flag && s.count <= 0
  {
  }

  lemma {:induction false} StepKeeps(s: State, g: PauseToken.View, x: Action) returns (g': PauseToken.View)
    requires Inv(s, g) && Enabled(s, x)
    ensures Inv(Step(s, x), g')
  {
    g' := g;
    match x
    case CountDown(t, amount) => hide PauseToken.Inv;
    case TokenStep(a) =>
      hide PauseToken.Step, PauseToken.Enabled, PauseToken.Inv, Staged;
      g' := PauseToken.StepRefines(s.token, g, a);
      PauseToken.NotCrashed(PauseToken.Step(s.token, a), g');
      if a.Unpause? { StagedUnpause(s, a.t); } else { StagedToken(s, a); }
  }

  // ---------------------------------------------------------------------------------------------
  // Whole runs

  ghost predicate Runs(s: State, xs: seq<Action>)
    decreases |xs|, 0
  {
    xs == [] || (Runs(s, xs[..|xs| - 1]) && Enabled(After(s, xs[..|xs| - 1]), xs[|xs| - 1]))
  }

  ghost function After(s: State, xs: seq<Action>): State
    requires Runs(s, xs)
    decreases |xs|, 1
  {
    if xs == [] then s else Step(After(s, xs[..|xs| - 1]), xs[|xs| - 1])
  }

  /** The amounts counted down, in the order of their fetch_subs. */
  function Amounts(xs: seq<Action>): seq<int> {
    if xs == [] then []
    else Amounts(xs[..|xs| - 1]) + if xs[|xs| - 1].CountDown? then [xs[|xs| - 1].amount] else []
  }

  predicate Unpauses(x: Action) { x.TokenStep? && x.a.Unpause? }

  lemma SumAppend(amounts: seq<int>, amount: int)
    ensures Latch.Sum(amounts + [amount]) == Latch.Sum(amounts) + amount
  {
    assert (amounts + [amount])[..|amounts|] == amounts;
  }

  lemma InitView(s: State) returns (g: PauseToken.View)
    requires Init(s)
    ensures Inv(s, g)
  {
    g := PauseToken.InitView(s.token);
  }

  lemma {:induction false} RunKeeps(s: State, xs: seq<Action>) returns (g: PauseToken.View)
    requires Init(s) && Runs(s, xs)
    ensures Inv(After(s, xs), g) && Booked(s.count, xs, After(s, xs))
    decreases |xs|
  {
    hide Inv, Booked, Step, Enabled;
    if xs == [] {
      g := InitView(s);
      BookedInit(s);
    } else {
      var n := |xs| - 1;
      var g0 := RunKeeps(s, xs[..n]);
      g := StepKeeps(After(s, xs[..n]), g0, xs[n]);
      WordStep(After(s, xs[..n]), g0, xs[n]);
      BookedStep(s.count, xs, After(s, xs[..n]), After(s, xs));
    }
  }

  /** The counter, and the calls of unpause(), told by the steps of a run. */
  ghost predicate Booked(initial: int, xs: seq<Action>, c: State) {
    && c.count == initial - Latch.Sum(Amounts(xs))
    && (forall i :: 0 <= i < |Amounts(xs)| ==> Amounts(xs)[i] > 0)
    && Count(xs, Unpauses) == if c.token.word == Flag then 1 else 0
  }

  lemma BookedInit(s: State)
    requires Init(s)
    ensures Booked(s.count, [], s)
  {
  }

  lemma BookedStep(initial: int, xs: seq<Action>, c: State, c': State)
    requires xs != [] && Booked(initial, xs[..|xs| - 1], c)
    requires var x := xs[|xs| - 1];
      && (Unpauses(x) ==> c.token.word != Flag)
      && (c'.token.word == Flag <==> c.token.word == Flag || Unpauses(x))
      && c'.count == c.count - (if x.CountDown? then x.amount else 0)
      && (x.CountDown? ==> x.amount > 0)
    ensures Booked(initial, xs, c')
  {
    var x := xs[|xs| - 1];
    var before, after := Amounts(xs[..|xs| - 1]), Amounts(xs);
    if x.CountDown? { SumAppend(before, x.amount); }
    assert after == before + if x.CountDown? then [x.amount] else [];
    assert Count(xs, Unpauses) == Count(xs[..|xs| - 1], Unpauses) + if Unpauses(x) then 1 else 0;
    hide Latch.Sum, Amounts, Count;
    assert x.CountDown? ==> after[|after| - 1] == x.amount && forall i :: 0 <= i < |before| ==> after[i] == before[i];
    assert !x.CountDown? ==> after == before;
  }

  lemma WordStep(s: State, g: PauseToken.View, x: Action)
    requires Inv(s, g) && Enabled(s, x)
    ensures Unpauses(x) ==> s.token.word != Flag
    ensures Step(s, x).token.word == Flag <==> s.token.word == Flag || Unpauses(x)
    ensures Step(s, x).count == s.count - if x.CountDown? then x.amount else 0
    ensures x.CountDown? ==> x.amount > 0
  {
    hide PauseToken.Inv;
    if Unpauses(x) { StagedUnpause(s, x.a.t); }
  }

  /** Nobody passes the latch early, whoever waits: a step takes a coroutine past it only after the amounts counted down
      have reached the initial amount. */
  lemma {:induction false} NobodyPassesEarly(s: State, xs: seq<Action>, x: Action)
    requires Init(s) && Runs(s, xs) && Enabled(After(s, xs), x) && Passes(After(s, xs), x)
    ensures Latch.Sum(Amounts(xs)) >= s.count && Count(xs, Unpauses) == 1
  {
    var g := RunKeeps(s, xs);
    hide Runs, After, Amounts, PauseToken.Inv, Latch.Sum;
    if After(s, xs).token.word != Flag { PassesOpen(After(s, xs), x); }
  }

  /** The latch opens once.  unpause() is called, or about to be called, exactly if the amounts have reached the initial
      amount, and never twice; the count that is to call it is the one that first reaches that amount. */
  lemma {:induction false} OpensOnce(s: State, xs: seq<Action>)
    requires Init(s) && Runs(s, xs)
    ensures var c := After(s, xs);
      && Count(xs, Unpauses) + |c.owed| == (if Latch.Sum(Amounts(xs)) >= s.count then 1 else 0)
      && (forall t, amount :: Enabled(c, CountDown(t, amount)) ==>
            (Step(c, CountDown(t, amount)).owed != c.owed <==>
               Latch.Fires(s.count, Amounts(xs) + [amount], |Amounts(xs)|)))
  {
    var g := RunKeeps(s, xs);
    var c := After(s, xs);
    hide Runs, After, Amounts, PauseToken.Inv, PauseToken.Enabled, PauseToken.Step, Latch.Sum, Regular, Untouched;
    forall t, amount | Enabled(c, CountDown(t, amount))
      ensures Step(c, CountDown(t, amount)).owed != c.owed <==>
                Latch.Fires(s.count, Amounts(xs) + [amount], |Amounts(xs)|)
    {
      assert (Amounts(xs) + [amount])[..|Amounts(xs)|] == Amounts(xs);
    }
  }

  /** Nobody sleeps on: when the latch is open, whoever is asleep is on the list of somebody inside unpause(). */
  lemma {:induction false} NobodySleepsOn(s: State, xs: seq<Action>, t: nat)
    requires Init(s) && Runs(s, xs)
    requires var c := After(s, xs); t < |c.token.pc| && c.token.pc[t] == PauseToken.Parked
    ensures var c := After(s, xs);
      && !c.token.crashed
      && (Latch.Sum(Amounts(xs)) >= s.count && c.owed == {} ==>
            exists w :: 0 <= w < |c.token.pc| && PauseToken.Carries(c.token.next, c.token.pc[w], t))
  {
    var g := RunKeeps(s, xs);
    var c := After(s, xs);
    PauseToken.NotCrashed(c.token, g);
    PauseToken.SleeperIsListed(c.token, g, t);
    hide Runs, After, Amounts, PauseToken.Inv, Latch.Sum, PauseToken.Carries;
    if c.token.word == Flag { MeetsNothing(c.token.next, c.token.word, t); }
    hide Meets;
  }

  // ---------------------------------------------------------------------------------------------
  // Everybody passes once the latch is due

  /** The steps `xs` lead from `c` to `c'`. */
  ghost predicate Leads(c: State, xs: seq<Action>, c': State) { Runs(c, xs) && After(c, xs) == c' }

  lemma {:induction false} LeadsJoin(c: State, xs: seq<Action>, c1: State, ys: seq<Action>, c2: State)
    requires Leads(c, xs, c1) && Leads(c1, ys, c2)
    ensures Leads(c, xs + ys, c2)
    decreases |ys|
  {
    hide Step, Enabled;
    if ys == [] {
      assert xs + ys == xs;
    } else {
      var n := |ys| - 1;
      LeadsJoin(c, xs, c1, ys[..n], After(c1, ys[..n]));
      assert (xs + ys)[..|xs + ys| - 1] == xs + ys[..n];
    }
  }

  lemma LeadsOne(c: State, x: Action)
    requires Enabled(c, x)
    ensures Leads(c, [x], Step(c, x))
  {
    assert [x][..0] == [];
    assert Runs(c, []) && After(c, []) == c;
  }

  /** What the token can do by itself the latch can do. */
  lemma {:induction false} LiftToken(c: State, as': seq<PauseToken.Action>, k: Token) returns (xs: seq<Action>)
    requires PauseProgress.Leads(c.token, as', k) && PauseProgress.Calm(as') && c.owed == {}
    ensures Leads(c, xs, c.(token := k)) && forall i :: 0 <= i < |xs| ==> xs[i].TokenStep?
    decreases |as'|
  {
    hide PauseToken.Step, PauseToken.Enabled;
    if as' == [] {
      xs := [];
      assert Runs(c, []) && After(c, []) == c;
    } else {
      var n := |as'| - 1;
      var k1 := PauseToken.After(c.token, as'[..n]);
      xs := LiftToken(c, as'[..n], k1);
      var c1, x := c.(token := k1), TokenStep(as'[n]);
      LeadsOne(c1, x);
      hide PauseProgress.Leads, Leads;
      LeadsJoin(c, xs, c1, [x], Step(c1, x));
      xs := xs + [x];
    }
  }

  /** Waiting, asleep or not. */
  predicate Waits(p: PauseToken.Pc) {
    p == PauseToken.PushLoad || p.PushCas? || p == PauseToken.Parked || p == PauseToken.Posted
  }

  lemma OpenAt(s: State, g: PauseToken.View, t: nat) returns (xs: seq<Action>, s': State)
    requires Inv(s, g) && s.token.word == Flag && t < |s.token.pc| && Waits(s.token.pc[t])
    ensures Leads(s, xs, s') && (forall i :: 0 <= i < |xs| ==> xs[i].TokenStep?)
    ensures t < |s'.token.pc| && s'.token.pc[t] == PauseToken.Idle
  {
    assert s.owed == {};
    hide PauseToken.Inv, PauseProgress.Leads, PauseProgress.Calm, Leads;
    var as', k := PauseProgress.LetsThrough(s.token, g, t);
    xs := LiftToken(s, as', k);
    s' := s.(token := k);
  }

  lemma DueAt(s: State, g: PauseToken.View, t: nat) returns (xs: seq<Action>, s': State)
    requires Inv(s, g) && s.count <= 0 && t < |s.token.pc| && Waits(s.token.pc[t])
    ensures Leads(s, xs, s') && (forall i :: 0 <= i < |xs| ==> xs[i].TokenStep?)
    ensures t < |s'.token.pc| && s'.token.pc[t] == PauseToken.Idle
  {
    if s.token.word == Flag {
      xs, s' := OpenAt(s, g, t);
    } else {
      var w :| s.owed == {w};
      var x := TokenStep(PauseToken.Unpause(w));
      TokenSizes(s, g);
      OwedUnpauses(s, w, t);
      LeadsOne(s, x);
      var s1 := Step(s, x);
      var g1 := StepKeeps(s, g, x);
      hide Inv, Leads, Step, Enabled;
      xs, s' := OpenAt(s1, g1, t);
      LeadsJoin(s, [x], s1, xs, s');
      xs := [x] + xs;
    }
  }

  lemma TokenSizes(s: State, g: PauseToken.View)
    requires Inv(s, g)
    ensures |s.token.pc| == |s.token.next|
  {
  }

  /** The call that is owed opens the token and moves nobody who waits. */
  lemma OwedUnpauses(s: State, w: nat, t: nat)
    requires Staged(s) && s.owed == {w} && |s.token.pc| == |s.token.next|
    requires t < |s.token.pc| && Waits(s.token.pc[t])
    ensures Enabled(s, TokenStep(PauseToken.Unpause(w)))
    ensures var s' := Step(s, TokenStep(PauseToken.Unpause(w)));
      s'.token.word == Flag && t < |s'.token.pc| && s'.token.pc[t] == s.token.pc[t]
  {
    assert w in s.owed;
  }

  /** Everybody passes: from every reachable state in which the amounts counted down have reached the initial amount, and
      for every coroutine that waits, there is a way to go on, with nobody counting down any more, after which it is past
      the latch. */
  lemma {:induction false} EverybodyPasses(s: State, acts: seq<Action>, t: nat) returns (xs: seq<Action>, s': State)
    requires Init(s) && Runs(s, acts) && Latch.Sum(Amounts(acts)) >= s.count
    requires t < |After(s, acts).token.pc| && Waits(After(s, acts).token.pc[t])
    ensures Leads(After(s, acts), xs, s') && (forall i :: 0 <= i < |xs| ==> xs[i].TokenStep?)
    ensures t < |s'.token.pc| && s'.token.pc[t] == PauseToken.Idle
  {
    var g := RunKeeps(s, acts);
    hide Runs, After, Amounts, Inv, Leads, Latch.Sum;
    xs, s' := DueAt(After(s, acts), g, t);
  }

  /** And before that, whoever waits on the latch goes to sleep, by his own steps. */
  lemma {:induction false} ClosedPutsToSleep(s: State, acts: seq<Action>, t: nat) returns (xs: seq<Action>, s': State)
    requires Init(s) && Runs(s, acts) && Latch.Sum(Amounts(acts)) < s.count
    requires t < |After(s, acts).token.pc|
    requires var p := After(s, acts).token.pc[t]; p == PauseToken.Idle || p == PauseToken.PushLoad || p.PushCas?
    ensures Leads(After(s, acts), xs, s') && s'.token.pc == After(s, acts).token.pc[t := PauseToken.Parked]
  {
    var g := RunKeeps(s, acts);
    hide Runs, After, Amounts, Leads, Latch.Sum;
    xs, s' := SleepAt(After(s, acts), g, t);
  }

  lemma SleepAt(c: State, g: PauseToken.View, t: nat) returns (xs: seq<Action>, s': State)
    requires Inv(c, g) && c.count > 0 && t < |c.token.pc|
    requires c.token.pc[t] == PauseToken.Idle || c.token.pc[t] == PauseToken.PushLoad || c.token.pc[t].PushCas?
    ensures Leads(c, xs, s') && s'.token.pc == c.token.pc[t := PauseToken.Parked]
  {
    PauseProgress.InsideAwait(c.token, g, t);
    hide PauseToken.Inv, PauseProgress.Leads, PauseProgress.Calm, Leads;
    var as', k := PauseProgress.AwaitEnds(c.token, t);
    var bs := (if c.token.pc[t] == PauseToken.Idle then [PauseToken.AwaitReady(t)] else []) + as';
    assert PauseProgress.Calm(bs) by { CalmAwait(c.token.pc[t] == PauseToken.Idle, t, as'); }
    xs := LiftToken(c, bs, k);
    s' := c.(token := k);
  }

  lemma CalmAwait(first: bool, t: nat, as': seq<PauseToken.Action>)
    requires PauseProgress.Calm(as')
    ensures PauseProgress.Calm((if first then [PauseToken.AwaitReady(t)] else []) + as')
  {
  }
}
