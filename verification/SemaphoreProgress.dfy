/** What the operations of the binary semaphore achieve: co_await returns with the permit and only with it, release()
    comes to an end, and everybody who waits gets his turn. */
module SemaphoreProgress {
  import opened Lists
  import opened BinarySemaphore

  // ---------------------------------------------------------------------------------------------
  // Getting out of co_await

  /** Inside co_await, asleep or not. */
  predicate Waits(p: Pc) { p == SuspendLoad || p.SuspendCas? || p == Parked || p == Granted }

  /** A coroutine that has begun co_await leaves it only with the permit, whoever takes a step; and try_aquire() takes
      the permit exactly if the semaphore is free. */
  lemma LeavesWithPermit(s: State, a: Action, u: nat)
    requires Enabled(s, a) && u < |s.pc| && (Waits(s.pc[u]) || a == AwaitReady(u))
    ensures |Step(s, a).pc| == |s.pc| && (Waits(Step(s, a).pc[u]) || Step(s, a).pc[u] == Owner)
    ensures a == AwaitReady(u) ==> (Step(s, a).pc[u] == Owner <==> s.word == Zero)
  {
  }

  lemma TriesHonestly(s: State, t: nat)
    requires Enabled(s, TryAcquire(t))
    ensures var s' := Step(s, TryAcquire(t));
      if s.word == Zero then s'.pc[t] == Owner && s'.word != Zero else s' == s
  {
    assert s.pc == s.pc[t := Idle];
  }

  // ---------------------------------------------------------------------------------------------
  // Going on from a state

  /** The steps `xs` lead from `c` to `c'`. */
  ghost predicate Leads(c: State, xs: seq<Action>, c': State) { Runs(c, xs) && After(c, xs) == c' }

  /** And they are all coroutine `t`'s own. */
  ghost predicate LeadsBy(c: State, xs: seq<Action>, c': State, t: nat) {
    Leads(c, xs, c') && forall i :: 0 <= i < |xs| ==> xs[i].t == t
  }

  lemma {:induction false} LeadsJoin(c: State, xs: seq<Action>, c1: State, ys: seq<Action>, c2: State)
    requires Leads(c, xs, c1) && Leads(c1, ys, c2)
    ensures Leads(c, xs + ys, c2)
    decreases |ys|
  {
    hide Step, Enabled;
    if ys == [] {
      assert xs + ys == xs;
    } else {
      var n := |ys| - 1;
      LeadsJoin(c, xs, c1, ys[..n], After(c1, ys[..n]));
      assert (xs + ys)[..|xs + ys| - 1] == xs + ys[..n];
    }
  }

  lemma ByNothing(c: State, t: nat)
    ensures LeadsBy(c, [], c, t)
  {
  }

  lemma ByOne(c: State, a: Action)
    requires Enabled(c, a)
    ensures LeadsBy(c, [a], Step(c, a), a.t)
  {
    assert [a][..0] == [];
    assert Runs(c, []) && After(c, []) == c;
  }

  lemma ByJoin(c: State, xs: seq<Action>, c1: State, ys: seq<Action>, c2: State, t: nat)
    requires LeadsBy(c, xs, c1, t) && LeadsBy(c1, ys, c2, t)
    ensures LeadsBy(c, xs + ys, c2, t)
  {
    LeadsJoin(c, xs, c1, ys, c2);
  }

  // ---------------------------------------------------------------------------------------------
  // co_await

  lemma Sizes(c: State, g: View)
    requires Inv(c, g)
    ensures |c.pc| == |c.next| && (c.word == Zero <==> g.lock.holder == Nobody)
  {
    hide Sleepers, Exclusive;
  }

  /** Where a coroutine inside co_await gets. */
  ghost predicate Served(c: State, g: View, t: nat, c': State, g': View) {
    && Inv(c', g') && t < |c.pc| && c'.pc == c.pc[t := if c.word == Zero then Owner else Parked]
    && c'.word == (if c.word == Zero then Flag else Node(t))
    && g'.lock == if c.word == Zero then g.lock.(holder := Holder(t)) else g.lock.(pushed := g.lock.pushed + [t])
  }

  lemma ServedLater(c: State, g: View, t: nat, c1: State, g1: View, c2: State, g2: View)
    requires Served(c1, g1, t, c2, g2) && t < |c.pc| == |c1.pc| && c1.pc == c.pc[t := c1.pc[t]] && c1.word == c.word
    requires g1.lock == g.lock
    ensures Served(c, g, t, c2, g2)
  {
    hide Inv;
  }

  /** The compare-exchange against what the word is. */
  lemma CasNow(c: State, g: View, t: nat) returns (c': State, g': View)
    requires Inv(c, g) && t < |c.pc| && c.pc[t] == SuspendCas(c.word)
    ensures LeadsBy(c, [Cas(t, false)], c', t) && Served(c, g, t, c', g')
  {
    Sizes(c, g);
    ByOne(c, Cas(t, false));
    c' := Step(c, Cas(t, false));
    hide Inv, LeadsBy, Step;
    g' := AwaitTurn(c, g, t, Cas(t, false));
  }

  lemma CasEnds(c: State, g: View, t: nat) returns (xs: seq<Action>, c': State, g': View)
    requires Inv(c, g) && t < |c.pc| && c.pc[t].SuspendCas?
    ensures LeadsBy(c, xs, c', t) && Served(c, g, t, c', g')
  {
    if c.pc[t].previous == c.word {
      xs := [Cas(t, false)];
      c', g' := CasNow(c, g, t);
    } else {
      xs, c', g' := OneMore(c, g, t, Cas(t, false));
    }
  }

  /** A step that has read the word again, and the compare-exchange. */
  lemma OneMore(c: State, g: View, t: nat, a: Action) returns (xs: seq<Action>, c': State, g': View)
    requires Inv(c, g) && t < |c.pc|
    requires (c.pc[t] == SuspendLoad && a == Load(t))
             || (c.pc[t].SuspendCas? && a == Cas(t, false) && c.pc[t].previous != c.word)
    ensures LeadsBy(c, xs, c', t) && Served(c, g, t, c', g')
  {
    Sizes(c, g);
    ByOne(c, a);
    var c1 := Step(c, a);
    hide Inv, LeadsBy, Step, Served;
    var g1 := AwaitTurn(c, g, t, a);
    c', g' := CasNow(c1, g1, t);
    ByJoin(c, [a], c1, [Cas(t, false)], c', t);
    xs := [a] + [Cas(t, false)];
    ServedLater(c, g, t, c1, g1, c', g');
  }

  /** By its own steps a coroutine takes a free semaphore, and goes to sleep at the end of the queue of one that is
      taken. */
  lemma AwaitEnds(c: State, g: View, t: nat) returns (xs: seq<Action>, c': State, g': View)
    requires Inv(c, g) && t < |c.pc| && (c.pc[t] == SuspendLoad || c.pc[t].SuspendCas?)
    ensures LeadsBy(c, xs, c', t) && Served(c, g, t, c', g')
  {
    if c.pc[t] == SuspendLoad {
      xs, c', g' := OneMore(c, g, t, Load(t));
    } else {
      xs, c', g' := CasEnds(c, g, t);
    }
  }

  lemma AwaitBegins(c: State, g: View, t: nat) returns (xs: seq<Action>, c': State, g': View)
    requires Inv(c, g) && t < |c.pc| && c.pc[t] == Idle
    ensures LeadsBy(c, [AwaitReady(t)] + xs, c', t) && Served(c, g, t, c', g')
  {
    Sizes(c, g);
    ByOne(c, AwaitReady(t));
    var c1 := Step(c, AwaitReady(t));
    hide Inv, LeadsBy, Step;
    var g1 := AwaitTurn(c, g, t, AwaitReady(t));
    xs, c', g' := [], c1, g1;
    assert [AwaitReady(t)] + [] == [AwaitReady(t)];
    if c.word != Zero {
      hide Served;
      xs, c', g' := AwaitEnds(c1, g1, t);
      ByJoin(c, [AwaitReady(t)], c1, xs, c', t);
      ServedLater(c, g, t, c1, g1, c', g');
    }
  }

  lemma AwaitTurn(c: State, g: View, t: nat, a: Action) returns (g1: View)
    requires Inv(c, g) && Enabled(c, a) && (a == AwaitReady(t) || a == Load(t) || a == Cas(t, false))
    ensures var c1 := Step(c, a);
      && Inv(c1, g1) && |c1.pc| == |c.pc| && c1.pc == c.pc[t := c1.pc[t]]
      && (a.Load? || (a.AwaitReady? && c.word != Zero) || (a.Cas? && c.pc[t].previous != c.word) ==>
            g1.lock == g.lock && c1.word == c.word
            && c1.pc[t] == if a.AwaitReady? then SuspendLoad else SuspendCas(c.word))
      && ((a.AwaitReady? && c.word == Zero) || (a.Cas? && c.pc[t].previous == c.word == Zero) ==>
            c1.pc[t] == Owner && c1.word == Flag && g1.lock == g.lock.(holder := Holder(t)))
      && (a.Cas? && c.pc[t].previous == c.word != Zero ==>
            c1.pc[t] == Parked && c1.word == Node(t) && g1.lock == g.lock.(pushed := g.lock.pushed + [t]))
  {
    AwaitStep(c, t, a);
    hide Inv, Step, Enabled, EventOf;
    g1 := StepRefines(c, g, a);
  }

  lemma AwaitStep(c: State, t: nat, a: Action)
    requires Enabled(c, a) && (a == AwaitReady(t) || a == Load(t) || a == Cas(t, false))
    ensures var c1 := Step(c, a);
      && c1.pc == c.pc[t := c1.pc[t]]
      && (a.Cas? && c.pc[t].previous == c.word ==>
            EventOf(c, a) == if c.word == Zero then Take(t) else Join(t))
      && (a.Cas? && c.pc[t].previous == c.word ==> c1.pc[t] == if c.word == Zero then Owner else Parked)
      && (a.Cas? && c.pc[t].previous == c.word ==> c1.word == if c.word == Zero then Flag else Node(t))
      && (a.Cas? && c.pc[t].previous != c.word ==>
            EventOf(c, a) == Silent && c1.pc[t] == SuspendCas(c.word) && c1.word == c.word)
      && (a.Load? ==> EventOf(c, a) == Silent && c1.pc[t] == SuspendCas(c.word) && c1.word == c.word)
      && (a.AwaitReady? && c.word == Zero ==> EventOf(c, a) == Take(t) && c1.pc[t] == Owner && c1.word == Flag)
      && (a.AwaitReady? && c.word != Zero ==>
            EventOf(c, a) == Silent && c1.pc[t] == SuspendLoad && c1.word == c.word)
  {
  }

  // ---------------------------------------------------------------------------------------------
  // release()

  predicate Releases(p: Pc) { p == Owner || p == ReleaseCas || p == ReleaseSwap || p.Reversing? || p.Handing? }

  function Waiting(l: FifoLock): nat { if l.granted <= |l.pushed| then |l.pushed| - l.granted else 0 }

  /** release() has handed the permit to the coroutine that has waited longest, or freed the semaphore. */
  ghost predicate Released(c: State, g: View, h: nat, c': State, g': View) {
    && Inv(c', g') && h < |c.pc| && g.lock.granted <= |g.lock.pushed|
    && (Waiting(g.lock) == 0 ==>
          c'.word == Zero && c'.pc == c.pc[h := Idle] && g'.lock == g.lock.(holder := Nobody))
    && (Waiting(g.lock) > 0 ==>
          var n := g.lock.pushed[g.lock.granted];
          && n < |c.pc| && c'.word != Zero && c'.pc == c.pc[h := Idle][n := Granted]
          && g'.lock == g.lock.(holder := Holder(n), granted := g.lock.granted + 1))
  }

  lemma ReleasedLater(c: State, g: View, h: nat, c1: State, g1: View, c2: State, g2: View)
    requires Released(c1, g1, h, c2, g2) && h < |c.pc| == |c1.pc| && c1.pc == c.pc[h := c1.pc[h]] && g1.lock == g.lock
    ensures Released(c, g, h, c2, g2)
  {
    hide Inv;
  }

  /** The holder is the one who releases. */
  lemma HolderReleases(c: State, g: View, h: nat)
    requires Inv(c, g) && h < |c.pc| && Releases(c.pc[h])
    ensures g.lock.holder == Holder(h) && |c.pc| == |c.next| && g.lock.granted <= |g.lock.pushed|
    ensures c.pc[h] == ReleaseCas && c.word != Flag ==> Waiting(g.lock) > 0
    ensures c.pc[h] == ReleaseCas && c.word == Flag ==> Waiting(g.lock) == 0
    ensures c.pc[h].Handing? ==> Waiting(g.lock) > 0
  {
    hide Sleepers;
    assert HasPermit(c.pc[h]);
  }

  /** The step that completes release(). */
  lemma LastRelease(c: State, g: View, h: nat, a: Action) returns (c': State, g': View)
    requires Inv(c, g) && h < |c.pc|
    requires (a == TryUnlock(h) && c.pc[h] == ReleaseCas && c.word == Flag) || (a == Handoff(h) && c.pc[h].Handing?)
    ensures LeadsBy(c, [a], c', h) && Released(c, g, h, c', g')
  {
    HolderReleases(c, g, h);
    ByOne(c, a);
    c' := Step(c, a);
    LastStep(c, g, h, a);
    hide Inv, LeadsBy, Step, Enabled, EventOf;
    g' := StepRefines(c, g, a);
    Sizes(c', g');
  }

  lemma LastStep(c: State, g: View, h: nat, a: Action)
    requires Inv(c, g) && Enabled(c, a) && g.lock.holder == Holder(h)
    requires (a == TryUnlock(h) && c.word == Flag) || (a == Handoff(h) && Waiting(g.lock) > 0)
    ensures a.TryUnlock? ==> EventOf(c, a) == Free && Step(c, a).pc == c.pc[h := Idle] && Step(c, a).word == Zero
    ensures a.Handoff? ==>
      var n := g.lock.pushed[g.lock.granted];
      EventOf(c, a) == Hand && n < |c.pc| && Step(c, a).pc == c.pc[h := Idle][n := Granted]
  {
    if a.Handoff? {
      hide Sleepers, Forward, Backward;
      ForwardPop(c.next, g.lock.pushed, g.lock.granted, g.top, c.pc[h].head);
      AsleepAt(c, g, g.lock.granted);
    }
  }

  /** A step of release() that is not the last. */
  lemma ReleaseTurn(c: State, g: View, h: nat, a: Action) returns (c': State, g': View)
    requires Inv(c, g) && h < |c.pc|
    requires (a == BeginRelease(h) && c.pc[h] == Owner) || (a == TryUnlock(h) && c.pc[h] == ReleaseCas && c.word != Flag)
             || (a == Swap(h) && c.pc[h] == ReleaseSwap) || (a == Reverse(h) && c.pc[h].Reversing?)
    ensures LeadsBy(c, [a], c', h) && Inv(c', g') && g'.lock == g.lock
    ensures g.lock.granted <= g.mid && g'.lock.granted <= g'.mid
    ensures |c'.pc| == |c.pc| && c'.pc == c.pc[h := c'.pc[h]]
    ensures a.BeginRelease? ==> c'.pc[h] == ReleaseCas || c'.pc[h].Handing?
    ensures a.TryUnlock? ==> c'.pc[h] == ReleaseSwap
    ensures a.Swap? ==> c'.pc[h].Reversing?
    ensures a.Reverse? ==> (c'.pc[h].Reversing? && g'.mid == g.mid - 1) || c'.pc[h].Handing?
  {
    HolderReleases(c, g, h);
    ByOne(c, a);
    TurnStep(c, g, h, a);
    c' := Step(c, a);
    hide Sleepers, Exclusive, Linked, LeadsBy, Step, EventOf;
    if a.Reverse? {
      g' := KeepsReverse(c, g, h);
      assert c' == StepReverse(c, h) by { ReverseIs(c, h); }
    } else {
      g' := StepRefines(c, g, a);
    }
  }

  lemma ReverseIs(c: State, h: nat)
    requires Enabled(c, Reverse(h))
    ensures Step(c, Reverse(h)) == StepReverse(c, h)
  {
  }

  lemma TurnStep(c: State, g: View, h: nat, a: Action)
    requires Inv(c, g) && Enabled(c, a) && g.lock.holder == Holder(h)
    requires a == BeginRelease(h) || (a == TryUnlock(h) && c.word != Flag) || a == Swap(h) || a == Reverse(h)
    ensures var c' := Step(c, a);
      && EventOf(c, a) == Silent && |c'.pc| == |c.pc| && c'.pc == c.pc[h := c'.pc[h]]
      && (a.BeginRelease? ==> c'.pc[h] == ReleaseCas || c'.pc[h].Handing?)
      && (a.TryUnlock? ==> c'.pc[h] == ReleaseSwap)
      && (a.Swap? ==> c'.pc[h].Reversing?)
      && (a.Reverse? ==> c'.pc[h].Reversing? || c'.pc[h].Handing?)
  {
    if a.Reverse? { RestSleeps(c, g, h); }
    hide Inv;
  }

  /** What is still to be reversed begins with a sleeper. */
  lemma RestSleeps(c: State, g: View, h: nat)
    requires Inv(c, g) && Enabled(c, Reverse(h)) && g.lock.holder == Holder(h)
    ensures Live(c, c.pc[h].rest) && c.pc[h].rest.id != h
  {
    hide Sleepers, Forward, Backward;
    SleepersDistinct(c, g);
    ReverseChains(c.next, g.lock.pushed, g.lock.granted, g.mid, g.top, c.word, c.pc[h].head, c.pc[h].rest);
    AsleepAt(c, g, g.mid - 1);
  }

  function Stage(p: Pc): nat {
    match p
    case Owner => 4
    case ReleaseCas => 3
    case ReleaseSwap => 2
    case Reversing(_, _) => 1
    case _ => 0
  }

  /** release() comes to an end by the releaser's own steps. */
  lemma {:induction false} ReleaseEnds(c: State, g: View, h: nat) returns (xs: seq<Action>, c': State, g': View)
    requires Inv(c, g) && h < |c.pc| && Releases(c.pc[h])
    ensures xs != [] && LeadsBy(c, xs, c', h) && Released(c, g, h, c', g')
    decreases Stage(c.pc[h]), g.mid
  {
    hide Inv, LeadsBy, Released;
    if c.pc[h].Handing? || (c.pc[h] == ReleaseCas && c.word == Flag) {
      var a := if c.pc[h].Handing? then Handoff(h) else TryUnlock(h);
      xs := [a];
      c', g' := LastRelease(c, g, h, a);
    } else {
      var a := match c.pc[h]
        case Owner => BeginRelease(h)
        case ReleaseCas => TryUnlock(h)
        case ReleaseSwap => Swap(h)
        case _ => Reverse(h);
      var c1, g1 := ReleaseTurn(c, g, h, a);
      xs, c', g' := ReleaseEnds(c1, g1, h);
      ByJoin(c, [a], c1, xs, c', h);
      ReleasedLater(c, g, h, c1, g1, c', g');
      xs := [a] + xs;
    }
  }

  // ---------------------------------------------------------------------------------------------
  // Everybody gets his turn

  /** The holder runs, if he was only granted the permit. */
  lemma HolderRuns(c: State, g: View) returns (h: nat, xs: seq<Action>, c': State, g': View)
    requires Inv(c, g) && g.lock.holder != Nobody
    ensures Leads(c, xs, c') && Inv(c', g') && g'.lock == g.lock && g.lock.holder == Holder(h)
    ensures h < |c.pc| && Releases(c'.pc[h]) && c'.pc == c.pc[h := c'.pc[h]]
    ensures c.pc[h] == Granted ==> c'.pc[h] == Owner
  {
    h := g.lock.holder.t;
    HasIt(c, g);
    if c.pc[h] == Granted {
      ByOne(c, Resume(h));
      hide Inv;
      g' := StepRefines(c, g, Resume(h));
      xs, c' := [Resume(h)], Step(c, Resume(h));
    } else {
      ByNothing(c, h);
      xs, c', g' := [], c, g;
      assert c.pc == c.pc[h := c.pc[h]];
    }
  }

  lemma HasIt(c: State, g: View)
    requires Inv(c, g) && g.lock.holder != Nobody
    ensures g.lock.holder.t < |c.pc| == |c.next| && HasPermit(c.pc[g.lock.holder.t])
  {
    hide Sleepers, Forward, Backward;
  }

  /** Place `i` of the queue gets its turn once those before it have had theirs. */
  lemma {:induction false} TurnComes(c: State, g: View, i: nat) returns (xs: seq<Action>, c': State)
    requires Inv(c, g) && g.lock.granted <= i < |g.lock.pushed|
    ensures Leads(c, xs, c') && g.lock.pushed[i] < |c'.pc| && c'.pc[g.lock.pushed[i]] == Owner
    decreases i - g.lock.granted
  {
    hide Inv, Leads, Enabled, Step;
    Queues(c, g);
    var h, ys, c1, g1 := HolderRuns(c, g);
    var zs, c2, g2 := ReleaseEnds(c1, g1, h);
    LeadsJoin(c, ys, c1, zs, c2);
    NextHolds(c1, g1, h, c2, g2);
    if i == g.lock.granted {
      var h', ws, g';
      h', ws, c', g' := HolderRuns(c2, g2);
      LeadsJoin(c, ys + zs, c2, ws, c');
      xs := ys + zs + ws;
    } else {
      xs, c' := TurnComes(c2, g2, i);
      LeadsJoin(c, ys + zs, c2, xs, c');
      xs := ys + zs + xs;
    }
  }

  lemma Queues(c: State, g: View)
    requires Inv(c, g) && g.lock.granted < |g.lock.pushed|
    ensures g.lock.holder != Nobody
  {
    hide Sleepers, Exclusive, Forward, Backward;
  }

  lemma NextHolds(c: State, g: View, h: nat, c': State, g': View)
    requires Released(c, g, h, c', g') && Waiting(g.lock) > 0
    ensures Inv(c', g') && g.lock.granted < |g.lock.pushed| && g.lock.pushed[g.lock.granted] < |c'.pc|
    ensures g'.lock == g.lock.(holder := Holder(g.lock.pushed[g.lock.granted]), granted := g.lock.granted + 1)
    ensures c'.pc[g.lock.pushed[g.lock.granted]] == Granted
  {
    hide Inv;
  }

  /** A sleeper is in the queue. */
  lemma PlaceOf(c: State, g: View, t: nat) returns (i: nat)
    requires Inv(c, g) && t < |c.pc| && c.pc[t] == Parked
    ensures g.lock.granted <= i < |g.lock.pushed| && g.lock.pushed[i] == t
  {
    hide Linked, Exclusive;
    assert Queued(g.lock.pushed, g.lock.granted, t);
    i :| g.lock.granted <= i < |g.lock.pushed| && g.lock.pushed[i] == t;
  }

  lemma GrantedRuns(c: State, g: View, t: nat)
    requires Inv(c, g) && t < |c.pc| && c.pc[t] == Granted
    ensures Enabled(c, Resume(t)) && Step(c, Resume(t)).pc[t] == Owner
  {
    hide Linked, Sleepers;
  }

  /** Everybody who waits gets the permit: from every reachable state, and for every coroutine inside co_await, there
      is a way to go on after which it runs with the permit. */
  lemma {:induction false} EverybodyGetsIn(s: State, acts: seq<Action>, t: nat) returns (xs: seq<Action>, c': State)
    requires Init(s) && Runs(s, acts) && t < |After(s, acts).pc| && Waits(After(s, acts).pc[t])
    ensures Leads(After(s, acts), xs, c') && t < |c'.pc| && c'.pc[t] == Owner
  {
    var g := RunRefines(s, acts);
    var c := After(s, acts);
    hide Runs, After, Events, LockRuns, LockAfter, Inv, Enabled, Step;
    xs, c' := GetsIn(c, g, t);
  }

  lemma GetsIn(c: State, g: View, t: nat) returns (xs: seq<Action>, c': State)
    requires Inv(c, g) && t < |c.pc| && Waits(c.pc[t])
    ensures Leads(c, xs, c') && t < |c'.pc| && c'.pc[t] == Owner
  {
    hide Inv, Leads, Enabled, Step;
    if c.pc[t] == Granted {
      GrantedRuns(c, g, t);
      ByOne(c, Resume(t));
      xs, c' := [Resume(t)], Step(c, Resume(t));
      assert t < |c'.pc| by { Sizes(c, g); ResumeSize(c, t); }
    } else if c.pc[t] == Parked {
      var i := PlaceOf(c, g, t);
      xs, c' := TurnComes(c, g, i);
    } else {
      var c1, g1;
      xs, c1, g1 := AwaitEnds(c, g, t);
      c' := c1;
      if c.word != Zero {
        var i := PlaceOf(c1, g1, t);
        var ys;
        ys, c' := TurnComes(c1, g1, i);
        LeadsJoin(c, xs, c1, ys, c');
        xs := xs + ys;
      }
    }
  }

  lemma ResumeSize(c: State, t: nat)
    requires Enabled(c, Resume(t))
    ensures |Step(c, Resume(t)).pc| == |c.pc|
  {
  }

  /** A coroutine that waits for a taken semaphore goes to sleep as the youngest of the stack, by its own steps; on a
      free one it gets the permit. */
  lemma {:induction false} AwaitSleepsOrTakes(s: State, acts: seq<Action>, t: nat) returns (xs: seq<Action>, c': State)
    requires Init(s) && Runs(s, acts) && t < |After(s, acts).pc| && After(s, acts).pc[t] == Idle
    ensures var c := After(s, acts);
      && LeadsBy(c, [AwaitReady(t)] + xs, c', t) && c'.pc == c.pc[t := if c.word == Zero then Owner else Parked]
      && c'.word == if c.word == Zero then Flag else Node(t)
  {
    var g := RunRefines(s, acts);
    hide Runs, After, Events, LockRuns, LockAfter, Inv;
    var g';
    xs, c', g' := AwaitBegins(After(s, acts), g, t);
  }

  /** release() ends by its own steps: it wakes the one coroutine that has slept longest with the permit, or unlocks the
      semaphore if everybody who ever went to sleep has been woken; and it changes nobody else. */
  lemma {:induction false} ReleaseHandsOn(s: State, acts: seq<Action>, h: nat) returns (xs: seq<Action>, c': State)
    requires Init(s) && Runs(s, acts) && h < |After(s, acts).pc| && After(s, acts).pc[h] == Owner
    ensures xs != [] && LeadsBy(After(s, acts), xs, c', h) && |AllGrants(s, acts)| <= |AllJoins(s, acts)|
    ensures var c, joins, grants := After(s, acts), AllJoins(s, acts), AllGrants(s, acts);
      if |grants| == |joins| then c'.word == Zero && c'.pc == c.pc[h := Idle]
      else
        var n := joins[|grants|];
        n < |c.pc| && c.pc[n] == Parked && c'.word != Zero && c'.pc == c.pc[h := Idle][n := Granted]
  {
    var g := WokenInOrder(s, acts);
    var c := After(s, acts);
    hide Runs, After, AllJoins, AllGrants, Inv;
    var g';
    xs, c', g' := ReleaseEnds(c, g, h);
    if g.lock.granted < |g.lock.pushed| { AsleepAt(c, g, g.lock.granted); }
  }
}
