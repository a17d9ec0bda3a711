/** The barrier as it is meant to be used: no more participants than are expected, nobody comes back after he has
    dropped out, and not everybody drops out. */
module BarrierRules {
  import opened Lists
  import opened Barrier

  // ---------------------------------------------------------------------------------------------
  // Counting participants

  ghost function Announcing(slots: seq<Slot>): set<nat> { set t: nat | t < |slots| && Announced(slots[t]) }

  ghost function Logged(log: seq<Arrival>, lo: nat, hi: nat): set<nat>
    requires hi <= |log|
  {
    set i: nat | lo <= i < hi :: log[i].id
  }

  ghost function Dropping(log: seq<Arrival>, hi: nat): set<nat>
    requires hi <= |log|
  {
    set i: nat | i < hi && log[i].drop :: log[i].id
  }

  lemma {:induction false} AnnouncingSize(slots: seq<Slot>)
    ensures |Announcing(slots)| == Count(slots, Announced)
  {
    if slots != [] {
      var n := |slots| - 1;
      AnnouncingSize(slots[..n]);
      assert Announcing(slots) == Announcing(slots[..n]) + if Announced(slots[n]) then {n} else {};
    }
  }

  lemma {:induction false} LoggedSize(log: seq<Arrival>, lo: nat, hi: nat)
    requires lo <= hi <= |log| && forall i, j :: lo <= i < j < hi ==> log[i].id != log[j].id
    ensures |Logged(log, lo, hi)| == hi - lo
    decreases hi
  {
    if lo < hi {
      LoggedSize(log, lo, hi - 1);
      assert Logged(log, lo, hi) == Logged(log, lo, hi - 1) + {log[hi - 1].id};
    }
  }

  lemma {:induction false} DroppingSize(log: seq<Arrival>, hi: nat)
    requires hi <= |log| && forall i, j :: 0 <= i < j < hi && log[i].drop ==> log[i].id != log[j].id
    ensures |Dropping(log, hi)| == Drops(log, 0, hi)
    decreases hi
  {
    if hi > 0 {
      DroppingSize(log, hi - 1);
      assert Dropping(log, hi) == Dropping(log, hi - 1) + if log[hi - 1].drop then {log[hi - 1].id} else {};
    }
  }

  // ---------------------------------------------------------------------------------------------
  // Participants who keep the rules

  /** `gone` are the participants who have announced that they drop out; each of them is pushed once more, as a drop,
      and never again. */
  ghost predicate Lawful(s: State, g: View, gone: set<nat>) {
    && (forall t :: t in gone ==> t < |s.slots|)
    && (forall t :: 0 <= t < |s.slots| && s.slots[t] != Free ==> (s.slots[t].drop <==> t in gone))
    && (forall i :: 0 <= i < |g.log| && g.log[i].drop ==> g.log[i].id in gone && !Announced(s.slots[g.log[i].id]))
    && (forall i, j :: 0 <= i < j < |g.log| && g.log[i].drop ==> g.log[i].id != g.log[j].id)
  }

  ghost function GoneBy(gone: set<nat>, a: Action): set<nat> { if a.Arrive? && a.drop then gone + {a.t} else gone }

  lemma LawfulStep(s: State, g: View, gone: set<nat>, a: Action, g': View)
    requires Enabled(s, a) && Lawful(s, g, gone) && (a.Arrive? ==> a.t !in gone)
    requires g'.log == g.log + PushOf(s, a) && !Step(s, a).crashed
    ensures Lawful(Step(s, a), g', GoneBy(gone, a))
  {
    var s' := Step(s, a);
    if a.Work? {
      assert |s'.slots| == |s.slots|;
      assert forall t :: 0 <= t < |s.slots| ==> s'.slots[t] == s.slots[t] || s'.slots[t] == Free;
      assert g'.log == g.log;
    } else {
      assert forall t :: 0 <= t < |s.slots| && t != a.t ==> s'.slots[t] == s.slots[t];
      hide Step;
      assert forall i :: 0 <= i < |g.log| ==> g'.log[i] == g.log[i];
    }
  }

  lemma Apart(s: State, g: View, gone: set<nat>, lo: nat)
    requires Lawful(s, g, gone) && Matched(s.slots, g) && lo <= |g.log| == |g.resumed|
    requires forall i :: lo <= i < |g.log| ==> !g.resumed[i]
    ensures Announcing(s.slots) !! Logged(g.log, lo, |g.log|)
    ensures Announcing(s.slots) !! Dropping(g.log, lo) && Logged(g.log, lo, |g.log|) !! Dropping(g.log, lo)
    ensures forall t :: t in Announcing(s.slots) + Logged(g.log, lo, |g.log|) + Dropping(g.log, lo) ==> t < |s.slots|
    ensures forall i, j :: lo <= i < j < |g.log| ==> g.log[i].id != g.log[j].id
  {
    assert forall i :: lo <= i < |g.log| ==> Alive(g, i);
  }

  /** Whoever is announced, or logged and not resumed, or has dropped out, is another participant each time. */
  lemma Crowd(s: State, g: View, gone: set<nat>, lo: nat)
    requires Lawful(s, g, gone) && Matched(s.slots, g) && lo <= |g.log| == |g.resumed|
    requires forall i :: lo <= i < |g.log| ==> !g.resumed[i]
    ensures Count(s.slots, Announced) + |g.log| - lo + Drops(g.log, 0, lo) <= |s.slots|
  {
    Apart(s, g, gone, lo);
    AnnouncingSize(s.slots);
    LoggedSize(g.log, lo, |g.log|);
    DroppingSize(g.log, lo);
    hide Count, Drops, Lawful, Matched, Announcing, Logged, Dropping;
    Pigeonhole(Announcing(s.slots) + Logged(g.log, lo, |g.log|) + Dropping(g.log, lo), |s.slots|);
  }

  /** Somebody stays. */
  predicate Stays(gone: set<nat>, slots: nat, initial: int) {
    slots < initial || (slots == initial && exists r: nat :: r < slots && r !in gone)
  }

  lemma StillExpected(s: State, g: View, gone: set<nat>)
    requires Inv(s, g) && Lawful(s, g, gone) && Stays(gone, |s.slots|, g.initial)
    ensures s.expected >= 1
  {
    var hi := Settled(s, g);
    hide Inv;
    SettledLaw(s, g);
    DroppingSize(g.log, hi);
    if r: nat :| r < |s.slots| && r !in gone {
      Pigeonhole2(Dropping(g.log, hi), |s.slots|, r);
    }
    Pigeonhole(Dropping(g.log, hi), |s.slots|);
  }

  lemma SettledLaw(s: State, g: View)
    requires Inv(s, g)
    ensures Settled(s, g) <= |g.log| && s.expected == g.initial - Drops(g.log, 0, Settled(s, g))
  {
    hide Shape, Drops;
  }

  lemma Pigeonhole2(x: set<nat>, n: nat, r: nat)
    requires r < n && r !in x && forall t :: t in x ==> t < n
    ensures |x| < n
  {
    Pigeonhole(x + {r}, n);
  }

  /** A completer that is about to refill the counter finds it at zero: everybody else waits in his window. */
  lemma RefillsAtZero(s: State, g: View, gone: set<nat>, c: nat)
    requires Inv(s, g) && Lawful(s, g, gone) && Stays(gone, |s.slots|, g.initial)
    requires c < |s.comps| && s.comps[c].Refill?
    ensures s.count == 0
  {
    StillExpected(s, g, gone);
    LastWindow(s, g, c);
    var w := g.wins[c];
    Crowd(s, g, gone, w.lo);
    hide Inv, Lawful, Matched, Drops, Count;
    DropsBound(g.log, w.lo, w.hi);
  }

  lemma LastWindow(s: State, g: View, c: nat)
    requires Inv(s, g) && c < |s.comps| && s.comps[c].Refill? && s.expected >= 1
    ensures c == |g.wins| - 1 && g.wins[c].lo < g.wins[c].hi <= |g.log| == |g.resumed| && Matched(s.slots, g)
    ensures forall i :: g.wins[c].lo <= i < |g.log| ==> !g.resumed[i]
    ensures g.wins[c].hi - g.wins[c].lo == Width(g.initial - Drops(g.log, 0, g.wins[c].lo))
    ensures s.expected == g.initial - Drops(g.log, 0, g.wins[c].hi)
    ensures Count(s.slots, Announced) + |g.log| - g.wins[c].hi == -s.count
  {
    hide Matched, Linked, Drops, Count, Debt;
    assert c == |s.comps| - 1;
    OwnsWindow(s, g, c);
    assert WindowOk(g, g.wins[c]) && WindowSize(g, g.wins[c]);
    assert LastComp(s) == s.comps[c];
    NoDebtNow(s, g);
  }

  lemma NoDebtNow(s: State, g: View)
    requires Inv(s, g) && s.expected >= 1 && Settled(s, g) == Tail(g.wins)
    ensures Debt(g.initial, g.log, g.wins) == 0
  {
    hide Matched, Linked, CompsOk, Drops, Debt, Count;
    forall k | 0 <= k < |g.wins| ensures g.wins[k].lo <= Tail(g.wins) {
      BeforeTail(g, k);
      assert WindowOk(g, g.wins[k]);
    }
    NoDebt(g.initial, g.log, g.wins, Tail(g.wins));
  }

  /** Nobody goes round again. */
  predicate Calm(s: State) {
    forall k :: 0 <= k < |s.comps| && s.comps[k].Resume? ==> s.comps[k].before == 0 && s.comps[k].used >= 1
  }

  lemma CalmStep(s: State, a: Action)
    requires Enabled(s, a) && Calm(s) && s.expected >= 1
    requires a.Work? && s.comps[a.c].Refill? ==> s.count == 0
    ensures Calm(Step(s, a)) && Good(s, a)
  {
    hide Live;
  }

  // ---------------------------------------------------------------------------------------------
  // Whole runs

  /** Everybody who has announced that he drops out. */
  ghost function Gone(acts: seq<Action>): set<nat> {
    if acts == [] then {} else GoneBy(Gone(acts[..|acts| - 1]), acts[|acts| - 1])
  }

  /** Nobody comes back after he has dropped out. */
  ghost predicate NobodyReturns(acts: seq<Action>) {
    acts == []
    || (NobodyReturns(acts[..|acts| - 1])
        && (acts[|acts| - 1].Arrive? ==> acts[|acts| - 1].t !in Gone(acts[..|acts| - 1])))
  }

  lemma LawfulInit(s: State, g: View)
    requires Init(s) && g.log == []
    ensures Lawful(s, g, {}) && Calm(s)
  {
  }

  lemma StaysBefore(gone: set<nat>, a: Action, slots: nat, initial: int)
    requires Stays(GoneBy(gone, a), slots, initial)
    ensures Stays(gone, slots, initial)
  {
  }

  lemma {:induction false} RulesKeep(s: State, acts: seq<Action>) returns (g: View)
    requires Init(s) && Runs(s, acts) && NobodyReturns(acts) && Stays(Gone(acts), |s.slots|, s.expected)
    ensures AllGood(s, acts) && |After(s, acts).slots| == |s.slots|
    ensures Inv(After(s, acts), g) && Lawful(After(s, acts), g, Gone(acts)) && Calm(After(s, acts))
    ensures g.initial == s.expected
    decreases |acts|
  {
    hide Step, Enabled, Inv, Good, PushOf, Detaches, Lawful, Stays, GoneBy, Calm;
    if acts == [] {
      g := InitView(s);
      LawfulInit(s, g);
    } else {
      var n := |acts| - 1;
      StaysBefore(Gone(acts[..n]), acts[n], |s.slots|, s.expected);
      var g0 := RulesKeep(s, acts[..n]);
      g := RuleStep(After(s, acts[..n]), g0, Gone(acts[..n]), acts[n]);
    }
  }

  lemma RuleStep(s: State, g: View, gone: set<nat>, a: Action) returns (g': View)
    requires Enabled(s, a) && Inv(s, g) && Lawful(s, g, gone) && Calm(s) && (a.Arrive? ==> a.t !in gone)
    requires Stays(gone, |s.slots|, g.initial)
    ensures Good(s, a) && Inv(Step(s, a), g') && Lawful(Step(s, a), g', GoneBy(gone, a)) && Calm(Step(s, a))
    ensures g'.initial == g.initial && |Step(s, a).slots| == |s.slots|
  {
    hide Step, Inv, Lawful, Stays, GoneBy, Calm, Good, PushOf, Detaches;
    StillExpected(s, g, gone);
    if a.Work? && s.comps[a.c].Refill? { RefillsAtZero(s, g, gone, a.c); }
    CalmStep(s, a);
    g' := StepKeeps(s, g, a);
    NotCrashed(Step(s, a), g');
    LawfulStep(s, g, gone, a, g');
    SameSlots(s, a);
  }

  lemma NotCrashed(s: State, g: View)
    requires Inv(s, g)
    ensures !s.crashed
  {
  }

  lemma SameSlots(s: State, a: Action)
    requires Enabled(s, a)
    ensures |Step(s, a).slots| == |s.slots|
  {
  }

  /** With no more participants than are expected, of whom nobody comes back after he has dropped out and somebody
      stays, every run is good, however the drops race with the completers: the phase always has the owner it should
      have, a completer refills the counter from zero, and somebody is always expected, so that aquire_window() never
      spins in vain. */
  lemma {:induction false} RulesAreGood(s: State, acts: seq<Action>)
    requires Init(s) && Runs(s, acts) && NobodyReturns(acts) && Stays(Gone(acts), |s.slots|, s.expected)
    ensures AllGood(s, acts) && AlwaysSound(s, acts) && After(s, acts).expected >= 1
    ensures forall k :: 0 <= k < |After(s, acts).comps| && After(s, acts).comps[k].Refill? ==> After(s, acts).count == 0
  {
    var g := RulesKeep(s, acts);
    var c := After(s, acts);
    SoundIffGood(s, acts);
    hide Runs, After, AllGood, AlwaysSound, Inv, Lawful, Stays, Gone, NobodyReturns;
    StillExpected(c, g, Gone(acts));
    forall k | 0 <= k < |c.comps| && c.comps[k].Refill? ensures c.count == 0 {
      RefillsAtZero(c, g, Gone(acts), k);
    }
  }
}
