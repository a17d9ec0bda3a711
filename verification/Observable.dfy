/** The observable: a broadcast in which every emit keeps one node per observer in its own frame, links it to the
    end of that observer's queue, and sleeps on a latch until every node has been read or given up. */
module Observable {
  import opened Lists

  /** Node `k` of emit `e`: the result for the `k`-th observer that was connected when `e` was emitted. */
  datatype Ref = Ref(e: nat, k: nat)

  datatype Ptr = Null | To(ref: Ref)

  datatype Phase =
    | Appending   // holds the observable's mutex, linking its nodes one by one
    | Arriving    // about to count itself down
    | Waiting     // asleep on the latch
    | Finished    // resumed: the frame with the nodes and the latch is gone

  /** `next` holds the links of the nodes that exist so far; `count` is the latch. */
  datatype Emit = Emit(targets: seq<nat>, next: seq<Ptr>, count: int, phase: Phase)

  datatype Consumer = Free | Suspended | Woken

  /** `Leaving` is the destructor of internal_observer: `counted` says that the latch of `ptr` has been counted down. */
  datatype Link = Connected(result: Ptr) | Leaving(ptr: Ptr, counted: bool) | Gone

  /** `first` numbers the first emit after the connection, `taken` counts the results received. */
  datatype Observer = Observer(link: Link, consumer: Consumer, guards: seq<Ref>, first: nat, taken: nat)

  datatype Mutex = Unlocked | ByEmit(e: nat) | ByLeaver(o: nat)

  /** `crashed` records an access to a node of a finished emit or to a destroyed observer. */
  datatype State = State(emits: seq<Emit>, obs: seq<Observer>, observers: seq<nat>, mutex: Mutex, crashed: bool)

  datatype Action =
    | Connect
    | BeginEmit
    | Append(e: nat)
    | Unlock(e: nat)
    | Arrive(e: nat)
    | Finish(e: nat)
    | ReuseFrame(e: nat, junk: seq<Ptr>)
    | Await(o: nat)
    | Take(o: nat)
    | DropGuard(o: nat, i: nat)
    | BeginLeave(o: nat)
    | LeaveCount(o: nat)
    | LeaveNext(o: nat)
    | EndLeave(o: nat)

  predicate EmitIn(s: State, e: nat, p: Phase) { e < |s.emits| && s.emits[e].phase == p }

  predicate LeavingAt(s: State, o: nat, counted: bool) {
    o < |s.obs| && s.obs[o].link.Leaving? && s.obs[o].link.ptr != Null && s.obs[o].link.counted == counted
  }

  predicate Enabled(s: State, a: Action) {
    match a
    case Connect => s.mutex == Unlocked
    case BeginEmit => s.mutex == Unlocked
    case Append(e) => EmitIn(s, e, Appending) && |s.emits[e].next| < |s.emits[e].targets|
    case Unlock(e) => EmitIn(s, e, Appending) && |s.emits[e].next| >= |s.emits[e].targets|
    case Arrive(e) => EmitIn(s, e, Arriving)
    case Finish(e) => EmitIn(s, e, Waiting) && s.emits[e].count == 0
    case ReuseFrame(e, junk) => EmitIn(s, e, Finished) && |junk| == |s.emits[e].next|
    case Await(o) => o < |s.obs| && s.obs[o].link.Connected? && s.obs[o].consumer == Free
    case Take(o) => o < |s.obs| && s.obs[o].link.Connected? && s.obs[o].consumer == Woken
    case DropGuard(o, i) => o < |s.obs| && i < |s.obs[o].guards|
    // an observer is not destroyed between being woken and running
    case BeginLeave(o) => s.mutex == Unlocked && o < |s.obs| && s.obs[o].link.Connected? && s.obs[o].consumer != Woken
    case LeaveCount(o) => LeavingAt(s, o, false)
    case LeaveNext(o) => LeavingAt(s, o, true)
    case EndLeave(o) => o < |s.obs| && s.obs[o].link == Leaving(Null, false)
  }

  predicate Alive(emits: seq<Emit>, r: Ref) {
    r.e < |emits| && emits[r.e].phase != Finished && r.k < |emits[r.e].next|
  }

  function SetNext(emits: seq<Emit>, r: Ref, p: Ptr): seq<Emit>
    requires r.e < |emits| && r.k < |emits[r.e].next|
  {
    emits[r.e := emits[r.e].(next := emits[r.e].next[r.k := p])]
  }

  function CountDown(emits: seq<Emit>, e: nat): seq<Emit>
    requires e < |emits|
  {
    emits[e := emits[e].(count := emits[e].count - 1)]
  }

  /** emit() walks to the last node of a queue; null stands for a walk that leaves the living nodes. */
  function Tail(emits: seq<Emit>, p: Ptr, fuel: nat): Ptr
    decreases fuel
  {
    if p == Null || !Alive(emits, p.ref) then Null
    else if emits[p.ref.e].next[p.ref.k] == Null then p
    else if fuel == 0 then Null
    else Tail(emits, emits[p.ref.e].next[p.ref.k], fuel - 1)
  }

  /** The body of the loop in emit(), under the observer's lock: a new node at the end of its queue, and a resume
      event if the observer sleeps. */
  function StepAppend(s: State, e: nat): State
    requires EmitIn(s, e, Appending) && |s.emits[e].next| < |s.emits[e].targets|
  {
    var k := |s.emits[e].next|;
    var o := s.emits[e].targets[k];
    var emits := s.emits[e := s.emits[e].(next := s.emits[e].next + [Null])];
    if o >= |s.obs| || !s.obs[o].link.Connected? then s.(crashed := true)
    else
      var ob := s.obs[o];
      var woken := ob.(consumer := if ob.consumer == Suspended then Woken else ob.consumer);
      if ob.link.result == Null then
        s.(emits := emits, obs := s.obs[o := woken.(link := Connected(To(Ref(e, k))))])
      else
        var tail := Tail(s.emits, ob.link.result, |s.emits|);
        if tail == Null then s.(crashed := true)
        else if !(tail.ref.e < |emits| && tail.ref.k < |emits[tail.ref.e].next|) then s.(crashed := true)
        else s.(emits := SetNext(emits, tail.ref, To(Ref(e, k))), obs := s.obs[o := woken])
  }

  function Without(xs: seq<nat>, x: nat): seq<nat> {
    if xs == [] then [] else if xs[0] == x then xs[1..] else [xs[0]] + Without(xs[1..], x)
  }

  function Step(s: State, a: Action): State
    requires Enabled(s, a)
  {
    match a
    case Connect =>
      s.(obs := s.obs + [Observer(Connected(Null), Free, [], |s.emits|, 0)], observers := s.observers + [|s.obs|])
    case BeginEmit =>
      if s.observers == [] then s.(emits := s.emits + [Emit([], [], 0, Finished)])
      else s.(emits := s.emits + [Emit(s.observers, [], |s.observers| + 1, Appending)], mutex := ByEmit(|s.emits|))
    case Append(e) => StepAppend(s, e)
    case Unlock(e) => s.(emits := s.emits[e := s.emits[e].(phase := Arriving)], mutex := Unlocked)
    case Arrive(e) => s.(emits := CountDown(s.emits, e)[e := CountDown(s.emits, e)[e].(phase := Waiting)])
    case Finish(e) => s.(emits := s.emits[e := s.emits[e].(phase := Finished)])
    case ReuseFrame(e, junk) => s.(emits := s.emits[e := s.emits[e].(next := junk)])
    case Await(o) =>
      s.(obs := s.obs[o := s.obs[o].(consumer := if s.obs[o].link.result == Null then Suspended else Woken)])
    case Take(o) =>
      var p := s.obs[o].link.result;
      if p == Null || !Alive(s.emits, p.ref) then s.(crashed := true)
      else s.(obs := s.obs[o := s.obs[o].(link := Connected(s.emits[p.ref.e].next[p.ref.k]), consumer := Free,
                                          guards := s.obs[o].guards + [p.ref], taken := s.obs[o].taken + 1)])
    case DropGuard(o, i) =>
      var r := s.obs[o].guards[i];
      var guards := s.obs[o].guards[..i] + s.obs[o].guards[i + 1..];
      if !Alive(s.emits, r) then s.(crashed := true)
      else s.(emits := CountDown(s.emits, r.e), obs := s.obs[o := s.obs[o].(guards := guards)])
    case BeginLeave(o) =>
      s.(mutex := ByLeaver(o), observers := Without(s.observers, o),
         obs := s.obs[o := s.obs[o].(link := Leaving(s.obs[o].link.result, false))])
    case LeaveCount(o) =>
      var p := s.obs[o].link.ptr;
      if !Alive(s.emits, p.ref) then s.(crashed := true)
      else s.(emits := CountDown(s.emits, p.ref.e), obs := s.obs[o := s.obs[o].(link := Leaving(p, true))])
    case LeaveNext(o) =>
      var p := s.obs[o].link.ptr;
      if !Alive(s.emits, p.ref) then s.(crashed := true)
      else s.(obs := s.obs[o := s.obs[o].(link := Leaving(s.emits[p.ref.e].next[p.ref.k], false))])
    case EndLeave(o) => s.(mutex := Unlocked, obs := s.obs[o := s.obs[o].(link := Gone, consumer := Free)])
  }

  predicate Init(s: State) { s == State([], [], [], Unlocked, false) }

  // ---------------------------------------------------------------------------------------------
  // What the pointers mean

  /** What became of a node: not linked yet, in its observer's queue, in the hands of the observer, or done with. */
  datatype Status = NotYet | Queued | Guarded | Consumed

  predicate Unread(x: Status) { x != Consumed }

  /** The states of all nodes, the queue of every observer, and the emits whose results it has received. */
  datatype View = View(status: seq<seq<Status>>, queues: seq<seq<Ref>>, received: seq<seq<nat>>)

  /** `r` is a node that exists and was made for observer `o`. */
  ghost predicate Mine(emits: seq<Emit>, status: seq<seq<Status>>, r: Ref, o: nat) {
    && r.e < |emits| && r.e < |status| && r.k < |emits[r.e].next| && r.k < |emits[r.e].targets| && r.k < |status[r.e]|
    && emits[r.e].targets[r.k] == o
  }

  ghost predicate Is(emits: seq<Emit>, status: seq<seq<Status>>, r: Ref, o: nat, x: Status) {
    Mine(emits, status, r, o) && status[r.e][r.k] == x
  }

  function PtrAt(q: seq<Ref>, i: nat): Ptr { if i < |q| then To(q[i]) else Null }

  /** The link of `r`, which means something only while its emit is unfinished. */
  ghost predicate NextIs(emits: seq<Emit>, r: Ref, p: Ptr) {
    r.e < |emits| && r.k < |emits[r.e].next| && (emits[r.e].phase != Finished ==> emits[r.e].next[r.k] == p)
  }

  ghost predicate LinkedAt(emits: seq<Emit>, q: seq<Ref>, i: nat) {
    i < |q| && NextIs(emits, q[i], PtrAt(q, i + 1))
  }

  /** `q` is a queue of observer `o`: results of consecutive emits, linked in that order. */
  ghost predicate QueueOk(emits: seq<Emit>, status: seq<seq<Status>>, o: nat, q: seq<Ref>) {
    && (forall i :: 0 <= i < |q| ==> q[i].e == q[0].e + i)
    && (forall i :: 0 <= i < |q| ==> Is(emits, status, q[i], o, Queued))
    && (forall i :: 0 <= i < |q| ==> LinkedAt(emits, q, i))
  }

  ghost predicate Distinct<T>(xs: seq<T>) { forall i, j :: 0 <= i < j < |xs| ==> xs[i] != xs[j] }

  ghost predicate GuardsOk(emits: seq<Emit>, status: seq<seq<Status>>, o: nat, gs: seq<Ref>) {
    && (forall i :: 0 <= i < |gs| ==> Is(emits, status, gs[i], o, Guarded))
    && Distinct(gs)
  }

  /** Where the queue of an observer begins, given how far its destructor has got. */
  ghost predicate HeadOk(emits: seq<Emit>, status: seq<seq<Status>>, o: nat, ob: Observer, q: seq<Ref>) {
    match ob.link
    case Connected(result) => result == PtrAt(q, 0) && (q != [] ==> q[0].e == ob.first + ob.taken)
    case Leaving(ptr, false) => ptr == PtrAt(q, 0)
    case Leaving(ptr, true) =>
      ptr != Null && Is(emits, status, ptr.ref, o, Consumed) && NextIs(emits, ptr.ref, PtrAt(q, 0))
    case Gone => q == []
  }

  ghost predicate ObserverOk(emits: seq<Emit>, status: seq<seq<Status>>, o: nat, ob: Observer, q: seq<Ref>) {
    && QueueOk(emits, status, o, q) && GuardsOk(emits, status, o, ob.guards) && HeadOk(emits, status, o, ob, q)
    && (ob.consumer == Suspended && ob.link.Connected? ==> q == [])
    && (ob.consumer == Woken ==> ob.link.Connected? && q != [])
  }

  /** The latch counts the emitter until it arrives, and every node that is not linked yet, queued or guarded. */
  ghost predicate EmitOk(em: Emit, st: seq<Status>) {
    && |em.next| <= |em.targets| == |st|
    && (forall k :: 0 <= k < |st| ==> (st[k] == NotYet <==> |em.next| <= k))
    && em.count == Count(st, Unread) + (if em.phase == Appending || em.phase == Arriving then 1 else 0)
    && (em.phase != Appending ==> |em.next| == |em.targets|)
    && (em.phase == Finished ==> em.count == 0)
    && Distinct(em.targets)
  }

  ghost predicate Sizes(s: State, g: View) {
    |g.status| == |s.emits| && |g.queues| == |s.obs| == |g.received|
  }

  ghost predicate EmitsOk(s: State, g: View)
    requires Sizes(s, g)
  {
    forall e :: 0 <= e < |s.emits| ==> EmitOk(s.emits[e], g.status[e])
  }

  ghost predicate ObserversOk(s: State, g: View)
    requires Sizes(s, g)
  {
    forall o :: 0 <= o < |s.obs| ==> ObserverOk(s.emits, g.status, o, s.obs[o], g.queues[o])
  }

  /** Who holds the mutex, and the deque it protects: the connected observers, each once. */
  ghost predicate Lock(s: State) {
    && (forall e :: 0 <= e < |s.emits| ==> (s.emits[e].phase == Appending <==> s.mutex == ByEmit(e)))
    && (s.mutex.ByEmit? ==> s.mutex.e == |s.emits| - 1 && s.emits[s.mutex.e].targets == s.observers)
    && (forall o :: 0 <= o < |s.obs| ==> (s.obs[o].link.Leaving? <==> s.mutex == ByLeaver(o)))
    && (s.mutex.ByLeaver? ==> s.mutex.o < |s.obs|)
    && (forall o: nat :: o in s.observers <==> o < |s.obs| && s.obs[o].link.Connected?)
    && Distinct(s.observers)
  }

  /** Observer `o` still waits for its node of `em`. */
  ghost predicate Pending(em: Emit, o: nat) { exists k :: |em.next| <= k < |em.targets| && em.targets[k] == o }

  /** How many emits have reached observer `o`. */
  ghost function Level(s: State, o: nat): nat {
    if s.mutex.ByEmit? && s.mutex.e < |s.emits| && Pending(s.emits[s.mutex.e], o) then s.mutex.e else |s.emits|
  }

  /** Nothing is missing between what a connected observer has received and the last emit. */
  ghost predicate Levels(s: State, g: View)
    requires Sizes(s, g)
  {
    forall o :: 0 <= o < |s.obs| && s.obs[o].link.Connected? ==>
      s.obs[o].first + s.obs[o].taken + |g.queues[o]| == Level(s, o)
  }

  /** A node is for an observer connected before; a queued one is in its queue, a guarded one among its guards. */
  ghost predicate Placed(s: State, g: View, e: nat, k: nat) {
    && e < |s.emits| && e < |g.status| && k < |g.status[e]| && k < |s.emits[e].targets|
    && var o := s.emits[e].targets[k];
    && o < |s.obs| && o < |g.queues| && s.obs[o].first <= e
    && (g.status[e][k] == Queued ==> Ref(e, k) in g.queues[o])
    && (g.status[e][k] == Guarded ==> Ref(e, k) in s.obs[o].guards)
  }

  ghost predicate AllPlaced(s: State, g: View)
    requires Sizes(s, g)
  {
    forall e, k :: 0 <= e < |s.emits| && 0 <= k < |g.status[e]| ==> Placed(s, g, e, k)
  }

  /** Observer `o` has received exactly the emits from number `first` on, in the order of the mutex. */
  ghost predicate InOrder(emits: seq<Emit>, o: nat, ob: Observer, received: seq<nat>) {
    && |received| == ob.taken && ob.first + ob.taken <= |emits|
    && forall j :: 0 <= j < |received| ==> received[j] == ob.first + j && o in emits[received[j]].targets
  }

  ghost predicate History(s: State, g: View)
    requires Sizes(s, g)
  {
    forall o :: 0 <= o < |s.obs| ==> InOrder(s.emits, o, s.obs[o], g.received[o])
  }

  ghost predicate Inv(s: State, g: View) {
    && !s.crashed && Sizes(s, g) && EmitsOk(s, g) && ObserversOk(s, g) && Lock(s) && Levels(s, g) && AllPlaced(s, g)
    && History(s, g)
  }

  ghost function SetStatus(status: seq<seq<Status>>, r: Ref, x: Status): seq<seq<Status>> {
    if r.e < |status| && r.k < |status[r.e]| then status[r.e := status[r.e][r.k := x]] else status
  }

  ghost function ViewStep(s: State, g: View, a: Action): View
    requires Inv(s, g) && Enabled(s, a)
  {
    match a
    case Connect => g.(queues := g.queues + [[]], received := g.received + [[]])
    case BeginEmit => g.(status := g.status + [seq(|s.observers|, _ => NotYet)])
    case Append(e) =>
      var k := |s.emits[e].next|;
      var o := s.emits[e].targets[k];
      if o >= |s.obs| then g
      else View(SetStatus(g.status, Ref(e, k), Queued), g.queues[o := g.queues[o] + [Ref(e, k)]], g.received)
    case Take(o) =>
      if g.queues[o] == [] then g
      else View(SetStatus(g.status, g.queues[o][0], Guarded), g.queues[o := g.queues[o][1..]],
                g.received[o := g.received[o] + [g.queues[o][0].e]])
    case DropGuard(o, i) => g.(status := SetStatus(g.status, s.obs[o].guards[i], Consumed))
    case LeaveCount(o) =>
      if g.queues[o] == [] then g
      else g.(status := SetStatus(g.status, g.queues[o][0], Consumed), queues := g.queues[o := g.queues[o][1..]])
    case _ => g
  }

  // ---------------------------------------------------------------------------------------------
  // Frames

  /** Node `r` is as it was, as far as anybody may look at it. */
  ghost predicate Kept(emits: seq<Emit>, status: seq<seq<Status>>, emits': seq<Emit>, status': seq<seq<Status>>, r: Ref)
  {
    && r.e < |emits| && r.e < |status| && r.k < |emits[r.e].next| && r.k < |emits[r.e].targets| && r.k < |status[r.e]|
    && r.e < |emits'| && r.e < |status'| && r.k < |emits'[r.e].next| && r.k < |emits'[r.e].targets|
    && r.k < |status'[r.e]|
    && emits'[r.e].targets[r.k] == emits[r.e].targets[r.k] && status'[r.e][r.k] == status[r.e][r.k]
    && (emits'[r.e].phase != Finished ==>
          emits[r.e].phase != Finished && emits'[r.e].next[r.k] == emits[r.e].next[r.k])
  }

  lemma ObserverFrame(emits: seq<Emit>, status: seq<seq<Status>>, emits': seq<Emit>, status': seq<seq<Status>>,
                      o: nat, ob: Observer, q: seq<Ref>)
    requires ObserverOk(emits, status, o, ob, q)
    requires forall r :: Mine(emits, status, r, o) ==> Kept(emits, status, emits', status', r)
    ensures ObserverOk(emits', status', o, ob, q)
  {
    QueueFrame(emits, status, emits', status', o, q);
    forall i | 0 <= i < |ob.guards| ensures Is(emits', status', ob.guards[i], o, Guarded) {
      assert Is(emits, status, ob.guards[i], o, Guarded);
    }
    if ob.link.Leaving? && ob.link.counted {
      assert Mine(emits, status, ob.link.ptr.ref, o);
    }
  }

  lemma QueueFrame(emits: seq<Emit>, status: seq<seq<Status>>, emits': seq<Emit>, status': seq<seq<Status>>,
                   o: nat, q: seq<Ref>)
    requires QueueOk(emits, status, o, q)
    requires forall i :: 0 <= i < |q| ==> Kept(emits, status, emits', status', q[i])
    ensures QueueOk(emits', status', o, q)
  {
    forall i | 0 <= i < |q| ensures Is(emits', status', q[i], o, Queued) && LinkedAt(emits', q, i) {
      assert Is(emits, status, q[i], o, Queued) && LinkedAt(emits, q, i);
    }
  }

  /** A node that is not done with belongs to an emit that is still suspended: its count is positive. */
  lemma UnreadIsAlive(em: Emit, st: seq<Status>, k: nat)
    requires EmitOk(em, st) && k < |st| && st[k] != Consumed
    ensures em.phase != Finished && em.count > 0
  {
    assert Unread(st[k]);
    CountPositive(st, Unread);
  }

  /** Nodes outside the emits that change are kept. */
  lemma EmitFrame(s: State, g: View, e: nat, em: Emit, m: Mutex)
    requires Inv(s, g) && e < |s.emits|
    requires em.targets == s.emits[e].targets && |em.next| == |s.emits[e].next|
    requires em.phase != Finished ==> s.emits[e].phase != Finished && em.next == s.emits[e].next
    requires EmitOk(em, g.status[e])
    ensures var s' := s.(emits := s.emits[e := em], mutex := m);
      Sizes(s', g) && EmitsOk(s', g) && ObserversOk(s', g) && AllPlaced(s', g) && History(s', g)
  {
    var s' := s.(emits := s.emits[e := em], mutex := m);
    ObserversKept(s, g, s', g);
    forall e', k | 0 <= e' < |s'.emits| && 0 <= k < |g.status[e']|
      ensures Placed(s', g, e', k)
    {
      assert Placed(s, g, e', k);
    }
    HistoryFrame(s, g, s');
  }

  lemma ObserversKept(s: State, g: View, s': State, g': View)
    requires Sizes(s, g) && Sizes(s', g') && ObserversOk(s, g)
    requires s'.obs == s.obs && g'.queues == g.queues
    requires forall r: Ref, o :: Mine(s.emits, g.status, r, o) ==> Kept(s.emits, g.status, s'.emits, g'.status, r)
    ensures ObserversOk(s', g')
  {
    hide ObserverOk, Kept, Mine;
    forall o | 0 <= o < |s'.obs| ensures ObserverOk(s'.emits, g'.status, o, s'.obs[o], g'.queues[o]) {
      ObserverFrame(s.emits, g.status, s'.emits, g'.status, o, s.obs[o], g.queues[o]);
    }
  }

  lemma HistoryFrame(s: State, g: View, s': State)
    requires Sizes(s, g) && History(s, g) && Sizes(s', g) && |s.emits| == |s'.emits|
    requires forall e :: 0 <= e < |s.emits| ==> s'.emits[e].targets == s.emits[e].targets
    requires forall o :: 0 <= o < |s.obs| ==> s'.obs[o].first == s.obs[o].first && s'.obs[o].taken == s.obs[o].taken
    ensures History(s', g)
  {
    forall o | 0 <= o < |s'.obs| ensures InOrder(s'.emits, o, s'.obs[o], g.received[o]) {
      assert InOrder(s.emits, o, s.obs[o], g.received[o]);
    }
  }

  lemma UnlockKeeps(s: State, g: View, e: nat)
    requires Inv(s, g) && Enabled(s, Unlock(e))
    ensures Inv(Step(s, Unlock(e)), g)
  {
    EmitFrame(s, g, e, s.emits[e].(phase := Arriving), Unlocked);
  }

  /** An emit outside the mutex: everything about the mutex stays as it is. */
  lemma QuietFrame(s: State, g: View, e: nat, em: Emit)
    requires Inv(s, g) && e < |s.emits| && s.emits[e].phase != Appending && em.phase != Appending
    requires em.targets == s.emits[e].targets && |em.next| == |s.emits[e].next|
    requires em.phase != Finished ==> s.emits[e].phase != Finished && em.next == s.emits[e].next
    requires EmitOk(em, g.status[e])
    ensures Inv(s.(emits := s.emits[e := em]), g)
  {
    EmitFrame(s, g, e, em, s.mutex);
    hide EmitOk, ObserverOk, InOrder, Placed, Pending, EmitsOk, ObserversOk, AllPlaced, History;
    var s' := s.(emits := s.emits[e := em]);
    forall o: nat ensures Level(s', o) == Level(s, o) {}
  }

  lemma ArriveKeeps(s: State, g: View, e: nat)
    requires Inv(s, g) && Enabled(s, Arrive(e))
    ensures Inv(Step(s, Arrive(e)), g)
  {
    var em := s.emits[e].(count := s.emits[e].count - 1, phase := Waiting);
    assert EmitOk(em, g.status[e]);
    assert Step(s, Arrive(e)).emits == s.emits[e := em];
    hide Inv, EmitOk;
    QuietFrame(s, g, e, em);
  }

  lemma FinishKeeps(s: State, g: View, e: nat)
    requires Inv(s, g) && Enabled(s, Finish(e))
    ensures Inv(Step(s, Finish(e)), g)
  {
    assert EmitOk(s.emits[e].(phase := Finished), g.status[e]);
    hide Inv, EmitOk;
    QuietFrame(s, g, e, s.emits[e].(phase := Finished));
  }

  lemma ReuseKeeps(s: State, g: View, e: nat, junk: seq<Ptr>)
    requires Inv(s, g) && Enabled(s, ReuseFrame(e, junk))
    ensures Inv(Step(s, ReuseFrame(e, junk)), g)
  {
    assert EmitOk(s.emits[e].(next := junk), g.status[e]);
    hide Inv, EmitOk;
    QuietFrame(s, g, e, s.emits[e].(next := junk));
  }

  // ---------------------------------------------------------------------------------------------
  // Steps that change one observer

  /** A step that changes only observer `o`, and its queue not at all. */
  lemma ObserverStep(s: State, g: View, o: nat, ob: Observer, s': State)
    requires Inv(s, g) && o < |s.obs|
    requires s'.obs == s.obs[o := ob] && s'.emits == s.emits
    requires ob.first == s.obs[o].first && ob.taken == s.obs[o].taken && ob.guards == s.obs[o].guards
    requires HeadOk(s.emits, g.status, o, ob, g.queues[o])
    requires ob.consumer == Suspended && ob.link.Connected? ==> g.queues[o] == []
    requires ob.consumer == Woken ==> ob.link.Connected? && g.queues[o] != []
    ensures Sizes(s', g) && EmitsOk(s', g) && ObserversOk(s', g) && AllPlaced(s', g) && History(s', g)
  {
    hide QueueOk, GuardsOk, HeadOk, Lock, Levels;
    HistoryFrame(s, g, s');
    assert ObserverOk(s.emits, g.status, o, s.obs[o], g.queues[o]);
    forall e', k | 0 <= e' < |s'.emits| && 0 <= k < |g.status[e']|
      ensures Placed(s', g, e', k)
    {
      assert Placed(s, g, e', k);
    }
  }

  lemma AwaitKeeps(s: State, g: View, o: nat)
    requires Inv(s, g) && Enabled(s, Await(o))
    ensures Inv(Step(s, Await(o)), g)
  {
    var ob := s.obs[o].(consumer := if s.obs[o].link.result == Null then Suspended else Woken);
    assert ObserverOk(s.emits, g.status, o, s.obs[o], g.queues[o]);
    ObserverStep(s, g, o, ob, Step(s, Await(o)));
    LockFrame(s, Step(s, Await(o)));
    LevelsFrame(s, g, Step(s, Await(o)));
  }

  lemma LockFrame(s: State, s': State)
    requires Lock(s) && s'.emits == s.emits && s'.mutex == s.mutex && s'.observers == s.observers
    requires |s'.obs| == |s.obs|
    requires forall o :: 0 <= o < |s.obs| ==> (s'.obs[o].link.Leaving? <==> s.obs[o].link.Leaving?)
    requires forall o :: 0 <= o < |s.obs| ==> (s'.obs[o].link.Connected? <==> s.obs[o].link.Connected?)
    ensures Lock(s')
  {
  }

  lemma LevelsFrame(s: State, g: View, s': State)
    requires Sizes(s, g) && Levels(s, g) && Sizes(s', g)
    requires s'.emits == s.emits && (s'.mutex == s.mutex || (!s.mutex.ByEmit? && !s'.mutex.ByEmit?))
    requires forall o :: 0 <= o < |s.obs| ==> s'.obs[o].first == s.obs[o].first && s'.obs[o].taken == s.obs[o].taken
    requires forall o :: 0 <= o < |s.obs| && s'.obs[o].link.Connected? ==> s.obs[o].link.Connected?
    ensures Levels(s', g)
  {
    hide Pending;
    forall o: nat ensures Level(s', o) == Level(s, o) {}
  }

  lemma EndLeaveKeeps(s: State, g: View, o: nat)
    requires Inv(s, g) && Enabled(s, EndLeave(o))
    ensures Inv(Step(s, EndLeave(o)), g)
  {
    var s' := Step(s, EndLeave(o));
    assert ObserverOk(s.emits, g.status, o, s.obs[o], g.queues[o]);
    ObserverStep(s, g, o, s'.obs[o], s');
    LevelsFrame(s, g, s');
    hide EmitOk, ObserverOk, EmitsOk, ObserversOk, AllPlaced, History, Levels;
    assert Lock(s');
  }

  lemma LeaveNextKeeps(s: State, g: View, o: nat)
    requires Inv(s, g) && Enabled(s, LeaveNext(o)) && s.emits[s.obs[o].link.ptr.ref.e].phase != Finished
    ensures Inv(Step(s, LeaveNext(o)), g)
  {
    var s' := Step(s, LeaveNext(o));
    assert ObserverOk(s.emits, g.status, o, s.obs[o], g.queues[o]);
    ObserverStep(s, g, o, s'.obs[o], s');
    LockFrame(s, s');
    LevelsFrame(s, g, s');
  }

  lemma {:induction false} WithoutOne(xs: seq<nat>, x: nat)
    requires Distinct(xs)
    ensures forall y :: y in Without(xs, x) <==> y in xs && y != x
    ensures Distinct(Without(xs, x))
  {
    if xs != [] && xs[0] != x {
      var ys := Without(xs[1..], x);
      WithoutOne(xs[1..], x);
      forall y: nat ensures y in [xs[0]] + ys <==> y in xs && y != x {
        assert y in xs <==> y == xs[0] || y in xs[1..];
      }
      forall j | 0 <= j < |ys| ensures ys[j] != xs[0] {
        assert ys[j] in xs[1..];
      }
      assert Distinct([xs[0]] + ys);
    }
  }

  lemma LeaveLock(s: State, o: nat)
    requires Lock(s) && Enabled(s, BeginLeave(o))
    ensures Lock(Step(s, BeginLeave(o)))
  {
    WithoutOne(s.observers, o);
    hide Without;
    var s' := Step(s, BeginLeave(o));
    forall x: nat ensures x in s'.observers <==> x < |s'.obs| && s'.obs[x].link.Connected? {
      assert x in s'.observers <==> x in s.observers && x != o;
    }
  }

  lemma BeginLeaveKeeps(s: State, g: View, o: nat)
    requires Inv(s, g) && Enabled(s, BeginLeave(o))
    ensures Inv(Step(s, BeginLeave(o)), g)
  {
    var s' := Step(s, BeginLeave(o));
    assert ObserverOk(s.emits, g.status, o, s.obs[o], g.queues[o]);
    ObserverStep(s, g, o, s'.obs[o], s');
    LevelsFrame(s, g, s');
    LeaveLock(s, o);
  }

  // ---------------------------------------------------------------------------------------------
  // Steps that move one node on

  /** The state after node `r` of observer `o` has moved to state `x`: the observer and its queue are `ob` and `q`. */
  ghost predicate Moves(s: State, g: View, o: nat, r: Ref, x: Status, ob: Observer, q: seq<Ref>, s': State, g': View) {
    && o < |s.obs| && o < |g.queues| && r.e < |s.emits| && Mine(s.emits, g.status, r, o)
    && (x == Guarded || x == Consumed) && g.status[r.e][r.k] != x && g.status[r.e][r.k] != Consumed
    && g.status[r.e][r.k] != NotYet
    && s'.emits == s.emits[r.e := s.emits[r.e].(count := s.emits[r.e].count - (if x == Consumed then 1 else 0))]
    && g'.status == SetStatus(g.status, r, x)
    && s'.obs == s.obs[o := ob] && g'.queues == g.queues[o := q]
    && s'.mutex == s.mutex && s'.observers == s.observers && s'.crashed == s.crashed
  }

  lemma MoveEmits(s: State, g: View, o: nat, r: Ref, x: Status, ob: Observer, q: seq<Ref>, s': State, g': View)
    requires Inv(s, g) && Moves(s, g, o, r, x, ob, q, s', g') && |g'.received| == |g.received|
    ensures Sizes(s', g') && EmitsOk(s', g')
  {
    hide ObserverOk, ObserversOk, Lock, Levels, AllPlaced, History;
    var em, st := s.emits[r.e], g.status[r.e];
    assert EmitOk(em, st);
    CountUpdate(st, r.k, x, Unread);
    UnreadIsAlive(em, st, r.k);
    assert EmitOk(s'.emits[r.e], g'.status[r.e]);
  }

  /** Nodes other than `r` are kept. */
  lemma MoveKept(s: State, g: View, o: nat, r: Ref, x: Status, ob: Observer, q: seq<Ref>, s': State, g': View, r': Ref,
                 o': nat)
    requires Moves(s, g, o, r, x, ob, q, s', g') && r' != r && Mine(s.emits, g.status, r', o')
    ensures Kept(s.emits, g.status, s'.emits, g'.status, r')
  {
  }

  lemma MoveObservers(s: State, g: View, o: nat, r: Ref, x: Status, ob: Observer, q: seq<Ref>, s': State, g': View)
    requires Inv(s, g) && Moves(s, g, o, r, x, ob, q, s', g') && Sizes(s', g')
    requires ObserverOk(s'.emits, g'.status, o, ob, q)
    ensures ObserversOk(s', g')
  {
    hide EmitsOk, Lock, Levels, AllPlaced, History, ObserverOk, Kept;
    forall o' | 0 <= o' < |s'.obs| ensures ObserverOk(s'.emits, g'.status, o', s'.obs[o'], g'.queues[o']) {
      if o' != o {
        assert ObserverOk(s.emits, g.status, o', s.obs[o'], g.queues[o']);
        forall r' | Mine(s.emits, g.status, r', o') ensures Kept(s.emits, g.status, s'.emits, g'.status, r') {
          MoveKept(s, g, o, r, x, ob, q, s', g', r', o');
        }
        ObserverFrame(s.emits, g.status, s'.emits, g'.status, o', s.obs[o'], g.queues[o']);
      }
    }
  }

  lemma MovePlaces(s: State, g: View, o: nat, r: Ref, x: Status, ob: Observer, q: seq<Ref>, s': State, g': View)
    requires Inv(s, g) && Moves(s, g, o, r, x, ob, q, s', g') && Sizes(s', g') && EmitsOk(s', g')
    requires forall r' :: r' in g.queues[o] && r' != r ==> r' in q
    requires forall r' :: r' in s.obs[o].guards && r' != r ==> r' in ob.guards
    requires x == Guarded ==> r in ob.guards
    requires ob.first == s.obs[o].first
    ensures AllPlaced(s', g')
  {
    hide Lock, Levels, History, ObserversOk;
    forall e, k | 0 <= e < |s'.emits| && 0 <= k < |g'.status[e]|
      ensures Placed(s', g', e, k)
    {
      assert Placed(s, g, e, k);
    }
  }

  lemma MoveLock(s: State, g: View, o: nat, r: Ref, x: Status, ob: Observer, q: seq<Ref>, s': State, g': View)
    requires Lock(s) && Sizes(s, g) && Sizes(s', g') && Levels(s, g) && Moves(s, g, o, r, x, ob, q, s', g')
    requires ob.link.Connected? == s.obs[o].link.Connected? && ob.link.Leaving? == s.obs[o].link.Leaving?
    requires ob.first == s.obs[o].first
    requires ob.link.Connected? ==> ob.taken + |q| == s.obs[o].taken + |g.queues[o]|
    ensures Lock(s') && Levels(s', g')
  {
    hide Pending;
    forall o': nat ensures Level(s', o') == Level(s, o') {
      hide *;
      LevelFrame(s, s', r.e, o');
    }
  }

  lemma LevelFrame(s: State, s': State, e: nat, o: nat)
    requires e < |s.emits| && |s'.emits| == |s.emits| && s'.emits == s.emits[e := s'.emits[e]] && s'.mutex == s.mutex
    requires s'.emits[e].targets == s.emits[e].targets && s'.emits[e].next == s.emits[e].next
    ensures Level(s', o) == Level(s, o)
  {
  }

  lemma QueuePop(emits: seq<Emit>, status: seq<seq<Status>>, emits': seq<Emit>, status': seq<seq<Status>>, o: nat,
                 q: seq<Ref>)
    requires QueueOk(emits, status, o, q) && q != []
    requires forall i :: 0 < i < |q| ==> Kept(emits, status, emits', status', q[i])
    ensures QueueOk(emits', status', o, q[1..])
  {
    var q' := q[1..];
    forall i | 0 <= i < |q'|
      ensures q'[i].e == q'[0].e + i && Is(emits', status', q'[i], o, Queued) && LinkedAt(emits', q', i)
    {
      assert q'[i] == q[i + 1] && q'[0] == q[1] && PtrAt(q', i + 1) == PtrAt(q, i + 2);
      assert Is(emits, status, q[i + 1], o, Queued) && LinkedAt(emits, q, i + 1);
    }
  }

  /** The head of a queue is a node of an unfinished emit, and its link leads to the rest of the queue. */
  lemma HeadIsAlive(s: State, g: View, o: nat)
    requires Inv(s, g) && o < |s.obs| && g.queues[o] != []
    ensures var r := g.queues[o][0];
      && Is(s.emits, g.status, r, o, Queued) && Alive(s.emits, r)
      && s.emits[r.e].next[r.k] == PtrAt(g.queues[o], 1)
  {
    hide Lock, Levels, AllPlaced, History;
    var r := g.queues[o][0];
    assert ObserverOk(s.emits, g.status, o, s.obs[o], g.queues[o]);
    assert Is(s.emits, g.status, r, o, Queued) && LinkedAt(s.emits, g.queues[o], 0);
    UnreadIsAlive(s.emits[r.e], g.status[r.e], r.k);
  }

  lemma GuardIsAlive(s: State, g: View, o: nat, i: nat)
    requires Inv(s, g) && o < |s.obs| && i < |s.obs[o].guards|
    ensures var r := s.obs[o].guards[i]; Is(s.emits, g.status, r, o, Guarded) && Alive(s.emits, r)
  {
    hide Lock, Levels, AllPlaced, History;
    var r := s.obs[o].guards[i];
    assert ObserverOk(s.emits, g.status, o, s.obs[o], g.queues[o]);
    assert Is(s.emits, g.status, r, o, Guarded);
    UnreadIsAlive(s.emits[r.e], g.status[r.e], r.k);
  }

  /** The rest of a queue whose head has moved on. */
  lemma MoveQueue(s: State, g: View, o: nat, x: Status, ob: Observer, s': State, g': View)
    requires Inv(s, g) && o < |s.obs| && g.queues[o] != []
    requires Moves(s, g, o, g.queues[o][0], x, ob, g.queues[o][1..], s', g')
    ensures QueueOk(s'.emits, g'.status, o, g.queues[o][1..])
  {
    var q := g.queues[o];
    assert ObserverOk(s.emits, g.status, o, s.obs[o], q);
    hide Inv, Kept, Moves;
    forall i | 0 < i < |q| ensures Kept(s.emits, g.status, s'.emits, g'.status, q[i]) {
      assert Is(s.emits, g.status, q[i], o, Queued) && q[i].e == q[0].e + i;
      MoveKept(s, g, o, q[0], x, ob, q[1..], s', g', q[i], o);
    }
    QueuePop(s.emits, g.status, s'.emits, g'.status, o, q);
  }

  /** Guards other than `r` are still guards. */
  lemma MoveGuards(s: State, g: View, o: nat, r: Ref, x: Status, ob: Observer, q: seq<Ref>, s': State, g': View,
                   gs: seq<Ref>)
    requires Inv(s, g) && Moves(s, g, o, r, x, ob, q, s', g')
    requires Distinct(gs) && forall c :: c in gs ==> c in s.obs[o].guards && c != r
    ensures GuardsOk(s'.emits, g'.status, o, gs)
  {
    assert ObserverOk(s.emits, g.status, o, s.obs[o], g.queues[o]);
    hide Inv, Kept, Moves;
    forall i | 0 <= i < |gs| ensures Is(s'.emits, g'.status, gs[i], o, Guarded) {
      assert gs[i] in s.obs[o].guards;
      assert Is(s.emits, g.status, gs[i], o, Guarded);
      MoveKept(s, g, o, r, x, ob, q, s', g', gs[i], o);
    }
  }

  lemma TakeMoves(s: State, g: View, o: nat)
    requires Inv(s, g) && Enabled(s, Take(o))
    ensures var s', g' := Step(s, Take(o)), ViewStep(s, g, Take(o));
      && g.queues[o] != [] && |s'.obs| == |s.obs|
      && Moves(s, g, o, g.queues[o][0], Guarded, s'.obs[o], g.queues[o][1..], s', g')
      && s'.obs[o] == s.obs[o].(link := Connected(PtrAt(g.queues[o], 1)), consumer := Free,
                                guards := s.obs[o].guards + [g.queues[o][0]], taken := s.obs[o].taken + 1)
      && g'.received == g.received[o := g.received[o] + [g.queues[o][0].e]]
  {
    assert ObserverOk(s.emits, g.status, o, s.obs[o], g.queues[o]);
    HeadIsAlive(s, g, o);
    hide EmitsOk, ObserversOk, ObserverOk, Lock, Levels, AllPlaced, History;
    var r := g.queues[o][0];
    assert s.emits[r.e := s.emits[r.e].(count := s.emits[r.e].count - 0)] == s.emits;
  }

  lemma TakeGuards(s: State, g: View, o: nat, s': State, g': View)
    requires Inv(s, g) && o < |s.obs| && g.queues[o] != [] && o < |s'.obs|
    requires Moves(s, g, o, g.queues[o][0], Guarded, s'.obs[o], g.queues[o][1..], s', g')
    ensures GuardsOk(s'.emits, g'.status, o, s.obs[o].guards + [g.queues[o][0]])
  {
    var q, gs := g.queues[o], s.obs[o].guards;
    assert ObserverOk(s.emits, g.status, o, s.obs[o], q);
    assert forall i :: 0 <= i < |gs| ==> Is(s.emits, g.status, gs[i], o, Guarded);
    assert Is(s.emits, g.status, q[0], o, Queued) && Is(s'.emits, g'.status, q[0], o, Guarded);
    hide Inv, Moves;
    MoveGuards(s, g, o, q[0], Guarded, s'.obs[o], q[1..], s', g', gs);
  }

  lemma TakeObserver(s: State, g: View, o: nat)
    requires Inv(s, g) && Enabled(s, Take(o)) && g.queues[o] != []
    ensures var s', g' := Step(s, Take(o)), ViewStep(s, g, Take(o));
      |s'.obs| == |s.obs| && ObserverOk(s'.emits, g'.status, o, s'.obs[o], g.queues[o][1..])
  {
    TakeMoves(s, g, o);
    var s', g' := Step(s, Take(o)), ViewStep(s, g, Take(o));
    hide Step, ViewStep, Moves, Enabled;
    var q := g.queues[o];
    assert ObserverOk(s.emits, g.status, o, s.obs[o], q);
    assert q[1..] != [] ==> q[1].e == q[0].e + 1;
    MoveQueue(s, g, o, Guarded, s'.obs[o], s', g');
    TakeGuards(s, g, o, s', g');
    hide Inv, QueueOk, GuardsOk;
  }

  /** Everything but the history after a node has moved. */
  lemma MoveKeeps(s: State, g: View, o: nat, r: Ref, x: Status, ob: Observer, q: seq<Ref>, s': State, g': View)
    requires Inv(s, g) && Moves(s, g, o, r, x, ob, q, s', g') && |g'.received| == |g.received|
    requires ObserverOk(s'.emits, g'.status, o, ob, q)
    requires forall r' :: r' in g.queues[o] && r' != r ==> r' in q
    requires forall r' :: r' in s.obs[o].guards && r' != r ==> r' in ob.guards
    requires x == Guarded ==> r in ob.guards
    requires ob.link.Connected? == s.obs[o].link.Connected? && ob.link.Leaving? == s.obs[o].link.Leaving?
    requires ob.first == s.obs[o].first
    requires ob.link.Connected? ==> ob.taken + |q| == s.obs[o].taken + |g.queues[o]|
    ensures Sizes(s', g') && History(s', g') ==> Inv(s', g')
  {
    hide ObserverOk, EmitOk, Placed, InOrder;
    MoveEmits(s, g, o, r, x, ob, q, s', g');
    MoveObservers(s, g, o, r, x, ob, q, s', g');
    MovePlaces(s, g, o, r, x, ob, q, s', g');
    MoveLock(s, g, o, r, x, ob, q, s', g');
    hide EmitsOk, ObserversOk, AllPlaced, History, Lock, Levels;
  }

  lemma TakeHistory(s: State, g: View, o: nat, s': State, g': View)
    requires Inv(s, g) && o < |s.obs| && g.queues[o] != [] && s.obs[o].link.Connected? && Sizes(s', g')
    requires |s'.emits| == |s.emits| && forall e :: 0 <= e < |s.emits| ==> s'.emits[e].targets == s.emits[e].targets
    requires |s'.obs| == |s.obs| && s'.obs == s.obs[o := s'.obs[o]]
    requires s'.obs[o].first == s.obs[o].first && s'.obs[o].taken == s.obs[o].taken + 1
    requires g'.received == g.received[o := g.received[o] + [g.queues[o][0].e]]
    ensures History(s', g')
  {
    var q := g.queues[o];
    assert ObserverOk(s.emits, g.status, o, s.obs[o], q) && Is(s.emits, g.status, q[0], o, Queued);
    hide EmitsOk, ObserversOk, AllPlaced, Lock, Levels;
    forall o' | 0 <= o' < |s'.obs| ensures InOrder(s'.emits, o', s'.obs[o'], g'.received[o']) {
      assert InOrder(s.emits, o', s.obs[o'], g.received[o']);
    }
  }

  lemma TakeKeeps(s: State, g: View, o: nat)
    requires Inv(s, g) && Enabled(s, Take(o))
    ensures Inv(Step(s, Take(o)), ViewStep(s, g, Take(o)))
  {
    TakeMoves(s, g, o);
    TakeObserver(s, g, o);
    var s', g' := Step(s, Take(o)), ViewStep(s, g, Take(o));
    var q := g.queues[o];
    assert Sizes(s', g');
    TakeHistory(s, g, o, s', g');
    hide Step, ViewStep, Inv, Moves, ObserverOk, Sizes, History;
    MoveKeeps(s, g, o, q[0], Guarded, s'.obs[o], q[1..], s', g');
  }

  lemma DropObserver(s: State, g: View, o: nat, i: nat, s': State, g': View)
    requires Inv(s, g) && o < |s.obs| && i < |s.obs[o].guards|
    requires |s'.obs| == |s.obs| && Moves(s, g, o, s.obs[o].guards[i], Consumed, s'.obs[o], g.queues[o], s', g')
    requires s'.obs[o] == s.obs[o].(guards := s.obs[o].guards[..i] + s.obs[o].guards[i + 1..])
    ensures ObserverOk(s'.emits, g'.status, o, s'.obs[o], g.queues[o])
  {
    var q, r, gs := g.queues[o], s.obs[o].guards[i], s'.obs[o].guards;
    GuardIsAlive(s, g, o, i);
    assert ObserverOk(s.emits, g.status, o, s.obs[o], q);
    forall k | 0 <= k < |q| ensures Kept(s.emits, g.status, s'.emits, g'.status, q[k]) {
      assert Is(s.emits, g.status, q[k], o, Queued);
      MoveKept(s, g, o, r, Consumed, s'.obs[o], q, s', g', q[k], o);
    }
    QueueFrame(s.emits, g.status, s'.emits, g'.status, o, q);
    MoveGuards(s, g, o, r, Consumed, s'.obs[o], q, s', g', gs);
    if s.obs[o].link.Leaving? && s.obs[o].link.counted {
      MoveKept(s, g, o, r, Consumed, s'.obs[o], q, s', g', s.obs[o].link.ptr.ref, o);
    }
  }

  lemma DropKeeps(s: State, g: View, o: nat, i: nat)
    requires Inv(s, g) && Enabled(s, DropGuard(o, i))
    ensures Inv(Step(s, DropGuard(o, i)), ViewStep(s, g, DropGuard(o, i)))
  {
    GuardIsAlive(s, g, o, i);
    var s', g' := Step(s, DropGuard(o, i)), ViewStep(s, g, DropGuard(o, i));
    var r := s.obs[o].guards[i];
    assert Moves(s, g, o, r, Consumed, s'.obs[o], g.queues[o], s', g');
    assert Sizes(s', g');
    DropObserver(s, g, o, i, s', g');
    HistoryFrame(s, g, s');
    HistoryView(s', g, g');
    hide Step, ViewStep, Inv, Moves, ObserverOk, Sizes, History;
    MoveKeeps(s, g, o, r, Consumed, s'.obs[o], g.queues[o], s', g');
  }

  lemma HistoryView(s: State, g: View, g': View)
    requires Sizes(s, g) && Sizes(s, g') && History(s, g) && g'.received == g.received
    ensures History(s, g')
  {
  }

  lemma LeaveCountMoves(s: State, g: View, o: nat)
    requires Inv(s, g) && Enabled(s, LeaveCount(o))
    ensures var s', g' := Step(s, LeaveCount(o)), ViewStep(s, g, LeaveCount(o));
      && g.queues[o] != [] && |s'.obs| == |s.obs|
      && Moves(s, g, o, g.queues[o][0], Consumed, s'.obs[o], g.queues[o][1..], s', g')
      && s'.obs[o] == s.obs[o].(link := Leaving(To(g.queues[o][0]), true))
      && g'.received == g.received
      && NextIs(s'.emits, g.queues[o][0], PtrAt(g.queues[o], 1))
  {
    assert ObserverOk(s.emits, g.status, o, s.obs[o], g.queues[o]);
    HeadIsAlive(s, g, o);
    hide EmitsOk, ObserversOk, ObserverOk, Lock, Levels, AllPlaced, History;
  }

  lemma LeaveCountObserver(s: State, g: View, o: nat, s': State, g': View)
    requires Inv(s, g) && o < |s.obs| && g.queues[o] != [] && |s'.obs| == |s.obs| && !s.obs[o].link.Connected?
    requires Moves(s, g, o, g.queues[o][0], Consumed, s'.obs[o], g.queues[o][1..], s', g')
    requires s'.obs[o] == s.obs[o].(link := Leaving(To(g.queues[o][0]), true))
    requires NextIs(s'.emits, g.queues[o][0], PtrAt(g.queues[o], 1))
    ensures ObserverOk(s'.emits, g'.status, o, s'.obs[o], g.queues[o][1..])
  {
    var q, gs := g.queues[o], s.obs[o].guards;
    assert ObserverOk(s.emits, g.status, o, s.obs[o], q);
    assert Is(s.emits, g.status, q[0], o, Queued) && Is(s'.emits, g'.status, q[0], o, Consumed);
    assert forall i :: 0 <= i < |gs| ==> Is(s.emits, g.status, gs[i], o, Guarded);
    MoveQueue(s, g, o, Consumed, s'.obs[o], s', g');
    MoveGuards(s, g, o, q[0], Consumed, s'.obs[o], q[1..], s', g', gs);
    hide Inv, Moves, QueueOk, GuardsOk;
  }

  lemma LeaveCountKeeps(s: State, g: View, o: nat)
    requires Inv(s, g) && Enabled(s, LeaveCount(o))
    ensures Inv(Step(s, LeaveCount(o)), ViewStep(s, g, LeaveCount(o)))
  {
    LeaveCountMoves(s, g, o);
    var s', g' := Step(s, LeaveCount(o)), ViewStep(s, g, LeaveCount(o));
    assert Sizes(s', g');
    LeaveCountObserver(s, g, o, s', g');
    HistoryFrame(s, g, s');
    HistoryView(s', g, g');
    hide Step, ViewStep, Inv, Moves, ObserverOk, Sizes, History;
    MoveKeeps(s, g, o, g.queues[o][0], Consumed, s'.obs[o], g.queues[o][1..], s', g');
  }

  // ---------------------------------------------------------------------------------------------
  // New observers and new emits

  lemma ConnectLock(s: State)
    requires Lock(s) && Enabled(s, Connect)
    ensures Lock(Step(s, Connect))
  {
    assert |s.obs| !in s.observers;
  }

  lemma ConnectObservers(s: State, g: View)
    requires Inv(s, g) && Enabled(s, Connect)
    ensures var s', g' := Step(s, Connect), ViewStep(s, g, Connect);
      Sizes(s', g') && ObserversOk(s', g') && History(s', g') && Levels(s', g')
  {
    var s', g' := Step(s, Connect), ViewStep(s, g, Connect);
    var n := |s.obs|;
    assert s'.obs[n] == Observer(Connected(Null), Free, [], |s.emits|, 0) && g'.queues[n] == [];
    assert ObserverOk(s'.emits, g'.status, n, s'.obs[n], []) && InOrder(s'.emits, n, s'.obs[n], []);
    hide ObserverOk, InOrder, Lock, EmitsOk, AllPlaced;
  }

  lemma ConnectKeeps(s: State, g: View)
    requires Inv(s, g) && Enabled(s, Connect)
    ensures Inv(Step(s, Connect), ViewStep(s, g, Connect))
  {
    var s', g' := Step(s, Connect), ViewStep(s, g, Connect);
    ConnectLock(s);
    ConnectObservers(s, g);
    hide Lock, ObserversOk, History, Levels, EmitOk, ObserverOk;
    assert EmitsOk(s', g');
    ConnectPlaces(s, g, s', g');
  }

  lemma ConnectPlaces(s: State, g: View, s': State, g': View)
    requires Sizes(s, g) && EmitsOk(s, g) && AllPlaced(s, g) && Sizes(s', g') && EmitsOk(s', g')
    requires s'.emits == s.emits && g'.status == g.status
    requires |s.obs| <= |s'.obs| && s'.obs[..|s.obs|] == s.obs && g'.queues[..|s.obs|] == g.queues
    ensures AllPlaced(s', g')
  {
    forall e, k | 0 <= e < |s'.emits| && 0 <= k < |g'.status[e]|
      ensures Placed(s', g', e, k)
    {
      assert Placed(s, g, e, k);
    }
  }

  lemma {:induction false} CountNew(n: nat)
    ensures Count(seq(n, _ => NotYet), Unread) == n
  {
    if n > 0 {
      assert seq(n, _ => NotYet)[..n - 1] == seq(n - 1, _ => NotYet);
      CountNew(n - 1);
    }
  }

  lemma BeginEmits(s: State, g: View)
    requires Inv(s, g) && Enabled(s, BeginEmit)
    ensures var s', g' := Step(s, BeginEmit), ViewStep(s, g, BeginEmit);
      && Sizes(s', g') && EmitsOk(s', g') && AllPlaced(s', g')
      && |s'.emits| == |s.emits| + 1 && s'.emits[..|s.emits|] == s.emits && g'.status[..|s.emits|] == g.status
      && s'.emits[|s.emits|].targets == s.observers && s'.emits[|s.emits|].next == []
      && (s.observers != [] ==> s'.mutex == ByEmit(|s.emits|) && s'.emits[|s.emits|].phase == Appending)
      && (s.observers == [] ==> s'.mutex == Unlocked && s'.emits[|s.emits|].phase == Finished)
  {
    CountNew(|s.observers|);
    var s', g' := Step(s, BeginEmit), ViewStep(s, g, BeginEmit);
    hide ObserversOk, History, Pending;
    forall e, k | 0 <= e < |s'.emits| && 0 <= k < |g'.status[e]|
      ensures Placed(s', g', e, k)
    {
      if e < |s.emits| {
        assert Placed(s, g, e, k);
      } else {
        assert s.observers[k] in s.observers;
      }
    }
  }

  lemma BeginLevels(s: State, g: View)
    requires Inv(s, g) && Enabled(s, BeginEmit)
    ensures var s', g' := Step(s, BeginEmit), ViewStep(s, g, BeginEmit);
      Lock(s') && Sizes(s', g') && Levels(s', g')
  {
    BeginEmits(s, g);
    var s', g' := Step(s, BeginEmit), ViewStep(s, g, BeginEmit);
    hide ObserversOk, History, EmitsOk, AllPlaced, EmitOk, ObserverOk;
    forall o | 0 <= o < |s'.obs| && s'.obs[o].link.Connected?
      ensures s'.obs[o].first + s'.obs[o].taken + |g'.queues[o]| == Level(s', o)
    {
      assert o in s.observers;
      var k :| 0 <= k < |s.observers| && s.observers[k] == o;
      assert s'.emits[|s.emits|].targets[k] == o;
    }
  }

  lemma BeginHistory(s: State, g: View, s': State, g': View)
    requires Sizes(s, g) && Sizes(s', g') && ObserversOk(s, g) && History(s, g)
    requires |s.emits| <= |s'.emits| && s'.emits[..|s.emits|] == s.emits && g'.status[..|s.emits|] == g.status
    requires s'.obs == s.obs && g'.queues == g.queues && g'.received == g.received
    ensures ObserversOk(s', g') && History(s', g')
  {
    forall o | 0 <= o < |s'.obs| ensures InOrder(s'.emits, o, s'.obs[o], g'.received[o]) {
      assert InOrder(s.emits, o, s.obs[o], g.received[o]);
    }
    hide InOrder, ObserverOk;
    ObserversKept(s, g, s', g');
  }

  lemma BeginKeeps(s: State, g: View)
    requires Inv(s, g) && Enabled(s, BeginEmit)
    ensures Inv(Step(s, BeginEmit), ViewStep(s, g, BeginEmit))
  {
    BeginEmits(s, g);
    BeginLevels(s, g);
    hide Lock, Levels, EmitsOk, ObserversOk, AllPlaced, History;
    BeginHistory(s, g, Step(s, BeginEmit), ViewStep(s, g, BeginEmit));
  }

  /** Walking a queue from position `i` ends at its last node. */
  lemma {:induction false} TailIsLast(emits: seq<Emit>, q: seq<Ref>, i: nat, fuel: nat)
    requires i < |q| <= i + fuel + 1
    requires forall j :: 0 <= j < |q| ==> Alive(emits, q[j])
    requires forall j :: 0 <= j < |q| ==> LinkedAt(emits, q, j)
    ensures Tail(emits, To(q[i]), fuel) == To(q[|q| - 1])
    decreases fuel
  {
    assert LinkedAt(emits, q, i);
    if i + 1 < |q| {
      TailIsLast(emits, q, i + 1, fuel - 1);
    }
  }

  lemma QueueTail(s: State, g: View, o: nat)
    requires Inv(s, g) && o < |s.obs| && g.queues[o] != []
    ensures var q := g.queues[o];
      && Tail(s.emits, To(q[0]), |s.emits|) == To(q[|q| - 1])
      && Is(s.emits, g.status, q[|q| - 1], o, Queued) && s.emits[q[|q| - 1].e].phase != Finished
      && q[|q| - 1].e == q[0].e + |q| - 1
  {
    var q := g.queues[o];
    assert ObserverOk(s.emits, g.status, o, s.obs[o], q);
    hide Lock, Levels, AllPlaced, History, ObserversOk;
    forall j | 0 <= j < |q| ensures Alive(s.emits, q[j]) {
      assert Is(s.emits, g.status, q[j], o, Queued);
      UnreadIsAlive(s.emits[q[j].e], g.status[q[j].e], q[j].k);
    }
    assert Is(s.emits, g.status, q[|q| - 1], o, Queued);
    hide Inv, Is;
    TailIsLast(s.emits, q, 0, |s.emits|);
  }

  /** All emits after node `r` of emit `r.e` has been made and linked to the end of `q`. */
  ghost function Linked(emits: seq<Emit>, r: Ref, q: seq<Ref>): seq<Emit>
    requires r.e < |emits|
    requires q != [] ==> q[|q| - 1].e < r.e && q[|q| - 1].k < |emits[q[|q| - 1].e].next|
  {
    var made := emits[r.e := emits[r.e].(next := emits[r.e].next + [Null])];
    if q == [] then made else SetNext(made, q[|q| - 1], To(r))
  }

  /** What Append does to a state that keeps the invariant; in particular it does not crash. */
  lemma AppendEffect(s: State, g: View, e: nat)
    requires Inv(s, g) && Enabled(s, Append(e))
    ensures var r, o := Ref(e, |s.emits[e].next|), s.emits[e].targets[|s.emits[e].next|];
      && o < |s.obs| && s.obs[o].link.Connected? && s.mutex == ByEmit(e) && e == |s.emits| - 1
      && var q, ob := g.queues[o], s.obs[o];
      && ob.first + ob.taken + |q| == e
      && (q != [] ==> q[|q| - 1].e < e && Is(s.emits, g.status, q[|q| - 1], o, Queued)
                      && s.emits[q[|q| - 1].e].phase != Finished)
      && Step(s, Append(e)) == s.(
           emits := Linked(s.emits, r, q),
           obs := s.obs[o := ob.(link := Connected(PtrAt(q + [r], 0)),
                                 consumer := if ob.consumer == Suspended then Woken else ob.consumer)])
  {
    var k := |s.emits[e].next|;
    var o := s.emits[e].targets[k];
    assert o in s.observers;
    var q := g.queues[o];
    assert Level(s, o) == e;
    assert ObserverOk(s.emits, g.status, o, s.obs[o], q);
    if q != [] {
      QueueTail(s, g, o);
      assert (q + [Ref(e, k)])[0] == q[0];
    }
    hide Lock, Levels, AllPlaced, History, ObserversOk, EmitsOk, Tail, QueueOk, GuardsOk;
  }

  /** `s'` and `g'` are `s` and `g` after the new node `r` has been linked to the end of the queue of `o`. */
  ghost predicate Appends(s: State, g: View, o: nat, r: Ref, s': State, g': View) {
    && Sizes(s, g) && o < |s.obs| && r.e == |s.emits| - 1 && r.k == |s.emits[r.e].next|
    && r.k < |s.emits[r.e].targets| && r.k < |g.status[r.e]| && s.emits[r.e].targets[r.k] == o
    && var q := g.queues[o];
    && (q != [] ==> q[|q| - 1].e < r.e && Is(s.emits, g.status, q[|q| - 1], o, Queued))
    && s'.emits == Linked(s.emits, r, q) && |s'.obs| == |s.obs| && s'.obs == s.obs[o := s'.obs[o]]
    && g'.status == SetStatus(g.status, r, Queued) && g'.queues == g.queues[o := q + [r]] && g'.received == g.received
  }

  /** Nodes other than the last one of the queue are kept. */
  lemma AppendKept(s: State, g: View, o: nat, r: Ref, s': State, g': View, r': Ref, o': nat)
    requires Appends(s, g, o, r, s', g') && Mine(s.emits, g.status, r', o')
    requires g.queues[o] == [] || r' != g.queues[o][|g.queues[o]| - 1]
    ensures Kept(s.emits, g.status, s'.emits, g'.status, r')
  {
  }

  lemma AppendEmits(s: State, g: View, o: nat, r: Ref, s': State, g': View)
    requires Inv(s, g) && Appends(s, g, o, r, s', g') && s.emits[r.e].phase == Appending
    ensures Sizes(s', g') && EmitsOk(s', g')
  {
    hide ObserversOk, Lock, Levels, AllPlaced, History;
    CountUpdate(g.status[r.e], r.k, Queued, Unread);
    assert EmitOk(s.emits[r.e], g.status[r.e]);
    assert EmitOk(s'.emits[r.e], g'.status[r.e]);
    forall e | 0 <= e < |s'.emits| ensures EmitOk(s'.emits[e], g'.status[e]) {
      assert EmitOk(s.emits[e], g.status[e]);
    }
  }

  /** Inside the queue nothing changes. */
  lemma AppendInner(s: State, g: View, o: nat, r: Ref, s': State, g': View, i: nat)
    requires Appends(s, g, o, r, s', g') && QueueOk(s.emits, g.status, o, g.queues[o]) && i + 1 < |g.queues[o]|
    ensures Is(s'.emits, g'.status, g.queues[o][i], o, Queued) && LinkedAt(s'.emits, g.queues[o] + [r], i)
  {
    var q := g.queues[o];
    assert q[i].e == q[0].e + i && q[|q| - 1].e == q[0].e + (|q| - 1);
    assert Is(s.emits, g.status, q[i], o, Queued) && LinkedAt(s.emits, q, i);
    AppendKept(s, g, o, r, s', g', q[i], o);
    hide Appends, QueueOk;
    assert PtrAt(q + [r], i + 1) == PtrAt(q, i + 1);
  }

  /** The old last node leads to the new one, which leads nowhere. */
  lemma AppendEnd(s: State, g: View, o: nat, r: Ref, s': State, g': View)
    requires Appends(s, g, o, r, s', g')
    ensures var q' := g.queues[o] + [r];
      && Is(s'.emits, g'.status, r, o, Queued) && LinkedAt(s'.emits, q', |q'| - 1)
      && (|q'| > 1 ==> Is(s'.emits, g'.status, q'[|q'| - 2], o, Queued) && LinkedAt(s'.emits, q', |q'| - 2))
  {
  }

  lemma AppendQueue(s: State, g: View, o: nat, r: Ref, s': State, g': View)
    requires Appends(s, g, o, r, s', g') && ObserverOk(s.emits, g.status, o, s.obs[o], g.queues[o])
    requires s.obs[o].link.Connected? && s.obs[o].first + s.obs[o].taken + |g.queues[o]| == r.e
    ensures QueueOk(s'.emits, g'.status, o, g.queues[o] + [r])
  {
    var q := g.queues[o];
    var q' := q + [r];
    AppendEnd(s, g, o, r, s', g');
    hide Appends, Is, LinkedAt;
    forall i | 0 <= i < |q'|
      ensures q'[i].e == q'[0].e + i && Is(s'.emits, g'.status, q'[i], o, Queued) && LinkedAt(s'.emits, q', i)
    {
      if i < |q| - 1 {
        AppendInner(s, g, o, r, s', g', i);
      }
    }
  }

  lemma AppendGuards(s: State, g: View, o: nat, r: Ref, s': State, g': View)
    requires Inv(s, g) && Appends(s, g, o, r, s', g')
    ensures GuardsOk(s'.emits, g'.status, o, s.obs[o].guards)
  {
    var gs := s.obs[o].guards;
    assert ObserverOk(s.emits, g.status, o, s.obs[o], g.queues[o]);
    hide Inv;
    forall i | 0 <= i < |gs| ensures Is(s'.emits, g'.status, gs[i], o, Guarded) {
      assert Is(s.emits, g.status, gs[i], o, Guarded);
      AppendKept(s, g, o, r, s', g', gs[i], o);
    }
  }

  lemma AppendObservers(s: State, g: View, o: nat, r: Ref, s': State, g': View)
    requires Inv(s, g) && Appends(s, g, o, r, s', g') && Sizes(s', g')
    requires ObserverOk(s'.emits, g'.status, o, s'.obs[o], g.queues[o] + [r])
    ensures ObserversOk(s', g')
  {
    hide EmitsOk, Lock, Levels, AllPlaced, History, ObserverOk, Kept, Linked;
    forall o' | 0 <= o' < |s'.obs| ensures ObserverOk(s'.emits, g'.status, o', s'.obs[o'], g'.queues[o']) {
      if o' != o {
        assert ObserverOk(s.emits, g.status, o', s.obs[o'], g.queues[o']);
        forall r' | Mine(s.emits, g.status, r', o') ensures Kept(s.emits, g.status, s'.emits, g'.status, r') {
          AppendKept(s, g, o, r, s', g', r', o');
        }
        ObserverFrame(s.emits, g.status, s'.emits, g'.status, o', s.obs[o'], g.queues[o']);
      }
    }
  }

  lemma AppendPlaces(s: State, g: View, o: nat, r: Ref, s': State, g': View)
    requires Inv(s, g) && Appends(s, g, o, r, s', g') && Sizes(s', g') && EmitsOk(s', g')
    requires s'.obs[o].guards == s.obs[o].guards && s'.obs[o].first == s.obs[o].first
    ensures AllPlaced(s', g')
  {
    hide Lock, Levels, History, ObserversOk;
    forall e, k | 0 <= e < |s'.emits| && 0 <= k < |g'.status[e]|
      ensures Placed(s', g', e, k)
    {
      assert Placed(s, g, e, k);
    }
  }

  lemma AppendLevels(s: State, g: View, o: nat, r: Ref, s': State, g': View)
    requires Inv(s, g) && Appends(s, g, o, r, s', g') && Sizes(s', g')
    requires s.obs[o].link.Connected? && s'.obs[o].link.Connected? && s.mutex == ByEmit(r.e)
    requires s'.mutex == s.mutex && s'.observers == s.observers
    requires s'.obs[o].first == s.obs[o].first && s'.obs[o].taken == s.obs[o].taken
    requires s.obs[o].first + s.obs[o].taken + |g.queues[o]| == r.e
    ensures Lock(s') && Levels(s', g') && History(s', g')
  {
    hide ObserversOk, AllPlaced;
    HistoryFrame(s, g, s');
    HistoryView(s', g, g');
    var ts := s.emits[r.e].targets;
    assert EmitOk(s.emits[r.e], g.status[r.e]);
    assert s'.emits[r.e].targets == ts && |s'.emits[r.e].next| == r.k + 1;
    hide EmitsOk, EmitOk, History, Linked;
    forall x | 0 <= x < |s'.obs| && x != o ensures Level(s', x) == Level(s, x) {
      assert forall k :: r.k + 1 <= k < |ts| && ts[k] == x ==> r.k <= k < |ts| && ts[k] == x;
    }
  }

  lemma AppendKeeps(s: State, g: View, e: nat)
    requires Inv(s, g) && Enabled(s, Append(e))
    ensures Inv(Step(s, Append(e)), ViewStep(s, g, Append(e)))
  {
    AppendEffect(s, g, e);
    var r, o := Ref(e, |s.emits[e].next|), s.emits[e].targets[|s.emits[e].next|];
    var s', g' := Step(s, Append(e)), ViewStep(s, g, Append(e));
    assert EmitOk(s.emits[e], g.status[e]);
    assert Appends(s, g, o, r, s', g');
    hide Step, ViewStep, Appends, Linked;
    AppendPart(s, g, o, r, s', g');
  }

  lemma AppendPart(s: State, g: View, o: nat, r: Ref, s': State, g': View)
    requires Inv(s, g) && Appends(s, g, o, r, s', g') && s.emits[r.e].phase == Appending && s.mutex == ByEmit(r.e)
    requires s.obs[o].link.Connected? && s.obs[o].first + s.obs[o].taken + |g.queues[o]| == r.e
    requires s'.obs[o] == s.obs[o].(link := Connected(PtrAt(g.queues[o] + [r], 0)),
                                    consumer := if s.obs[o].consumer == Suspended then Woken else s.obs[o].consumer)
    requires s'.mutex == s.mutex && s'.observers == s.observers && s'.crashed == s.crashed
    ensures Inv(s', g')
  {
    assert ObserverOk(s.emits, g.status, o, s.obs[o], g.queues[o]);
    AppendEmits(s, g, o, r, s', g');
    AppendQueue(s, g, o, r, s', g');
    AppendGuards(s, g, o, r, s', g');
    AppendLevels(s, g, o, r, s', g');
    AppendPlaces(s, g, o, r, s', g');
    hide Appends, QueueOk, GuardsOk, EmitsOk, ObserversOk, AllPlaced, Lock, Levels, History;
    assert ObserverOk(s'.emits, g'.status, o, s'.obs[o], g.queues[o] + [r]);
    AppendObservers(s, g, o, r, s', g');
  }

  // ---------------------------------------------------------------------------------------------
  // One step

  /** ~internal_observer reads a node's link only after counting down its latch; it is in time if the emit that
      owns the node has not been resumed in between. */
  predicate InTime(s: State, a: Action)
    requires Enabled(s, a)
  {
    a.LeaveNext? ==>
      var r := s.obs[a.o].link.ptr.ref;
      r.e < |s.emits| && s.emits[r.e].phase != Finished
  }

  /** Every step in time keeps the invariant, and the late ones read a node of a frame that is gone. */
  lemma {:induction false} StepKeeps(s: State, g: View, a: Action)
    requires Inv(s, g) && Enabled(s, a)
    ensures InTime(s, a) ==> Inv(Step(s, a), ViewStep(s, g, a))
    ensures !InTime(s, a) ==> Step(s, a).crashed
  {
    if InTime(s, a) { KeepsInTime(s, g, a); } else { hide Inv; }
  }

  lemma KeepsInTime(s: State, g: View, a: Action)
    requires Inv(s, g) && Enabled(s, a) && InTime(s, a)
    ensures Inv(Step(s, a), ViewStep(s, g, a))
  {
    match a
    case Connect => hide *; ConnectKeeps(s, g);
    case BeginEmit => hide *; BeginKeeps(s, g);
    case Append(e) => hide *; AppendKeeps(s, g, e);
    case Unlock(e) => hide Step, Inv; UnlockKeeps(s, g, e);
    case Arrive(e) => hide Step, Inv; ArriveKeeps(s, g, e);
    case Finish(e) => hide Step, Inv; FinishKeeps(s, g, e);
    case ReuseFrame(e, junk) => hide Step, Inv; ReuseKeeps(s, g, e, junk);
    case Await(o) => hide Step, Inv; AwaitKeeps(s, g, o);
    case Take(o) => hide *; TakeKeeps(s, g, o);
    case DropGuard(o, i) => hide *; DropKeeps(s, g, o, i);
    case BeginLeave(o) => hide Step, Inv; BeginLeaveKeeps(s, g, o);
    case LeaveCount(o) => hide *; LeaveCountKeeps(s, g, o);
    case LeaveNext(o) => hide Step, Inv; LeaveNextKeeps(s, g, o);
    case EndLeave(o) => hide Step, Inv; EndLeaveKeeps(s, g, o);
  }

  /** The emit whose result observer `o` receives in this step. */
  function TakeOf(s: State, a: Action, o: nat): seq<nat>
    requires Enabled(s, a)
  {
    if a == Take(o) && s.obs[o].link.result != Null then [s.obs[o].link.result.ref.e] else []
  }

  function ReceivedBy(g: View, o: nat): seq<nat> { if o < |g.received| then g.received[o] else [] }

  lemma {:induction false} ReceivedStep(s: State, g: View, a: Action, o: nat)
    requires Inv(s, g) && Enabled(s, a)
    ensures ReceivedBy(ViewStep(s, g, a), o) == ReceivedBy(g, o) + TakeOf(s, a, o)
  {
    if a.Take? {
      assert ObserverOk(s.emits, g.status, a.o, s.obs[a.o], g.queues[a.o]);
    }
    hide EmitsOk, ObserversOk, AllPlaced, Lock, Levels, History;
  }

  // ---------------------------------------------------------------------------------------------
  // Whole runs

  ghost predicate Runs(s: State, acts: seq<Action>)
    decreases |acts|, 0
  {
    acts == [] || (Runs(s, acts[..|acts| - 1]) && Enabled(After(s, acts[..|acts| - 1]), acts[|acts| - 1]))
  }

  ghost function After(s: State, acts: seq<Action>): State
    requires Runs(s, acts)
    decreases |acts|, 1
  {
    if acts == [] then s else Step(After(s, acts[..|acts| - 1]), acts[|acts| - 1])
  }

  ghost predicate AllInTime(s: State, acts: seq<Action>)
    requires Runs(s, acts)
    decreases |acts|
  {
    acts == [] || (AllInTime(s, acts[..|acts| - 1]) && InTime(After(s, acts[..|acts| - 1]), acts[|acts| - 1]))
  }

  /** The emits whose results observer `o` has received, in the order it received them. */
  ghost function AllReceived(s: State, acts: seq<Action>, o: nat): seq<nat>
    requires Runs(s, acts)
    decreases |acts|
  {
    if acts == [] then []
    else AllReceived(s, acts[..|acts| - 1], o) + TakeOf(After(s, acts[..|acts| - 1]), acts[|acts| - 1], o)
  }

  lemma {:induction false} RunKeeps(s: State, acts: seq<Action>) returns (g: View)
    requires Init(s) && Runs(s, acts) && AllInTime(s, acts)
    ensures Inv(After(s, acts), g) && forall o :: ReceivedBy(g, o) == AllReceived(s, acts, o)
    decreases |acts|
  {
    hide Step, Enabled, Inv, InTime, TakeOf;
    if acts == [] {
      g := InitView(s);
    } else {
      var n := |acts| - 1;
      g := RunKeeps(s, acts[..n]);
      StepKeeps(After(s, acts[..n]), g, acts[n]);
      forall o: nat ensures ReceivedBy(ViewStep(After(s, acts[..n]), g, acts[n]), o) == AllReceived(s, acts, o) {
        ReceivedStep(After(s, acts[..n]), g, acts[n], o);
      }
      g := ViewStep(After(s, acts[..n]), g, acts[n]);
    }
  }

  lemma InitView(s: State) returns (g: View)
    requires Init(s)
    ensures Inv(s, g) && g.received == []
  {
    g := View([], [], []);
  }

  lemma CrashStays(s: State, a: Action)
    requires Enabled(s, a) && s.crashed
    ensures Step(s, a).crashed
  {
  }

  /** A run reads a node or an observer that is gone exactly when a destructor reads a link too late: every other
      access of emit(), of the observers, of their guards and of the destructor is safe in every run. */
  lemma {:induction false} CrashIffLate(s: State, acts: seq<Action>)
    requires Init(s) && Runs(s, acts)
    ensures After(s, acts).crashed <==> !AllInTime(s, acts)
    decreases |acts|
  {
    hide Step, Enabled, InTime;
    if acts != [] {
      var n := |acts| - 1;
      var c := After(s, acts[..n]);
      CrashIffLate(s, acts[..n]);
      if AllInTime(s, acts[..n]) {
        var g := RunKeeps(s, acts[..n]);
        StepKeeps(c, g, acts[n]);
        assert InTime(c, acts[n]) ==> !Step(c, acts[n]).crashed by { hide Runs, After, AllInTime; }
      } else {
        CrashStays(c, acts[n]);
      }
    }
  }

  // ---------------------------------------------------------------------------------------------
  // What follows in every reachable state

  /** Where `n` links lead from `p`. */
  ghost function Chain(emits: seq<Emit>, p: Ptr, n: nat): Ptr
    decreases n
  {
    if n == 0 then p
    else if p == Null || p.ref.e >= |emits| || p.ref.k >= |emits[p.ref.e].next| then Null
    else Chain(emits, emits[p.ref.e].next[p.ref.k], n - 1)
  }

  /** Where the unread results of observer `o` begin. */
  function Head(s: State, o: nat): Ptr
    requires o < |s.obs|
  {
    match s.obs[o].link
    case Connected(result) => result
    case Leaving(ptr, false) => ptr
    case Leaving(ptr, true) =>
      if ptr == Null || ptr.ref.e >= |s.emits| || ptr.ref.k >= |s.emits[ptr.ref.e].next| then Null
      else s.emits[ptr.ref.e].next[ptr.ref.k]
    case Gone => Null
  }

  /** The destructor of `o` is not about to read a link that is gone. */
  predicate Intact(s: State, o: nat) { Enabled(s, LeaveNext(o)) ==> InTime(s, LeaveNext(o)) }

  lemma {:induction false} ChainIsQueue(emits: seq<Emit>, q: seq<Ref>, i: nat, n: nat)
    requires forall j :: 0 <= j < |q| ==> Alive(emits, q[j])
    requires forall j :: 0 <= j < |q| ==> LinkedAt(emits, q, j)
    ensures Chain(emits, PtrAt(q, i), n) == PtrAt(q, i + n)
    decreases n
  {
    if n > 0 && i < |q| {
      assert LinkedAt(emits, q, i) && Alive(emits, q[i]);
      ChainIsQueue(emits, q, i + 1, n - 1);
    }
  }

  lemma QueueIsAlive(s: State, g: View, o: nat)
    requires Inv(s, g) && o < |s.obs|
    ensures forall i :: 0 <= i < |g.queues[o]| ==> Alive(s.emits, g.queues[o][i])
  {
    var q := g.queues[o];
    assert ObserverOk(s.emits, g.status, o, s.obs[o], q);
    hide Lock, Levels, AllPlaced, History, ObserversOk;
    forall i | 0 <= i < |q| ensures Alive(s.emits, q[i]) {
      assert Is(s.emits, g.status, q[i], o, Queued);
      UnreadIsAlive(s.emits[q[i].e], g.status[q[i].e], q[i].k);
    }
  }

  /** The links from the head of an observer are its queue. */
  lemma QueueIsChain(s: State, g: View, o: nat, n: nat)
    requires Inv(s, g) && o < |s.obs| && Intact(s, o)
    ensures Chain(s.emits, Head(s, o), n) == PtrAt(g.queues[o], n)
  {
    QueueIsAlive(s, g, o);
    assert ObserverOk(s.emits, g.status, o, s.obs[o], g.queues[o]);
    hide Lock, Levels, AllPlaced, History, ObserversOk, EmitsOk, GuardsOk, Chain;
    ChainIsQueue(s.emits, g.queues[o], 0, n);
  }

  /** Node `k` of emit `e` keeps the latch from opening: it is still to be linked, waits in the queue of its
      observer, or is guarded by it. */
  ghost predicate Held(s: State, queues: seq<seq<Ref>>, e: nat, k: nat)
    requires e < |s.emits| && k < |s.emits[e].targets|
  {
    var o := s.emits[e].targets[k];
    || k >= |s.emits[e].next|
    || (o < |queues| && Ref(e, k) in queues[o])
    || (o < |s.obs| && Ref(e, k) in s.obs[o].guards)
  }

  ghost function HeldNodes(s: State, queues: seq<seq<Ref>>, e: nat): seq<bool>
    requires e < |s.emits|
  {
    seq(|s.emits[e].targets|, k requires 0 <= k < |s.emits[e].targets| => Held(s, queues, e, k))
  }

  predicate Yes(b: bool) { b }

  lemma HeldIffUnread(s: State, g: View, e: nat, k: nat)
    requires Inv(s, g) && e < |s.emits| && k < |s.emits[e].targets|
    ensures |g.status[e]| == |s.emits[e].targets|
    ensures Held(s, g.queues, e, k) <==> Unread(g.status[e][k])
  {
    assert EmitOk(s.emits[e], g.status[e]) && Placed(s, g, e, k);
    var o := s.emits[e].targets[k];
    assert ObserverOk(s.emits, g.status, o, s.obs[o], g.queues[o]);
    hide Lock, Levels, AllPlaced, History, ObserversOk, EmitsOk;
    if Ref(e, k) in g.queues[o] {
      var i :| 0 <= i < |g.queues[o]| && g.queues[o][i] == Ref(e, k);
      assert Is(s.emits, g.status, g.queues[o][i], o, Queued);
    }
    if Ref(e, k) in s.obs[o].guards {
      var i :| 0 <= i < |s.obs[o].guards| && s.obs[o].guards[i] == Ref(e, k);
      assert Is(s.emits, g.status, s.obs[o].guards[i], o, Guarded);
    }
  }

  lemma {:induction false} CountSame<T, U>(a: seq<T>, p: T -> bool, b: seq<U>, q: U -> bool)
    requires |a| == |b| && forall i :: 0 <= i < |a| ==> p(a[i]) == q(b[i])
    ensures Count(a, p) == Count(b, q)
  {
    if a != [] {
      CountSame(a[..|a| - 1], p, b[..|b| - 1], q);
    }
  }

  lemma LatchCount(s: State, g: View, e: nat)
    requires Inv(s, g) && e < |s.emits|
    ensures s.emits[e].count == Count(HeldNodes(s, g.queues, e), Yes)
      + (if s.emits[e].phase == Appending || s.emits[e].phase == Arriving then 1 else 0)
  {
    assert EmitOk(s.emits[e], g.status[e]);
    hide Inv, Held;
    forall k | 0 <= k < |s.emits[e].targets| ensures Held(s, g.queues, e, k) <==> Unread(g.status[e][k]) {
      HeldIffUnread(s, g, e, k);
    }
    CountSame(HeldNodes(s, g.queues, e), Yes, g.status[e], Unread);
  }

  /** Lifetime. However the emits are interleaved: the queue of each observer is the chain of links from its head;
      every node in a queue and every guarded node belongs to an emit whose frame is still there; and the latch of
      every emit counts the emitter until it arrives and each node that is not linked yet, queued or guarded. */
  lemma {:induction false} Lifetime(s: State, acts: seq<Action>) returns (queues: seq<seq<Ref>>)
    requires Init(s) && Runs(s, acts) && AllInTime(s, acts)
    ensures var c := After(s, acts);
      && |queues| == |c.obs|
      && (forall o, n: nat :: 0 <= o < |c.obs| && Intact(c, o) ==>
            Chain(c.emits, Head(c, o), n) == PtrAt(queues[o], n))
      && (forall o, i :: 0 <= o < |c.obs| && 0 <= i < |queues[o]| ==> Alive(c.emits, queues[o][i]))
      && (forall o, i :: 0 <= o < |c.obs| && 0 <= i < |c.obs[o].guards| ==> Alive(c.emits, c.obs[o].guards[i]))
      && (forall e :: 0 <= e < |c.emits| ==>
            c.emits[e].count == Count(HeldNodes(c, queues, e), Yes)
              + (if c.emits[e].phase == Appending || c.emits[e].phase == Arriving then 1 else 0))
  {
    var g := RunKeeps(s, acts);
    var c := After(s, acts);
    queues := g.queues;
    assert |queues| == |c.obs|;
    hide Inv, Runs, After, AllInTime, Chain, Head, Intact, Alive, HeldNodes;
    forall o, n: nat | 0 <= o < |c.obs| && Intact(c, o) ensures Chain(c.emits, Head(c, o), n) == PtrAt(queues[o], n) {
      QueueIsChain(c, g, o, n);
    }
    forall o | 0 <= o < |c.obs| ensures forall i :: 0 <= i < |queues[o]| ==> Alive(c.emits, queues[o][i]) {
      QueueIsAlive(c, g, o);
    }
    forall o, i | 0 <= o < |c.obs| && 0 <= i < |c.obs[o].guards| ensures Alive(c.emits, c.obs[o].guards[i]) {
      GuardIsAlive(c, g, o, i);
    }
    forall e | 0 <= e < |c.emits|
      ensures c.emits[e].count == Count(HeldNodes(c, queues, e), Yes)
        + (if c.emits[e].phase == Appending || c.emits[e].phase == Arriving then 1 else 0)
    {
      LatchCount(c, g, e);
    }
  }

  /** A connected observer that is a target of emit `e` has received it, has it in its queue, or is about to. */
  lemma TargetHas(s: State, g: View, o: nat, e: nat)
    requires Inv(s, g) && o < |s.obs| && s.obs[o].link.Connected? && e < |s.emits| && s.obs[o].first <= e
    ensures e in g.received[o] || s.mutex == ByEmit(e) || (exists i :: 0 <= i < |g.queues[o]| && g.queues[o][i].e == e)
  {
    assert ObserverOk(s.emits, g.status, o, s.obs[o], g.queues[o]);
    assert InOrder(s.emits, o, s.obs[o], g.received[o]);
    var ob, q := s.obs[o], g.queues[o];
    assert ob.first + ob.taken + |q| == Level(s, o);
    hide Lock, AllPlaced, History, ObserversOk, EmitsOk, GuardsOk;
    if e < ob.first + ob.taken {
      assert g.received[o][e - ob.first] == e;
    } else if e < Level(s, o) {
      assert q[e - ob.first - ob.taken].e == e;
    }
  }

  /** Order. What an observer has received are the emits from its connection on, each once and in the order in which
      they held the mutex; all of them were made for it; whatever it has not received yet waits in its queue,
      unless the emit still holds the mutex; and it never sleeps while something waits there. */
  lemma {:induction false} ReceivedInOrder(s: State, acts: seq<Action>, o: nat)
    requires Init(s) && Runs(s, acts) && AllInTime(s, acts) && o < |After(s, acts).obs|
    ensures var c, got := After(s, acts), AllReceived(s, acts, o);
      && |got| == c.obs[o].taken
      && (forall j :: 0 <= j < |got| ==>
            got[j] == c.obs[o].first + j && got[j] < |c.emits| && o in c.emits[got[j]].targets)
      && (c.obs[o].link.Connected? ==>
            && (forall e :: c.obs[o].first <= e < |c.emits| && e !in got && c.mutex != ByEmit(e) ==> Waits(c, o, e))
            && (c.obs[o].consumer == Suspended ==> c.obs[o].link.result == Null))
  {
    var g := RunKeeps(s, acts);
    assert |g.received| == |After(s, acts).obs|;
    assert ReceivedBy(g, o) == AllReceived(s, acts, o);
    hide Inv, Runs, After, AllInTime, AllReceived, Waits;
    InOrderOf(After(s, acts), g, o);
  }

  lemma InOrderOf(c: State, g: View, o: nat)
    requires Inv(c, g) && o < |c.obs|
    ensures var got := g.received[o];
      && |got| == c.obs[o].taken
      && (forall j :: 0 <= j < |got| ==>
            got[j] == c.obs[o].first + j && got[j] < |c.emits| && o in c.emits[got[j]].targets)
      && (c.obs[o].link.Connected? ==>
            && (forall e :: c.obs[o].first <= e < |c.emits| && e !in got && c.mutex != ByEmit(e) ==> Waits(c, o, e))
            && (c.obs[o].consumer == Suspended ==> c.obs[o].link.result == Null))
  {
    assert ObserverOk(c.emits, g.status, o, c.obs[o], g.queues[o]);
    assert InOrder(c.emits, o, c.obs[o], g.received[o]);
    hide Inv, Waits;
    if c.obs[o].link.Connected? {
      forall e | c.obs[o].first <= e < |c.emits| && e !in g.received[o] && c.mutex != ByEmit(e) ensures Waits(c, o, e) {
        ItWaits(c, g, o, e);
      }
    }
  }

  lemma ItWaits(c: State, g: View, o: nat, e: nat)
    requires Inv(c, g) && o < |c.obs| && c.obs[o].link.Connected?
    requires c.obs[o].first <= e < |c.emits| && e !in g.received[o] && c.mutex != ByEmit(e)
    ensures Waits(c, o, e)
  {
    TargetHas(c, g, o, e);
    var i :| 0 <= i < |g.queues[o]| && g.queues[o][i].e == e;
    QueueIsChain(c, g, o, i);
  }

  /** A result of emit `e` can be reached from the head of observer `o`. */
  ghost predicate Waits(s: State, o: nat, e: nat) {
    o < |s.obs| && exists n: nat :: var p := Chain(s.emits, Head(s, o), n); p != Null && p.ref.e == e
  }

  /** An emit resumes only after each observer connected at emission has received the result and destroyed the
      guard, or has been disconnected. */
  lemma {:induction false} FinishedMeansRead(s: State, acts: seq<Action>, e: nat, o: nat)
    requires Init(s) && Runs(s, acts) && AllInTime(s, acts)
    requires var c := After(s, acts); e < |c.emits| && c.emits[e].phase == Finished && o in c.emits[e].targets
    ensures var c := After(s, acts);
      && o < |c.obs| && (forall r :: r in c.obs[o].guards ==> r.e != e)
      && (c.obs[o].link.Connected? ==> e in AllReceived(s, acts, o))
  {
    var g := RunKeeps(s, acts);
    var c := After(s, acts);
    var k :| 0 <= k < |c.emits[e].targets| && c.emits[e].targets[k] == o;
    assert ReceivedBy(g, o) == AllReceived(s, acts, o);
    hide Runs, After, AllInTime, AllReceived;
    ReadIfFinished(c, g, e, k);
  }

  lemma ReadIfFinished(s: State, g: View, e: nat, k: nat)
    requires Inv(s, g) && e < |s.emits| && s.emits[e].phase == Finished && k < |s.emits[e].targets|
    ensures var o := s.emits[e].targets[k];
      && o < |s.obs| && (forall r :: r in s.obs[o].guards ==> r.e != e)
      && (s.obs[o].link.Connected? ==> e in g.received[o])
  {
    var o := s.emits[e].targets[k];
    assert EmitOk(s.emits[e], g.status[e]) && Placed(s, g, e, k);
    forall r | r in s.obs[o].guards ensures r.e != e {
      var i :| 0 <= i < |s.obs[o].guards| && s.obs[o].guards[i] == r;
      GuardIsAlive(s, g, o, i);
    }
    QueueIsAlive(s, g, o);
    if s.obs[o].link.Connected? {
      TargetHas(s, g, o, e);
    }
  }

  // ---------------------------------------------------------------------------------------------
  // When the destructor is in time

  /** Every observer that leaves has read all its results. */
  ghost predicate LeavesEmpty(s: State, acts: seq<Action>)
    requires Runs(s, acts)
    decreases |acts|
  {
    acts == []
    || (LeavesEmpty(s, acts[..|acts| - 1])
        && var c, a := After(s, acts[..|acts| - 1]), acts[|acts| - 1];
        a.BeginLeave? ==> c.obs[a.o].link.result == Null)
  }

  predicate NothingToLeave(s: State) {
    forall o :: 0 <= o < |s.obs| && s.obs[o].link.Leaving? ==> s.obs[o].link.ptr == Null
  }

  lemma EmptyStep(s: State, a: Action)
    requires Enabled(s, a) && NothingToLeave(s) && (a.BeginLeave? ==> s.obs[a.o].link.result == Null)
    ensures NothingToLeave(Step(s, a)) && InTime(s, a)
  {
    if a.Append? && !Step(s, a).crashed {
      hide Tail;
    }
  }

  lemma EmptyInit(s: State)
    requires Init(s)
    ensures NothingToLeave(s)
  {
  }

  /** Observers that read everything before they leave never make a run crash. */
  lemma {:induction false} EmptyLeaversAreSafe(s: State, acts: seq<Action>)
    requires Init(s) && Runs(s, acts) && LeavesEmpty(s, acts)
    ensures !After(s, acts).crashed
  {
    EmptyRun(s, acts);
    CrashIffLate(s, acts);
  }

  lemma {:induction false} EmptyRun(s: State, acts: seq<Action>)
    requires Init(s) && Runs(s, acts) && LeavesEmpty(s, acts)
    ensures NothingToLeave(After(s, acts)) && AllInTime(s, acts)
    decreases |acts|
  {
    hide Step, Enabled, NothingToLeave, InTime;
    if acts == [] {
      EmptyInit(s);
    } else {
      var n := |acts| - 1;
      EmptyRun(s, acts[..n]);
      EmptyStep(After(s, acts[..n]), acts[n]);
    }
  }

  /** Whenever a destructor gives up the last unread node of a waiting emit, the emit may resume before the
      destructor reads the link: two steps later it can read a frame that is gone. */
  lemma LastReaderMayBeLate(s: State, o: nat)
    requires Enabled(s, LeaveCount(o)) && Alive(s.emits, s.obs[o].link.ptr.ref)
    requires var em := s.emits[s.obs[o].link.ptr.ref.e]; em.phase == Waiting && em.count == 1
    ensures var e, c := s.obs[o].link.ptr.ref.e, Step(s, LeaveCount(o));
      && Enabled(c, Finish(e)) && Enabled(Step(c, Finish(e)), LeaveNext(o))
      && !InTime(Step(c, Finish(e)), LeaveNext(o)) && Step(Step(c, Finish(e)), LeaveNext(o)).crashed
  {
  }

  lemma Begin(s: State) returns (acts: seq<Action>)
    ensures acts == [] && Runs(s, acts) && After(s, acts) == s
  {
    acts := [];
  }

  lemma Extend(s: State, acts: seq<Action>, a: Action) returns (acts': seq<Action>, c: State)
    requires Runs(s, acts) && Enabled(After(s, acts), a)
    ensures acts' == acts + [a] && Runs(s, acts') && After(s, acts') == c == Step(After(s, acts), a)
  {
    acts' := acts + [a];
    assert acts'[..|acts'| - 1] == acts;
    c := Step(After(s, acts), a);
  }

  /** One observer, one emit, and an observer that leaves without having read. */
  lemma {:induction false} OneEmit(s: State) returns (acts: seq<Action>, c: State)
    requires Init(s)
    ensures Runs(s, acts) && After(s, acts) == c && |acts| == 5
    ensures c == State([Emit([0], [Null], 1, Waiting)], [Observer(Connected(To(Ref(0, 0))), Free, [], 0, 0)], [0],
                       Unlocked, false)
  {
    hide Runs, After;
    acts := Begin(s);
    acts, c := Extend(s, acts, Connect);
    assert c.observers == [0] && c.obs == [Observer(Connected(Null), Free, [], 0, 0)];
    acts, c := Extend(s, acts, BeginEmit);
    assert c.emits == [Emit([0], [], 2, Appending)];
    acts, c := Extend(s, acts, Append(0));
    assert c.emits[0].next == [Null];
    assert c.emits == [Emit([0], [Null], 2, Appending)];
    assert c.obs == [Observer(Connected(To(Ref(0, 0))), Free, [], 0, 0)];
    acts, c := Extend(s, acts, Unlock(0));
    acts, c := Extend(s, acts, Arrive(0));
    assert c.emits == [Emit([0], [Null], 1, Waiting)];
  }

  /** The shortest such run: it reads the link of a node after the emit that owns the node has been resumed. */
  lemma {:induction false} LateRead() returns (s: State, acts: seq<Action>)
    ensures Init(s) && Runs(s, acts) && After(s, acts).crashed
    ensures |acts| == 9 && acts[8] == LeaveNext(0)
  {
    hide Runs, After;
    s := State([], [], [], Unlocked, false);
    var c: State;
    acts, c := OneEmit(s);
    acts, c := Extend(s, acts, BeginLeave(0));
    acts, c := Extend(s, acts, LeaveCount(0));
    assert c.emits == [Emit([0], [Null], 0, Waiting)];
    acts, c := Extend(s, acts, Finish(0));
    acts, c := Extend(s, acts, LeaveNext(0));
  }
}
