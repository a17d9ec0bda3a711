/** The intrusive lists in place, as one thread sees them: the objects, their links, and the loops that rearrange
    them.  The protocols around these loops are in BinarySemaphore, CountingSemaphore and Barrier. */
module Waiters {
  import Barrier

  /** A node of a waiting list; `drop` tells a drop token of the barrier from a waiter. */
  class Waiter {
    var next: Waiter?
    const drop: bool

    constructor (drop: bool)
      ensures this.drop == drop && next == null
    {
      this.drop := drop;
      next := null;
    }
  }

  ghost predicate Distinct(s: seq<Waiter>) { forall i, j :: 0 <= i < j < |s| ==> s[i] != s[j] }

  function At(s: seq<Waiter>, i: nat, end: Waiter?): Waiter? { if i < |s| then s[i] else end }

  ghost predicate LinkedAt(s: seq<Waiter>, i: nat, end: Waiter?)
    requires i < |s|
    reads s[i]
  {
    s[i].next == At(s, i + 1, end)
  }

  /** From `w` one meets the nodes of `s` in order, and then `end`. */
  ghost predicate Chain(s: seq<Waiter>, w: Waiter?, end: Waiter?)
    reads s
  {
    w == At(s, 0, end) && forall i :: 0 <= i < |s| ==> LinkedAt(s, i, end)
  }

  function Reversed(s: seq<Waiter>): seq<Waiter> { if s == [] then [] else Reversed(s[1..]) + [s[0]] }

  lemma {:induction false} ReversedAt(s: seq<Waiter>)
    ensures |Reversed(s)| == |s| && forall i :: 0 <= i < |s| ==> Reversed(s)[i] == s[|s| - 1 - i]
    ensures forall w :: w in Reversed(s) <==> w in s
  {
    if s != [] {
      ReversedAt(s[1..]);
      assert forall w :: w in s <==> w == s[0] || w in s[1..];
    }
  }

  lemma EmptyStack(s: seq<Waiter>)
    ensures Reversed(s) == [] <==> s == []
    ensures forall w :: w in Reversed(s) ==> w in s
  {
    ReversedAt(s);
  }

  lemma DistinctTail(s: seq<Waiter>)
    requires Distinct(s) && s != []
    ensures Distinct(s[1..]) && s[0] !in s[1..] && forall w :: w in s[1..] ==> w in s
  {
  }

  lemma {:induction false} ReversedAppend(a: seq<Waiter>, b: seq<Waiter>)
    ensures Reversed(a + b) == Reversed(b) + Reversed(a)
  {
    if a == [] {
      assert a + b == b;
    } else {
      assert (a + b)[1..] == a[1..] + b;
      ReversedAppend(a[1..], b);
    }
  }

  lemma ReversedPush(s: seq<Waiter>, w: Waiter)
    ensures Reversed(s + [w]) == [w] + Reversed(s)
  {
    ReversedAppend(s, [w]);
    assert Reversed([w]) == [w];
  }

  /** A stack has the same nodes as its queue, and turned around it is the queue. */
  lemma ReversedSame(s: seq<Waiter>)
    ensures Distinct(s) ==> Distinct(Reversed(s))
    ensures Reversed(Reversed(s)) == s && forall w :: w in Reversed(s) <==> w in s
    ensures Reversed([]) == []
  {
    ReversedAt(s);
    ReversedAt(Reversed(s));
  }

  lemma ChainTail(s: seq<Waiter>, w: Waiter?, end: Waiter?)
    requires s != [] && Chain(s, w, end)
    ensures w == s[0] && Chain(s[1..], s[0].next, end)
  {
    assert LinkedAt(s, 0, end);
    forall i | 0 <= i < |s| - 1 ensures LinkedAt(s[1..], i, end) {
      assert LinkedAt(s, i + 1, end);
    }
  }

  lemma ChainCons(s: seq<Waiter>, w: Waiter?, end: Waiter?, n: Waiter)
    requires Chain(s, w, end) && n.next == w
    ensures Chain([n] + s, n, end)
  {
    forall i | 0 <= i < |s| + 1 ensures LinkedAt([n] + s, i, end) {
      if i > 0 {
        assert LinkedAt(s, i - 1, end);
      }
    }
  }

  /** Turns a stack that ends in `end` around in place.  Every node is visited once, `end` never. */
  method Reverse(top: Waiter, end: Waiter?, ghost s: seq<Waiter>) returns (head: Waiter)
    requires s != [] && Chain(s, top, end) && Distinct(s) && (end != null ==> end !in s)
    modifies s
    ensures Chain(Reversed(s), head, null)
  {
    ChainTail(s, top, end);
    ReverseTurn(s, 0);
    ReversedSame([]);
    hide Reversed, Distinct, LinkedAt;
    // the first turn of the do loop
    head := top;
    var next := top.next;
    top.next := null;
    assert Chain([], null, null);
    ChainCons([], null, null, top);
    ghost var k := 1;
    while next != null && next != end
      invariant 1 <= k <= |s| && Chain(s[k..], next, end) && Chain(Reversed(s[..k]), head, null)
      decreases |s| - k
    {
      assert k < |s|;
      ReverseTurn(s, k);
      ChainTail(s[k..], next, end);
      var temp := next.next;
      next.next := head;
      ChainCons(Reversed(s[..k]), head, null, next);
      head := next;
      next := temp;
      k := k + 1;
    }
    assert s[..k] == s;
  }

  lemma ReverseTurn(s: seq<Waiter>, k: nat)
    requires k < |s| && Distinct(s)
    ensures s[k..][0] == s[k] && s[k..][1..] == s[k + 1..] && s[k] !in s[k + 1..]
    ensures Reversed(s[..k + 1]) == [s[k]] + Reversed(s[..k]) && s[k] !in Reversed(s[..k])
    ensures forall w :: w in s[k + 1..] ==> w in s && w != s[k]
    ensures forall w :: w in Reversed(s[..k]) ==> w in s
  {
    assert s[..k + 1] == s[..k] + [s[k]];
    ReversedPush(s[..k], s[k]);
    ReversedAt(s[..k]);
  }

  /** The stack of those who were pushed, on top of `marker`, becomes their queue. */
  method TurnAround(top: Waiter?, marker: Waiter?, ghost pushed: seq<Waiter>) returns (head: Waiter)
    requires Chain(Reversed(pushed), top, marker) && top != null && top != marker && Distinct(pushed)
    requires marker != null ==> marker !in pushed
    modifies Reversed(pushed)
    ensures Chain(pushed, head, null)
  {
    ghost var s := Reversed(pushed);
    assert s != [];
    ReversedSame(pushed);
    hide Reversed, Distinct, LinkedAt, Chain;
    head := Reverse(top, marker, s);
  }

  /** async_counting_semaphore<1>: null is free, `lockFlag` is taken, and everything else is a stack on top of
      `lockFlag`; `transfer` is the part of the queue that has been turned around. */
  class FifoSemaphore {
    var resuming: Waiter?
    var transfer: Waiter?
    const lockFlag: Waiter

    ghost var ready: seq<Waiter>
    ghost var pushed: seq<Waiter>

    /** Everybody who waits, the oldest first. */
    ghost function Queue(): seq<Waiter>
      reads this
    {
      ready + pushed
    }

    ghost predicate Locked()
      reads this
    {
      resuming != null
    }

    ghost predicate Valid()
      reads this, ready, Reversed(pushed)
    {
      && Distinct(Queue()) && lockFlag !in Queue()
      && Chain(ready, transfer, null)
      && (resuming == null ==> Queue() == [])
      && (resuming != null ==> Chain(Reversed(pushed), resuming, lockFlag))
    }

    constructor (unlocked: bool)
      ensures Valid() && Queue() == [] && Locked() == !unlocked && fresh(lockFlag)
    {
      lockFlag := new Waiter(false);
      new;
      resuming := if unlocked then null else lockFlag;
      transfer := null;
      ready, pushed := [], [];
    }

    method TryAquire() returns (taken: bool)
      requires Valid()
      modifies this`resuming
      ensures Valid() && Locked() && taken == !old(Locked())
    {
      taken := resuming == null;
      if taken { resuming := lockFlag; }
    }

    /** suspend(): takes a semaphore that has become free, or joins the end of the queue. */
    method Suspend(w: Waiter) returns (suspended: bool)
      requires Valid() && w !in Queue() && w != lockFlag
      modifies this, w
      ensures Valid() && Locked() && suspended == old(Locked())
      ensures Queue() == old(Queue()) + if suspended then [w] else []
    {
      suspended := resuming != null;
      if suspended {
        ReversedAt(pushed);
        ReversedPush(pushed, w);
        w.next := resuming;
        ChainCons(Reversed(pushed), resuming, lockFlag, w);
        resuming := w;
        pushed := pushed + [w];
        assert Queue() == old(Queue()) + [w];
      } else {
        resuming := lockFlag;
      }
    }

    /** release(): hands the semaphore to whoever waits longest, or unlocks it. */
    method Release() returns (woken: Waiter?)
      requires Valid() && Locked()
      modifies this, Reversed(pushed)
      ensures Valid()
      ensures old(Queue()) == [] ==> woken == null && Queue() == [] && !Locked()
      ensures old(Queue()) != [] ==> woken == old(Queue())[0] && Queue() == old(Queue())[1..] && Locked()
    {
      hide Distinct, LinkedAt, Reversed;
      if transfer == null {
        if resuming == lockFlag {
          EmptyStack(pushed);
          assert ready == [] && pushed == [];
          resuming := null;
          return null;
        }
        assert ready == [] && Queue() == pushed;
        var previous := resuming;
        resuming := lockFlag;
        transfer := TurnAround(previous, lockFlag, pushed);
        ready, pushed := pushed, [];
        EmptyStack([]);
        assert Queue() == old(Queue());
      }
      woken := transfer;
      ChainTail(ready, transfer, null);
      DistinctTail(Queue());
      transfer := transfer.next;
      ready := ready[1..];
      assert Queue() == old(Queue())[1..];
    }
  }

  /** async_lock_guard of async_mutex: whoever holds one with a semaphore in it owes a release. */
  class LockGuard {
    var sem: FifoSemaphore?

    constructor (sem: FifoSemaphore)
      ensures this.sem == sem
    {
      this.sem := sem;
    }

    /** The move constructor: the debt moves along, so that it is paid once. */
    constructor Move(other: LockGuard)
      modifies other
      ensures sem == old(other.sem) && other.sem == null
    {
      sem := other.sem;
      new;
      other.sem := null;
    }

    /** The destructor. */
    method Destroy() returns (woken: Waiter?)
      requires sem != null ==> sem.Valid() && sem.Locked()
      modifies sem, if sem != null then Reversed(sem.pushed) else []
      ensures sem == old(sem) && (sem == null ==> woken == null)
      ensures sem != null ==> sem.Valid()
      ensures sem != null && old(sem.Queue()) == [] ==> woken == null && sem.Queue() == [] && !sem.Locked()
      ensures sem != null && old(sem.Queue()) != [] ==>
        woken == old(sem.Queue())[0] && sem.Queue() == old(sem.Queue())[1..] && sem.Locked()
    {
      woken := null;
      if sem != null { woken := sem.Release(); }
    }
  }

  /** The waiting list of async_counting_semaphore: a stack, and the part of it that has been turned around. */
  class CountingList {
    var resuming: Waiter?
    var transfer: Waiter?

    ghost var ready: seq<Waiter>
    ghost var pushed: seq<Waiter>

    ghost function Queue(): seq<Waiter>
      reads this
    {
      ready + pushed
    }

    ghost predicate Valid()
      reads this, ready, Reversed(pushed)
    {
      Distinct(Queue()) && Chain(ready, transfer, null) && Chain(Reversed(pushed), resuming, null)
    }

    constructor ()
      ensures Valid() && Queue() == []
    {
      resuming, transfer := null, null;
      ready, pushed := [], [];
    }

    method Suspend(w: Waiter)
      requires Valid() && w !in Queue()
      modifies this, w
      ensures Valid() && Queue() == old(Queue()) + [w]
    {
      ReversedAt(pushed);
      ReversedPush(pushed, w);
      w.next := resuming;
      ChainCons(Reversed(pushed), resuming, null, w);
      resuming := w;
      pushed := pushed + [w];
      assert Queue() == old(Queue()) + [w];
    }

    /** transfer(): the oldest waiter, or null if nobody has joined the list. */
    method Transfer() returns (head: Waiter?)
      requires Valid()
      modifies this, Reversed(pushed)
      ensures Valid()
      ensures old(Queue()) == [] ==> head == null && Queue() == []
      ensures old(Queue()) != [] ==> head == old(Queue())[0] && Queue() == old(Queue())[1..]
    {
      hide Distinct, LinkedAt, Reversed;
      if transfer == null {
        EmptyStack(pushed);
        if resuming == null {
          assert ready == [] && pushed == [];
          return null;
        }
        assert ready == [] && Queue() == pushed;
        var previous := resuming;
        resuming := null;
        transfer := TurnAround(previous, null, pushed);
        ready, pushed := pushed, [];
        EmptyStack([]);
        assert Queue() == old(Queue());
      }
      head := transfer;
      ChainTail(ready, transfer, null);
      DistinctTail(Queue());
      transfer := head.next;
      ready := ready[1..];
      assert Queue() == old(Queue())[1..];
    }
  }

  /** How many nodes are drop tokens. */
  ghost function Drops(s: seq<Waiter>): nat {
    if s == [] then 0 else (if s[0].drop then 1 else 0) + Drops(s[1..])
  }

  /** One pass of aquire_window(): `head` starts moving when `expected` nodes have been counted.  It comes to rest
      on the first of the last `expected` nodes of any list (the last node if nobody is expected), and stays null if
      there are fewer. */
  method Walk(current: Waiter?, expected: int, ghost s: seq<Waiter>) returns (head: Waiter?)
    requires Chain(s, current, null)
    ensures head == if |s| < Barrier.Width(expected) then null else s[|s| - Barrier.Width(expected)]
    ensures Chain(s, current, null)
  {
    var ptr, count := current, 0;
    head := null;
    while ptr != null
      invariant 0 <= count <= |s| && ptr == At(s, count, null)
      invariant head == if count < Barrier.Width(expected) then null else s[count - Barrier.Width(expected)]
      decreases |s| - count
    {
      assert LinkedAt(s, count, null);
      ptr := ptr.next;
      count := count + 1;
      if count >= expected {
        if head == null {
          head := current;
        } else {
          assert LinkedAt(s, count - Barrier.Width(expected) - 1, null);
          head := head.next;
        }
      }
    }
  }

  lemma ChainDrop(s: seq<Waiter>, w: Waiter?, end: Waiter?, n: nat)
    requires Chain(s, w, end) && n < |s|
    ensures Chain(s[n..], s[n], end)
  {
    forall i | 0 <= i < |s| - n ensures LinkedAt(s[n..], i, end) {
      assert LinkedAt(s, n + i, end);
    }
  }

  lemma ChainTake(s: seq<Waiter>, n: nat)
    requires 0 < n <= |s| && s[n - 1].next == null
    requires forall i :: 0 <= i < n - 1 ==> LinkedAt(s, i, null)
    ensures Chain(s[..n], s[0], null)
  {
    forall i | 0 <= i < n ensures LinkedAt(s[..n], i, null) {
      assert i < n - 1 ==> LinkedAt(s, i, null);
    }
  }

  /** Looks for the node whose link is `head` and clears that link. */
  method Cut(root: Waiter, head: Waiter, ghost s: seq<Waiter>, ghost n: nat)
    requires Chain(s, root, null) && Distinct(s) && 0 < n < |s| && head == s[n]
    modifies s[..n]
    ensures Chain(s[..n], root, null) && Chain(s[n..], head, null)
  {
    ChainDrop(s, root, null, n);
    var ptr: Waiter?, i := root, 0;
    while ptr != null
      invariant 0 <= i < n && ptr == s[i]
      decreases n - i
    {
      assert LinkedAt(s, i, null);
      if ptr.next == head {
        assert i == n - 1;
        ptr.next := null;
        break;
      }
      ptr := ptr.next;
      i := i + 1;
    }
    ChainTake(s, n);
  }

  /** The list `s` has been cut into what `root` and `window` lead to, in front of its node `n`. */
  ghost predicate Parted(s: seq<Waiter>, n: nat, root: Waiter?, window: Waiter)
    reads s
  {
    n < |s| && Chain(s[..n], root, null) && Chain(s[n..], window, null)
  }

  /** Trims the window that `head` begins off the list: it is the whole list, or is cut off inside it. */
  method Trim(root: Waiter?, head: Waiter, ghost s: seq<Waiter>, ghost n: nat) returns (root': Waiter?)
    requires Chain(s, root, null) && Distinct(s) && n < |s| && head == s[n]
    modifies s
    ensures Parted(s, n, root', head)
  {
    if root == head {
      assert n == 0 && s[..n] == [] && s[n..] == s;
      root' := null;
    } else {
      root' := root;
      Cut(root, head, s, n);
    }
  }

  method CountDrops(window: Waiter, ghost s: seq<Waiter>, ghost n: nat, ghost root: Waiter?) returns (drops: nat)
    requires Parted(s, n, root, window)
    ensures Parted(s, n, root, window) && drops == Drops(s[n..])
  {
    var ptr: Waiter? := window;
    drops := 0;
    ghost var k, w := 0, s[n..];
    while ptr != null
      invariant 0 <= k <= |w| && ptr == At(w, k, null) && drops + Drops(w[k..]) == Drops(w)
      decreases |w| - k
    {
      assert LinkedAt(w, k, null);
      assert w[k..][0] == w[k] && w[k..][1..] == w[k + 1..];
      if ptr.drop { drops := drops + 1; }
      ptr := ptr.next;
      k := k + 1;
    }
  }

  /** The three loops of complete_phase() one after the other; nothing is done if there is no window yet. */
  method Detach(current: Waiter?, expected: int, ghost s: seq<Waiter>, ghost n: nat)
    returns (window: Waiter?, root: Waiter?, drops: nat)
    requires Chain(s, current, null) && Distinct(s)
    requires |s| >= Barrier.Width(expected) ==> n == |s| - Barrier.Width(expected)
    modifies s
    ensures |s| < Barrier.Width(expected) ==> window == null && root == current && drops == 0 && Chain(s, current, null)
    ensures |s| >= Barrier.Width(expected) ==> window != null && Parted(s, n, root, window) && drops == Drops(s[n..])
  {
    hide Distinct, LinkedAt, Drops, Chain;
    root, drops := current, 0;
    window := Walk(current, expected, s);
    if window != null {
      root := Trim(current, window, s, n);
      drops := CountDrops(window, s, n, root);
    }
  }

  /** The working set of the barrier: a stack of arrivals, of which a phase takes the oldest. */
  class WorkingSet {
    var workingSet: Waiter?

    /** The arrivals, the oldest first. */
    ghost var pushed: seq<Waiter>

    ghost predicate Valid()
      reads this, Reversed(pushed)
    {
      Distinct(pushed) && Chain(Reversed(pushed), workingSet, null)
    }

    constructor ()
      ensures Valid() && pushed == []
    {
      workingSet, pushed := null, [];
    }

    method Push(w: Waiter)
      requires Valid() && w !in pushed
      modifies this, w
      ensures Valid() && pushed == old(pushed) + [w]
    {
      ReversedAt(pushed);
      ReversedPush(pushed, w);
      w.next := workingSet;
      ChainCons(Reversed(pushed), workingSet, null, w);
      workingSet := w;
      pushed := pushed + [w];
    }

    /** complete_phase() up to the completion step: the window of the oldest arrivals leaves the set.  If there are too
        few of them for a window yet nothing happens, and the code tries again. */
    method TakeWindow(expected: int) returns (window: Waiter?, drops: nat)
      requires Valid()
      modifies this, Reversed(pushed)
      ensures Valid()
      ensures old(|pushed|) < Barrier.Width(expected) ==> window == null && pushed == old(pushed) && drops == 0
      ensures old(|pushed|) >= Barrier.Width(expected) ==>
        && window != null && pushed == old(pushed)[Barrier.Width(expected)..]
        && Chain(Reversed(old(pushed)[..Barrier.Width(expected)]), window, null)
        && drops == Drops(old(pushed)[..Barrier.Width(expected)])
    {
      ghost var was, e := pushed, Barrier.Width(expected);
      OldestLast(was, e);
      hide Distinct, LinkedAt, Drops, Reversed, Chain;
      var root: Waiter?;
      window, root, drops := Detach(workingSet, expected, Reversed(was), if e <= |was| then |was| - e else 0);
      workingSet := root;
      pushed := if e <= |was| then was[e..] else was;
    }
  }

  /** The oldest are the last of the stack. */
  lemma OldestLast(pushed: seq<Waiter>, e: nat)
    requires Distinct(pushed)
    ensures |Reversed(pushed)| == |pushed| && Distinct(Reversed(pushed))
    ensures e <= |pushed| ==>
      && Reversed(pushed)[..|pushed| - e] == Reversed(pushed[e..]) && Distinct(pushed[e..])
      && Reversed(pushed)[|pushed| - e..] == Reversed(pushed[..e])
      && Drops(Reversed(pushed[..e])) == Drops(pushed[..e])
  {
    ReversedSame(pushed);
    ReversedAt(pushed);
    if e <= |pushed| {
      ReversedSplit(pushed, e);
      DropsReversed(pushed[..e]);
    }
  }

  /** The stack of the younger arrivals lies on top of the stack of the older ones. */
  lemma ReversedSplit(s: seq<Waiter>, n: nat)
    requires n <= |s|
    ensures |Reversed(s)| == |s|
    ensures Reversed(s)[..|s| - n] == Reversed(s[n..]) && Reversed(s)[|s| - n..] == Reversed(s[..n])
    ensures Distinct(s) ==> Distinct(s[n..])
  {
    assert s == s[..n] + s[n..];
    ReversedAppend(s[..n], s[n..]);
    ReversedAt(s[n..]);
    ReversedAt(s[..n]);
  }

  lemma {:induction false} DropsAppend(s: seq<Waiter>, w: Waiter)
    ensures Drops(s + [w]) == Drops(s) + if w.drop then 1 else 0
  {
    if s == [] {
      assert s + [w] == [w];
    } else {
      assert (s + [w])[1..] == s[1..] + [w];
      DropsAppend(s[1..], w);
    }
  }

  lemma {:induction false} DropsReversed(s: seq<Waiter>)
    ensures Drops(Reversed(s)) == Drops(s)
  {
    if s != [] {
      DropsReversed(s[1..]);
      DropsAppend(Reversed(s[1..]), s[0]);
    }
  }
}
