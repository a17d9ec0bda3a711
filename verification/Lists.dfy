/** Counting over coroutine tables, and intrusive singly linked chains. */
module Lists {

  /** How many entries of a coroutine table satisfy `p`. */
  ghost function Count<T>(s: seq<T>, p: T -> bool): nat {
    if s == [] then 0 else Count(s[..|s| - 1], p) + (if p(s[|s| - 1]) then 1 else 0)
  }

  lemma {:induction false} CountUpdate<T>(s: seq<T>, i: nat, x: T, p: T -> bool)
    requires i < |s|
    ensures Count(s[i := x], p) == Count(s, p) - (if p(s[i]) then 1 else 0) + (if p(x) then 1 else 0)
  {
    var n := |s| - 1;
    if i == n {
      assert s[i := x][..n] == s[..n];
    } else {
      assert s[i := x][..n] == s[..n][i := x];
      CountUpdate(s[..n], i, x, p);
    }
  }

  /** An entry that satisfies `p` is counted; a positive count names one. */
  lemma {:induction false} CountPositive<T>(s: seq<T>, p: T -> bool)
    ensures Count(s, p) > 0 <==> exists i :: 0 <= i < |s| && p(s[i])
  {
    if s != [] {
      var n := |s| - 1;
      CountPositive(s[..n], p);
      if Count(s[..n], p) > 0 {
        var i :| 0 <= i < n && p(s[..n][i]);
        assert p(s[i]);
      }
      if i :| 0 <= i < |s| && p(s[i]) {
        assert i < n ==> p(s[..n][i]);
      }
    }
  }

  /** A machine word of an intrusive list: zero, the one-bit flag, or a node address. */
  datatype Word = Zero | Flag | Node(id: nat)

  /** From `w` one meets `log[lo]`, ..., `log[hi - 1]` in that order, and then zero. */
  ghost predicate Forward(next: seq<Word>, log: seq<nat>, lo: nat, hi: nat, w: Word)
    requires lo <= hi <= |log|
  {
    && w == (if lo < hi then Node(log[lo]) else Zero)
    && (forall i :: lo <= i < hi ==> log[i] < |next|)
    && (forall i, j :: lo <= i < j < hi && j == i + 1 ==> next[log[i]] == Node(log[j]))
    && (lo < hi ==> next[log[hi - 1]] == Zero)
  }

  /** From `w` one meets `log[hi - 1]`, ..., `log[lo]` in that order, and then `end`. */
  ghost predicate Backward(next: seq<Word>, log: seq<nat>, lo: nat, hi: nat, w: Word, end: Word)
    requires lo <= hi <= |log|
  {
    && w == (if lo < hi then Node(log[hi - 1]) else end)
    && (forall i :: lo <= i < hi ==> log[i] < |next|)
    && (forall i, j :: lo <= i < j < hi && j == i + 1 ==> next[log[j]] == Node(log[i]))
    && (lo < hi ==> next[log[lo]] == end)
  }

  /** A chain survives every change that touches neither its nodes nor its stretch of the log. */
  lemma ForwardFrame(next: seq<Word>, next': seq<Word>, log: seq<nat>, log': seq<nat>, lo: nat, hi: nat, w: Word)
    requires lo <= hi <= |log| && hi <= |log'| && Forward(next, log, lo, hi, w) && |next'| == |next|
    requires forall i :: lo <= i < hi ==> log'[i] == log[i]
    requires forall i :: lo <= i < hi ==> next'[log[i]] == next[log[i]]
    ensures Forward(next', log', lo, hi, w)
  {
  }

  lemma BackwardFrame(next: seq<Word>, next': seq<Word>, log: seq<nat>, log': seq<nat>, lo: nat, hi: nat,
                      w: Word, end: Word)
    requires lo <= hi <= |log| && hi <= |log'| && Backward(next, log, lo, hi, w, end) && |next'| == |next|
    requires forall i :: lo <= i < hi ==> log'[i] == log[i]
    requires forall i :: lo <= i < hi ==> next'[log[i]] == next[log[i]]
    ensures Backward(next', log', lo, hi, w, end)
  {
  }

  /** The word of a stack tells whether it is empty. */
  lemma BackwardHead(next: seq<Word>, log: seq<nat>, lo: nat, hi: nat, w: Word, end: Word)
    requires lo <= hi <= |log| && Backward(next, log, lo, hi, w, end) && !end.Node?
    ensures (w.Node? <==> lo < hi) && (lo == hi ==> w == end)
  {
  }

  /** Linking a new node in front of a stack. */
  lemma BackwardPush(next: seq<Word>, log: seq<nat>, lo: nat, w: Word, end: Word, t: nat)
    requires lo <= |log| && Backward(next, log, lo, |log|, w, end) && t < |next|
    requires forall i :: lo <= i < |log| ==> log[i] != t
    ensures Backward(next[t := w], log + [t], lo, |log| + 1, Node(t), end)
  {
  }

  /** One turn of an in-place reversal: the head of the backward chain becomes the head of the forward one. */
  lemma ReverseOne(next: seq<Word>, log: seq<nat>, lo: nat, mid: nat, hi: nat, head: Word, rest: Word, end: Word)
    requires lo < mid <= hi <= |log| && DistinctFrom(log, lo)
    requires Forward(next, log, mid, hi, head) && Backward(next, log, lo, mid, rest, end)
    ensures rest == Node(log[mid - 1]) && rest.id < |next|
    ensures Forward(next[rest.id := head], log, mid - 1, hi, rest)
    ensures Backward(next[rest.id := head], log, lo, mid - 1, next[rest.id], end)
  {
    var n, next' := log[mid - 1], next[log[mid - 1] := head];
    assert mid - 1 > lo ==> next[n] == Node(log[mid - 2]);
    ForwardFrame(next, next', log, log, mid, hi, head);
    assert Forward(next', log, mid - 1, hi, rest);
    BackwardFrame(next, next', log, log, lo, mid - 1, next[n], end);
  }

  /** Unlinking the first node of a forward chain. */
  lemma ForwardPop(next: seq<Word>, log: seq<nat>, lo: nat, hi: nat, w: Word)
    requires lo < hi <= |log| && Forward(next, log, lo, hi, w)
    ensures w == Node(log[lo]) && log[lo] < |next| && Forward(next, log, lo + 1, hi, next[log[lo]])
  {
    assert lo + 1 < hi ==> next[log[lo]] == Node(log[lo + 1]);
  }

  /** Linking a node in front of a list, and stepping past its first node. */
  lemma ForwardCons(next: seq<Word>, s: seq<nat>, w: Word, t: nat)
    requires Forward(next, s, 0, |s|, w) && t < |next| && t !in s
    ensures Forward(next[t := w], [t] + s, 0, |s| + 1, Node(t))
  {
    var s', next' := [t] + s, next[t := w];
    forall i, j | 0 <= i < j < |s'| && j == i + 1 ensures next'[s'[i]] == Node(s'[j]) {
      if i > 0 {
        assert next[s[i - 1]] == Node(s[j - 1]);
      }
    }
    assert |s| > 0 ==> s'[|s|] == s[|s| - 1];
  }

  lemma ForwardTail(next: seq<Word>, s: seq<nat>, w: Word)
    requires s != [] && Forward(next, s, 0, |s|, w)
    ensures w == Node(s[0]) && s[0] < |next| && Forward(next, s[1..], 0, |s| - 1, next[s[0]])
  {
    ForwardPop(next, s, 0, |s|, w);
    var s' := s[1..];
    forall i, j | 0 <= i < j < |s'| && j == i + 1 ensures next[s'[i]] == Node(s'[j]) {
      assert next[s[i + 1]] == Node(s[j + 1]);
    }
    assert |s'| > 0 ==> s'[|s'| - 1] == s[|s| - 1];
  }

  /** No value occurs twice from position `lo` on. */
  ghost predicate DistinctFrom(log: seq<nat>, lo: nat) {
    forall i, j :: lo <= i < j < |log| ==> log[i] != log[j]
  }

  ghost predicate Queued(log: seq<nat>, lo: nat, t: nat) { exists i :: lo <= i < |log| && log[i] == t }

  /** The coroutines asleep are exactly those logged from `lo` on, each of them once. */
  ghost predicate Sleepers<T>(pc: seq<T>, asleep: T -> bool, log: seq<nat>, lo: nat) {
    && DistinctFrom(log, lo)
    && (forall i :: lo <= i < |log| ==> log[i] < |pc| && asleep(pc[log[i]]))
    && (forall t :: 0 <= t < |pc| && asleep(pc[t]) ==> Queued(log, lo, t))
  }

  lemma SleepersFrame<T>(pc: seq<T>, asleep: T -> bool, log: seq<nat>, lo: nat, t: nat, p: T)
    requires Sleepers(pc, asleep, log, lo) && t < |pc| && !asleep(pc[t]) && !asleep(p)
    ensures Sleepers(pc[t := p], asleep, log, lo)
  {
  }

  lemma SleepersPush<T>(pc: seq<T>, asleep: T -> bool, log: seq<nat>, lo: nat, t: nat, p: T)
    requires Sleepers(pc, asleep, log, lo) && lo <= |log| && t < |pc| && !asleep(pc[t]) && asleep(p)
    ensures Sleepers(pc[t := p], asleep, log + [t], lo)
    ensures forall i :: lo <= i < |log| ==> log[i] != t && log[i] < |pc|
  {
    var log' := log + [t];
    assert log'[|log|] == t;
    forall u | 0 <= u < |pc| && u != t && asleep(pc[u]) ensures Queued(log', lo, u) {
      var i :| lo <= i < |log| && log[i] == u;
      assert log'[i] == u;
    }
  }

  lemma SleepersPop<T>(pc: seq<T>, asleep: T -> bool, log: seq<nat>, lo: nat, p: T)
    requires Sleepers(pc, asleep, log, lo) && lo < |log| && !asleep(p)
    ensures Sleepers(pc[log[lo] := p], asleep, log, lo + 1)
  {
    forall u | 0 <= u < |pc| && u != log[lo] && asleep(pc[u]) ensures Queued(log, lo + 1, u) {
      var i :| lo <= i < |log| && log[i] == u;
    }
  }

  /** Where `n` links lead from `w`. */
  ghost function Follow(next: seq<Word>, w: Word, n: nat): Word
    decreases n
  {
    if n == 0 then w
    else if !w.Node? || w.id >= |next| then Zero
    else Follow(next, next[w.id], n - 1)
  }

  /** One comes across node `t` on the way from `w`. */
  ghost predicate Meets(next: seq<Word>, w: Word, t: nat) { exists n: nat :: Follow(next, w, n) == Node(t) }

  /** Following the links of a forward chain is going along the log. */
  lemma {:induction false} FollowForward(next: seq<Word>, log: seq<nat>, lo: nat, hi: nat, w: Word, n: nat)
    requires lo <= hi <= |log| && Forward(next, log, lo, hi, w)
    ensures Follow(next, w, n) == if lo + n < hi then Node(log[lo + n]) else Zero
    decreases n
  {
    if n > 0 && lo < hi {
      ForwardPop(next, log, lo, hi, w);
      hide Forward;
      FollowForward(next, log, lo + 1, hi, next[log[lo]], n - 1);
    }
  }

  lemma MeetsForward(next: seq<Word>, log: seq<nat>, lo: nat, hi: nat, w: Word, t: nat)
    requires lo <= hi <= |log| && Forward(next, log, lo, hi, w)
    ensures Meets(next, w, t) <==> exists i :: lo <= i < hi && log[i] == t
  {
    hide Forward, Follow;
    forall n: nat ensures Follow(next, w, n) == if lo + n < hi then Node(log[lo + n]) else Zero {
      FollowForward(next, log, lo, hi, w, n);
    }
    if i :| lo <= i < hi && log[i] == t {
      assert Follow(next, w, i - lo) == Node(t);
    }
  }

  lemma MeetsNothing(next: seq<Word>, w: Word, t: nat)
    requires !w.Node?
    ensures !Meets(next, w, t)
  {
    forall n: nat ensures Follow(next, w, n) != Node(t) {
    }
  }

  /** A set of numbers below `n` has no more than `n` members. */
  lemma {:induction false} Pigeonhole(x: set<nat>, n: nat)
    requires forall t :: t in x ==> t < n
    ensures |x| <= n
  {
    if n > 0 {
      Pigeonhole(x - {n - 1}, n - 1);
    }
  }
}
