/** The timer service: an ordered map from wake-up marks to handles, driven by one interval timer that is re-armed
    to the distance of the earliest mark. */
module Timer {

  const NANO_IN_SECONDS: nat := 1_000_000_000

  /** A handle to be resumed, with the number of its registration. */
  datatype Entry = Entry(handle: nat, thread: nat, ticket: nat)

  datatype Bucket = Bucket(mark: nat, entries: seq<Entry>)

  /** An interval as the kernel keeps it. */
  datatype Spec = Spec(seconds: nat, nanos: nat)

  function Split(nanoSeconds: nat): (spec: Spec)
    ensures spec.nanos < NANO_IN_SECONDS && Join(spec) == nanoSeconds
  {
    Spec(nanoSeconds / NANO_IN_SECONDS, nanoSeconds % NANO_IN_SECONDS)
  }

  function Join(spec: Spec): nat { spec.seconds * NANO_IN_SECONDS + spec.nanos }

  // ---------------------------------------------------------------------------------------------
  // Where the tickets are

  function Tickets(entries: seq<Entry>): (ts: seq<nat>)
    ensures |ts| == |entries| && forall i :: 0 <= i < |entries| ==> ts[i] == entries[i].ticket
  {
    seq(|entries|, i requires 0 <= i < |entries| => entries[i].ticket)
  }

  /** Every ticket in the buckets, in the order in which they would be resumed. */
  function AllTickets(buckets: seq<Bucket>): seq<nat> {
    if buckets == [] then [] else Tickets(buckets[0].entries) + AllTickets(buckets[1..])
  }

  ghost function Times(ts: seq<nat>, t: nat): nat { multiset(ts)[t] }

  lemma {:induction false} AllTicketsConcat(bs: seq<Bucket>, cs: seq<Bucket>)
    ensures AllTickets(bs + cs) == AllTickets(bs) + AllTickets(cs)
  {
    if bs == [] {
      assert bs + cs == cs;
    } else {
      assert (bs + cs)[1..] == bs[1..] + cs;
      AllTicketsConcat(bs[1..], cs);
    }
  }

  lemma AllTicketsOne(b: Bucket)
    ensures AllTickets([b]) == Tickets(b.entries)
  {
    assert [b][1..] == [];
  }

  lemma TimesAppend(xs: seq<nat>, ys: seq<nat>, t: nat)
    ensures Times(xs + ys, t) == Times(xs, t) + Times(ys, t)
  {
  }

  lemma TimesSingle(x: nat, t: nat)
    ensures Times([x], t) == (if t == x then 1 else 0) && Times([], t) == 0
  {
  }

  /** The tickets of three stretches of buckets. */
  lemma TimesThree(bs: seq<Bucket>, cs: seq<Bucket>, ds: seq<Bucket>, t: nat)
    ensures Times(AllTickets(bs + cs + ds), t)
         == Times(AllTickets(bs), t) + Times(AllTickets(cs), t) + Times(AllTickets(ds), t)
  {
    hide AllTickets, Times;
    AllTicketsConcat(bs + cs, ds);
    AllTicketsConcat(bs, cs);
    TimesAppend(AllTickets(bs + cs), AllTickets(ds), t);
    TimesAppend(AllTickets(bs), AllTickets(cs), t);
  }

  /** One more entry in a bucket. */
  lemma TimesMore(a: Bucket, b: Bucket, e: Entry, t: nat)
    requires b.entries == a.entries + [e]
    ensures Times(AllTickets([b]), t) == Times(AllTickets([a]), t) + (if t == e.ticket then 1 else 0)
  {
    AllTicketsOne(a);
    AllTicketsOne(b);
    assert Tickets(b.entries) == Tickets(a.entries) + [e.ticket];
    TimesAppend(Tickets(a.entries), [e.ticket], t);
    TimesSingle(e.ticket, t);
  }

  // ---------------------------------------------------------------------------------------------
  // The service

  ghost predicate Sorted(bs: seq<Bucket>) {
    forall i, j :: 0 <= i < j < |bs| ==> bs[i].mark < bs[j].mark
  }

  /** Virtual time since the service exists, and what each registration asked for. */
  datatype History = History(total: nat, starts: seq<nat>, delays: seq<nat>, done: seq<nat>)

  ghost function Deadline(h: History, t: nat): nat
    requires t < |h.starts| == |h.delays|
  {
    h.starts[t] + h.delays[t]
  }

  /** The distance from current_ to a mark is the distance from now to the deadline of everybody under it. */
  ghost predicate OnTime(bs: seq<Bucket>, current: nat, h: History) {
    && |h.starts| == |h.delays|
    && (forall i :: 0 <= i < |bs| ==> BucketOnTime(bs[i], current, h))
    && (forall t :: t in h.done ==> t < |h.starts| && Deadline(h, t) <= h.total)
  }

  ghost predicate BucketOnTime(b: Bucket, current: nat, h: History)
    requires |h.starts| == |h.delays|
  {
    && b.entries != []
    && forall e :: e in b.entries ==> e.ticket < |h.starts| && b.mark - current == Deadline(h, e.ticket) - h.total
  }

  /** Every registration waits in one place or was resumed, and only once. */
  ghost predicate Once(bs: seq<Bucket>, h: History) {
    forall t: nat :: Times(h.done, t) + Times(AllTickets(bs), t) == if t < |h.starts| then 1 else 0
  }

  /** From current_ to the earliest mark. */
  function Distance(bs: seq<Bucket>, current: nat): int { if bs == [] then 0 else bs[0].mark - current }

  ghost function Register(h: History, delay: nat): History {
    h.(starts := h.starts + [h.total], delays := h.delays + [delay])
  }

  /** Where a mark belongs: all smaller marks are before `i` and all others from `i` on. */
  ghost predicate BelongsAt(bs: seq<Bucket>, mark: nat, i: nat) {
    && i <= |bs| && (forall j :: 0 <= j < i ==> bs[j].mark < mark) && (forall j :: i <= j < |bs| ==> mark <= bs[j].mark)
  }

  /** The buckets once `e` is put under `mark` at position `i`. */
  function Put(bs: seq<Bucket>, i: nat, mark: nat, e: Entry): seq<Bucket>
    requires i <= |bs|
  {
    if i < |bs| && bs[i].mark == mark then bs[i := Bucket(mark, bs[i].entries + [e])]
    else bs[..i] + [Bucket(mark, [e])] + bs[i..]
  }

  lemma PutSorted(bs: seq<Bucket>, i: nat, mark: nat, e: Entry)
    requires Sorted(bs) && BelongsAt(bs, mark, i)
    ensures Sorted(Put(bs, i, mark, e))
  {
  }

  lemma PutTimes(bs: seq<Bucket>, bs': seq<Bucket>, i: nat, there: seq<Bucket>, a: Bucket, b: Bucket, e: Entry, t: nat)
    requires i + |there| <= |bs| && bs[i..i + |there|] == there && bs' == bs[..i] + [b] + bs[i + |there|..]
    requires there == [a] || (there == [] && a.entries == [])
    requires b.entries == a.entries + [e]
    ensures Times(AllTickets(bs'), t) == Times(AllTickets(bs), t) + if t == e.ticket then 1 else 0
  {
    var pre, post := bs[..i], bs[i + |there|..];
    assert bs == pre + there + post;
    TimesThree(pre, there, post, t);
    TimesThree(pre, [b], post, t);
    TimesMore(a, b, e, t);
    if there == [] {
      AllTicketsOne(a);
    }
  }

  lemma PutOnce(bs: seq<Bucket>, i: nat, mark: nat, e: Entry, h: History, delay: nat)
    requires i <= |bs| && Once(bs, h) && e.ticket == |h.starts|
    ensures Once(Put(bs, i, mark, e), Register(h, delay))
  {
    var bs' := Put(bs, i, mark, e);
    forall t: nat ensures Times(AllTickets(bs'), t) == Times(AllTickets(bs), t) + if t == e.ticket then 1 else 0 {
      if i < |bs| && bs[i].mark == mark {
        PutTimes(bs, bs', i, [bs[i]], bs[i], Bucket(mark, bs[i].entries + [e]), e, t);
      } else {
        var empty := Bucket(mark, []);
        PutTimes(bs, bs', i, [], empty, Bucket(mark, [e]), e, t);
      }
    }
  }

  lemma PutOnTime(bs: seq<Bucket>, i: nat, mark: nat, e: Entry, current: nat, h: History, delay: nat)
    requires i <= |bs| && OnTime(bs, current, h) && e.ticket == |h.starts| && mark == current + delay
    ensures OnTime(Put(bs, i, mark, e), current, Register(h, delay))
  {
    var bs', h' := Put(bs, i, mark, e), Register(h, delay);
    assert Deadline(h', e.ticket) == h.total + delay;
    forall j | 0 <= j < |bs'| ensures BucketOnTime(bs'[j], current, h') {
      var same := i < |bs| && bs[i].mark == mark;
      var k := if j < i || same then j else j - 1;
      if j != i {
        assert bs'[j] == bs[k] && BucketOnTime(bs[k], current, h);
      } else if same {
        assert BucketOnTime(bs[i], current, h);
      }
    }
  }

  /** Resuming everybody under the earliest mark. */
  lemma PopKeeps(bs: seq<Bucket>, current: nat, h: History)
    requires bs != [] && Sorted(bs) && OnTime(bs, current, h) && Once(bs, h) && bs[0].mark <= current
    ensures var h' := h.(done := h.done + Tickets(bs[0].entries));
      Sorted(bs[1..]) && OnTime(bs[1..], current, h') && Once(bs[1..], h')
  {
    var ts := Tickets(bs[0].entries);
    assert BucketOnTime(bs[0], current, h);
    forall t: nat
      ensures Times(h.done + ts, t) + Times(AllTickets(bs[1..]), t) == Times(h.done, t) + Times(AllTickets(bs), t)
    {
      TimesAppend(h.done, ts, t);
      TimesAppend(ts, AllTickets(bs[1..]), t);
    }
    hide AllTickets, Times;
    assert forall j :: 0 <= j < |bs[1..]| ==> BucketOnTime(bs[1..][j], current, h);
  }

  /** Virtual time advances for everybody alike. */
  lemma AdvanceKeeps(bs: seq<Bucket>, current: nat, h: History, delta: nat)
    requires OnTime(bs, current, h) && Once(bs, h)
    ensures OnTime(bs, current + delta, h.(total := h.total + delta)) && Once(bs, h.(total := h.total + delta))
  {
    forall i | 0 <= i < |bs| ensures BucketOnTime(bs[i], current + delta, h.(total := h.total + delta)) {
      assert BucketOnTime(bs[i], current, h);
    }
  }

  /** `cs` is `bs` with one more handle under `mark`, after those that are there already: in a bucket of its own it
      gets the thread that runs now, in an existing one the thread that was asked for. */
  ghost predicate Inserted(bs: seq<Bucket>, cs: seq<Bucket>, mark: nat, handle: nat, thread: nat, currentThread: nat,
                           ticket: nat)
  {
    exists i: nat :: BelongsAt(bs, mark, i) &&
      var found := i < |bs| && bs[i].mark == mark;
      cs == Put(bs, i, mark, Entry(handle, if found then thread else currentThread, ticket))
  }

  function AllEntries(bs: seq<Bucket>): seq<Entry> {
    if bs == [] then [] else AllEntries(bs[..|bs| - 1]) + bs[|bs| - 1].entries
  }

  /** The first bucket after an insertion. */
  lemma PutFirst(bs: seq<Bucket>, i: nat, mark: nat, e: Entry)
    requires BelongsAt(bs, mark, i)
    ensures var cs := Put(bs, i, mark, e); cs != [] && cs[0].mark == if i == 0 then mark else bs[0].mark
    ensures i > 0 ==> bs != [] && bs[0].mark < mark
  {
  }

  lemma InsertedAt(bs: seq<Bucket>, i: nat, mark: nat, handle: nat, thread: nat, currentThread: nat, ticket: nat)
    requires BelongsAt(bs, mark, i)
    ensures var found := i < |bs| && bs[i].mark == mark;
      Inserted(bs, Put(bs, i, mark, Entry(handle, if found then thread else currentThread, ticket)), mark,
               handle, thread, currentThread, ticket)
  {
  }

  /** The first `n` buckets are due at `now` and have been taken, and `resumed` are their handles in order. */
  ghost predicate Taken(bs: seq<Bucket>, now: nat, n: nat, rest: seq<Bucket>, resumed: seq<Entry>) {
    && n <= |bs| && rest == bs[n..] && resumed == AllEntries(bs[..n]) && (n > 0 ==> resumed != [])
    && (forall j :: 0 <= j < n ==> bs[j].mark <= now)
  }

  /** And nobody else is due. */
  ghost predicate Releases(bs: seq<Bucket>, now: nat, n: nat, rest: seq<Bucket>, resumed: seq<Entry>) {
    Taken(bs, now, n, rest, resumed) && (forall j :: n <= j < |bs| ==> bs[j].mark > now)
  }

  lemma TakenMore(bs: seq<Bucket>, now: nat, n: nat, rest: seq<Bucket>, resumed: seq<Entry>)
    requires Taken(bs, now, n, rest, resumed) && rest != [] && rest[0].mark <= now && rest[0].entries != []
    ensures Taken(bs, now, n + 1, rest[1..], resumed + rest[0].entries)
  {
    assert bs[..n + 1][..n] == bs[..n];
  }

  lemma TakenNone(bs: seq<Bucket>, now: nat)
    ensures Taken(bs, now, 0, bs, [])
  {
  }

  lemma TakenSome(bs: seq<Bucket>, now: nat, n: nat, rest: seq<Bucket>, resumed: seq<Entry>)
    requires Taken(bs, now, n, rest, resumed)
    ensures n > 0 ==> resumed != []
  {
  }

  lemma TakenAll(bs: seq<Bucket>, now: nat, n: nat, rest: seq<Bucket>, resumed: seq<Entry>)
    requires Sorted(bs) && Taken(bs, now, n, rest, resumed) && (rest != [] ==> rest[0].mark > now)
    ensures Releases(bs, now, n, rest, resumed)
    ensures bs != [] && bs[0].mark <= now ==> n > 0
  {
  }

  class TimerService {
    var buckets: seq<Bucket>
    var current: nat
    var armed: Spec
    var registered: nat   // numbers the registrations
    ghost var history: History

    /** The timer is armed to the distance of the earliest mark. */
    ghost predicate Valid()
      reads this
    {
      && Sorted(buckets) && OnTime(buckets, current, history) && Once(buckets, history)
      && registered == |history.starts|
      && (buckets != [] ==> buckets[0].mark >= current)
      && Join(armed) == Distance(buckets, current)
    }

    /** The timer will expire if anybody waits. */
    predicate Armed()
      reads this
    {
      buckets != [] ==> Join(armed) > 0
    }

    constructor ()
      ensures Valid() && Armed() && history == History(0, [], [], [])
    {
      buckets, current, armed, registered := [], 0, Spec(0, 0), 0;
      history := History(0, [], [], []);
    }

    /** change_timer(): the kernel keeps the interval as seconds and nanoseconds. */
    method ChangeTimer(nanoSeconds: nat)
      modifies this`armed
      ensures Join(armed) == nanoSeconds && armed.nanos < NANO_IN_SECONDS
      ensures armed.seconds * 1_000_000_000 + armed.nanos == nanoSeconds && armed.nanos < 1_000_000_000
    {
      armed := Split(nanoSeconds);
    }

    /** wait(): register `handle` to be resumed `nanoSeconds` of virtual time from now.  The timer goes on running
        unless the delay is zero, which disarms it although somebody waits; and then no later registration
        arms it again. */
    method Wait(handle: nat, nanoSeconds: nat, thread: nat, currentThread: nat)
      requires Valid()
      modifies this
      ensures Valid() && history == Register(old(history), nanoSeconds)
      ensures Armed() <==> old(Armed()) && nanoSeconds > 0
      ensures current == old(current)
      ensures Inserted(old(buckets), buckets, current + nanoSeconds, handle, thread, currentThread, old(registered))
    {
      hide OnTime, Once, Inserted, BelongsAt;
      ghost var was := buckets;
      var mark := current + nanoSeconds;
      var i, found := Find(mark);
      // a new bucket gets the thread that runs now, an existing one the thread that was asked for
      var entry := Entry(handle, if found then thread else currentThread, registered);
      PutSorted(buckets, i, mark, entry);
      PutOnce(buckets, i, mark, entry, history, nanoSeconds);
      PutOnTime(buckets, i, mark, entry, current, history, nanoSeconds);
      InsertedAt(buckets, i, mark, handle, thread, currentThread, registered);
      PutFirst(buckets, i, mark, entry);
      if found {
        buckets := buckets[i := Bucket(mark, buckets[i].entries + [entry])];
      } else {
        buckets := buckets[..i] + [Bucket(mark, [entry])] + buckets[i..];
      }
      assert buckets == Put(was, i, mark, entry);
      hide Put, Sorted;
      registered := registered + 1;
      history := Register(history, nanoSeconds);
      if !found && i == 0 {
        ChangeTimer(nanoSeconds);
      }
    }

    /** The place of a mark among the buckets. */
    method Find(mark: nat) returns (i: nat, found: bool)
      requires Sorted(buckets)
      ensures BelongsAt(buckets, mark, i) && i <= |buckets| && (found <==> i < |buckets| && buckets[i].mark == mark)
    {
      i := 0;
      while i < |buckets| && buckets[i].mark < mark
        invariant 0 <= i <= |buckets|
        invariant forall j :: 0 <= j < i ==> buckets[j].mark < mark
      {
        i := i + 1;
      }
      found := i < |buckets| && buckets[i].mark == mark;
    }

    /** The erase-while-iterating loop of run(): resume everybody whose mark is reached, earliest first. */
    method ReleaseDue() returns (resumed: seq<Entry>, ghost n: nat)
      requires Sorted(buckets) && OnTime(buckets, current, history) && Once(buckets, history)
      modifies this`buckets, this`history
      ensures Sorted(buckets) && OnTime(buckets, current, history) && Once(buckets, history)
      ensures Releases(old(buckets), current, n, buckets, resumed)
      ensures history == old(history).(done := old(history).done + Tickets(resumed))
      ensures old(buckets) != [] && old(buckets[0].mark) <= current ==> n > 0 && resumed != []
    {
      hide OnTime, Once, Taken, Releases;
      resumed, n := [], 0;
      ghost var was, h := buckets, history;
      assert h.done + Tickets([]) == h.done;
      TakenNone(was, current);
      while buckets != [] && buckets[0].mark <= current
        invariant Sorted(buckets) && OnTime(buckets, current, history) && Once(buckets, history)
        invariant history == h.(done := h.done + Tickets(resumed))
        invariant Taken(was, current, n, buckets, resumed)
        decreases |buckets|
      {
        var first := buckets[0].entries;
        PopKeeps(buckets, current, history);
        BucketsFilled(buckets, current, history);
        assert h.done + Tickets(resumed) + Tickets(first) == h.done + Tickets(resumed + first);
        history := history.(done := history.done + Tickets(first));
        TakenMore(was, current, n, buckets, resumed);
        resumed := resumed + first;
        buckets := buckets[1..];
        n := n + 1;
      }
      TakenAll(was, current, n, buckets, resumed);
      TakenSome(was, current, n, buckets, resumed);
    }

    /** One turn of run(): the timer has expired `expirations` times since it was last read.  Virtual time advances
        by that many intervals, so that the earliest mark is reached and everybody under it resumed; afterwards
        the timer is armed for the next mark, or off if nobody is left. */
    method Tick(expirations: nat) returns (resumed: seq<Entry>, ghost n: nat)
      requires Valid()
      modifies this
      ensures Valid() && (expirations > 0 ==> Armed())
      ensures history == old(history).(total := old(history).total + old(Join(armed)) * expirations,
                                       done := old(history).done + Tickets(resumed))
      ensures expirations == 0 ==> buckets == old(buckets) && current == old(current) && resumed == []
      ensures var now := old(current) + old(Join(armed)) * expirations;
        expirations > 0 ==>
          Releases(old(buckets), now, n, buckets, resumed) && current == if buckets == [] then 0 else now
      ensures expirations > 0 && old(buckets) != [] ==> n > 0 && resumed != []
    {
      hide OnTime, Once, Sorted;
      if expirations == 0 {
        resumed, n := [], 0;
        return;
      }
      var advance := Join(armed) * expirations;
      assert advance >= Join(armed);
      AdvanceKeeps(buckets, current, history, advance);
      history := history.(total := history.total + advance);
      current := current + advance;
      resumed, n := ReleaseDue();
      if buckets == [] {
        NobodyLeft(current, history);
        current := 0;
        armed := Spec(0, 0);
      } else {
        ChangeTimer(buckets[0].mark - current);
      }
    }
  }

  /** A zero delay leaves everybody waiting on a timer that will not expire. */
  method ZeroDelayDisarms() returns (ts: TimerService)
    ensures ts.Valid() && !ts.Armed() && ts.history.done == [] && ts.history.delays == [5, 0, 7]
  {
    ts := new TimerService();
    ts.Wait(0, 5, 0, 0);
    ts.Wait(1, 0, 0, 0);
    ts.Wait(2, 7, 0, 0);
  }

  lemma BucketsFilled(bs: seq<Bucket>, current: nat, h: History)
    requires bs != [] && OnTime(bs, current, h)
    ensures bs[0].entries != []
  {
    assert BucketOnTime(bs[0], current, h);
  }

  /** With nobody waiting current_ may start again from zero. */
  lemma NobodyLeft(current: nat, h: History)
    requires OnTime([], current, h)
    ensures OnTime([], 0, h)
  {
  }

  /** Every registration is resumed exactly once, at the first tick by which its delay has passed: while the timer
      is armed it waits as long as virtual time is short of its deadline, it is resumed once when the deadline
      is reached, and never before. */
  lemma ResumedOnTime(ts: TimerService, t: nat)
    requires ts.Valid() && t < |ts.history.starts|
    ensures Times(ts.history.done, t) <= 1
    ensures Times(ts.history.done, t) == 1 ==> t < |ts.history.delays| && Deadline(ts.history, t) <= ts.history.total
    ensures ts.Armed() && Times(ts.history.done, t) == 0 ==>
      t < |ts.history.delays| && ts.history.total < Deadline(ts.history, t)
  {
    var h := ts.history;
    if Times(h.done, t) == 0 {
      assert Times(AllTickets(ts.buckets), t) == 1;
      var i, e := FindTicket(ts.buckets, t);
      assert BucketOnTime(ts.buckets[i], ts.current, h);
      assert i > 0 ==> ts.buckets[0].mark < ts.buckets[i].mark;
    }
  }

  lemma {:induction false} FindTicket(bs: seq<Bucket>, t: nat) returns (i: nat, e: Entry)
    requires Times(AllTickets(bs), t) > 0
    ensures i < |bs| && e in bs[i].entries && e.ticket == t
  {
    var ts := Tickets(bs[0].entries);
    TimesAppend(ts, AllTickets(bs[1..]), t);
    if t in ts {
      i := 0;
      var k :| 0 <= k < |ts| && ts[k] == t;
      e := bs[0].entries[k];
    } else {
      var j;
      j, e := FindTicket(bs[1..], t);
      i := j + 1;
    }
  }
}
