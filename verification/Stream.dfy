/** The blocking read and write of a TCP stream: a captured count of the bytes moved so far, and a completion
    callback that asks the kernel for the rest until the whole span is moved or an operation fails. */
module Stream {

  const MAX_CHUNK: nat := 2_147_483_645   // kMaxRead: the largest int, less two
  const SIZE_T: nat := 0x1_0000_0000_0000_0000

  /** One recv or send: `len` bytes at position `at` of the span. */
  datatype Request = Request(at: nat, len: nat)

  /** std::min of the rest of the span and the chunk limit; the rest is computed in size_t and wraps. */
  function Amount(size: nat, soFar: nat, offset: nat): nat {
    var rest := (size - soFar - offset) % SIZE_T;
    if rest < MAX_CHUNK then rest else MAX_CHUNK
  }

  function Min(a: int, b: int): int { if a < b then a else b }

  /** What is asked for: the rest of the span, if the offset lies inside it, so that nothing is asked for exactly when
      the end is reached; but if it does not, the rest wraps around, and the request is not empty and lies outside. */
  lemma RequestInSpan(size: nat, soFar: nat, offset: nat)
    requires size < SIZE_T && offset < SIZE_T
    ensures offset + soFar <= size ==>
      Amount(size, soFar, offset) == Min(size - offset - soFar, 2_147_483_645)
    ensures size < offset + soFar < size + SIZE_T ==>
      Amount(size, soFar, offset) == Min(0x1_0000_0000_0000_0000 - (offset + soFar - size), 2_147_483_645) > 0
  {
    if offset + soFar <= size {
      assert (size - soFar - offset) % SIZE_T == size - soFar - offset;
    } else if offset + soFar < size + SIZE_T {
      assert (size - soFar - offset) % SIZE_T == size - soFar - offset + SIZE_T;
    }
  }

  /** The chunks lie end to end from `from` to `to`. */
  ghost predicate Tiles(chunks: seq<Request>, from: nat, to: nat)
    decreases |chunks|
  {
    if chunks == [] then from == to
    else
      var last := chunks[|chunks| - 1];
      last.len > 0 && last.at + last.len == to && Tiles(chunks[..|chunks| - 1], from, last.at)
  }

  lemma TilesAppend(chunks: seq<Request>, from: nat, to: nat, len: nat)
    requires Tiles(chunks, from, to) && len > 0
    ensures Tiles(chunks + [Request(to, len)], from, to + len)
  {
    assert (chunks + [Request(to, len)])[..|chunks|] == chunks;
  }

  /** Tiling means no gap and no overlap: every position of the range is in exactly one chunk. */
  lemma {:induction false} TilesCover(chunks: seq<Request>, from: nat, to: nat, p: nat)
    requires Tiles(chunks, from, to)
    ensures from <= to
    ensures from <= p < to <==> exists i :: 0 <= i < |chunks| && chunks[i].at <= p < chunks[i].at + chunks[i].len
    ensures forall i, j :: 0 <= i < j < |chunks| ==> chunks[i].at + chunks[i].len <= chunks[j].at
    ensures forall i :: 0 <= i < |chunks| ==> chunks[i].at + chunks[i].len <= to
    decreases |chunks|
  {
    if chunks != [] {
      var n := |chunks| - 1;
      var rest := chunks[..n];
      TilesCover(rest, from, chunks[n].at, p);
      assert forall i :: 0 <= i < n ==> rest[i] == chunks[i];
      if from <= p < chunks[n].at {
        var i :| 0 <= i < n && rest[i].at <= p < rest[i].at + rest[i].len;
        assert chunks[i].at <= p < chunks[i].at + chunks[i].len;
      }
    }
  }

  datatype Control = Suspend | Resume | Ready

  class Transfer {
    const size: nat
    const offset: nat
    var soFar: nat
    var error: int
    var resumed: bool           // the awaiting coroutine was resumed
    var cancellable: bool       // an operation is pending and can be cancelled
    var pending: Request        // the operation the kernel is working on
    ghost var moved: seq<Request>

    ghost predicate Valid()
      reads this
    {
      && size < SIZE_T && offset < SIZE_T && Tiles(moved, offset, offset + soFar)
      && (offset <= size ==> offset + soFar <= size)
      && cancellable == !resumed
      && (!resumed ==> pending == Request(offset + soFar, Amount(size, soFar, offset)) && soFar != size)
    }

    /** Every operation the kernel is given starts where the last one stopped.  If the offset lies inside the span so
        does the operation, and a transfer with an offset ends up asking for nothing, because readiness compares with
        the whole span; if it does not, the first operation already lies outside and is not empty. */
    lemma PendingInSpan()
      requires Valid() && !resumed
      ensures pending.at == offset + soFar
      ensures offset <= size ==> pending.at + pending.len <= size && (pending.len == 0 <==> offset + soFar == size)
      ensures offset <= size && pending.len == 0 ==> offset > 0
      ensures offset > size && soFar == 0 ==> pending.at > size && pending.len > 0
    {
      RequestInSpan(size, soFar, offset);
    }

    /** co_await: test for readiness, else ask for the first chunk. */
    constructor (size: nat, offset: nat)
      requires size < SIZE_T && offset < SIZE_T
      ensures Valid() && this.size == size && this.offset == offset && soFar == 0 && error == 0 && moved == []
      ensures resumed <==> size == 0
    {
      this.size, this.offset := size, offset;
      soFar, error := 0, 0;
      resumed, cancellable := size == 0, size != 0;
      pending := Request(offset, Amount(size, 0, offset));
      moved := [];
    }

    /** await_suspend(): ask for the next chunk. */
    method Ask()
      modifies this`pending, this`cancellable
      ensures pending == Request(offset + soFar, Amount(size, soFar, offset)) && cancellable
    {
      pending := Request(offset + soFar, Amount(size, soFar, offset));
      cancellable := true;
    }

    /** notify(): the pending operation has completed with `answer`: so many bytes moved, or an error or the end
        of the stream. */
    method Notify(answer: int)
      requires Valid() && !resumed && answer <= pending.len
      modifies this
      ensures Valid()
      ensures answer > 0 ==>
        soFar == old(soFar) + answer && moved == old(moved) + [Request(offset + old(soFar), answer)]
      ensures answer > 0 ==> error == old(error) && (resumed <==> soFar == size)
      ensures answer <= 0 ==> resumed && error == -answer && soFar == old(soFar) && moved == old(moved)
    {
      var control;
      PendingInSpan();
      if answer > 0 {
        TilesAppend(moved, offset, offset + soFar, answer);
        moved := moved + [Request(offset + soFar, answer)];
        soFar := soFar + answer;
        control := Ready;
      } else {
        error := -answer;
        control := Resume;
      }
      var finished := false;
      while !finished
        invariant soFar == old(soFar) + (if answer > 0 then answer else 0)
        invariant Tiles(moved, offset, offset + soFar) && (offset <= size ==> offset + soFar <= size)
        invariant moved == if answer > 0 then old(moved) + [Request(offset + old(soFar), answer)] else old(moved)
        invariant error == if answer > 0 then old(error) else -answer
        invariant answer <= 0 ==> control == Resume
        invariant !finished ==> !resumed
        invariant !finished && control == Suspend ==> soFar != size
        invariant !finished && control == Resume && answer > 0 ==> soFar == size
        invariant finished ==> Valid() && (answer > 0 ==> (resumed <==> soFar == size)) && (answer <= 0 ==> resumed)
        decreases !finished, control == Ready
      {
        match control {
          case Suspend =>
            Ask();
            finished := true;
          case Resume =>
            resumed, cancellable := true, false;
            finished := true;
          case Ready =>
            control := if soFar == size then Resume else Suspend;
        }
      }
    }

    /** await_resume(): the bytes moved, or -1 if there were none. */
    method Result() returns (r: int)
      requires Valid()
      ensures (r == -1 <==> soFar == 0) && (r != -1 ==> r == soFar && Tiles(moved, offset, offset + r))
    {
      r := if soFar > 0 then soFar else -1;
    }
  }

  /** What the positive answers among `replies` are, and what they add up to. */
  function Positive(replies: seq<int>): seq<nat> {
    if replies == [] then []
    else
      var n := |replies| - 1;
      Positive(replies[..n]) + if replies[n] > 0 then [replies[n]] else []
  }

  function Sum(xs: seq<nat>): nat { if xs == [] then 0 else Sum(xs[..|xs| - 1]) + xs[|xs| - 1] }

  function Lengths(chunks: seq<Request>): (ls: seq<nat>)
    ensures |ls| == |chunks| && forall i :: 0 <= i < |chunks| ==> ls[i] == chunks[i].len
  {
    seq(|chunks|, i requires 0 <= i < |chunks| => chunks[i].len)
  }

  /** Answer `i` is what the kernel would give, as far as it was asked for that much by then. */
  ghost predicate Answered(size: nat, offset: nat, script: seq<int>, replies: seq<int>, i: nat) {
    i < |replies| <= |script| && replies[i] == Min(script[i], Amount(size, Sum(Positive(replies[..i])), offset))
  }

  lemma SumAppend(xs: seq<nat>, x: nat)
    ensures Sum(xs + [x]) == Sum(xs) + x
  {
    assert (xs + [x])[..|xs|] == xs;
  }

  /** And it is asked again only after a positive answer. */
  ghost predicate AllAnswered(size: nat, offset: nat, script: seq<int>, replies: seq<int>) {
    && (forall i :: 0 <= i < |replies| ==> Answered(size, offset, script, replies, i))
    && (forall i :: 0 <= i < |replies| - 1 ==> replies[i] > 0)
  }

  lemma PositiveAppend(replies: seq<int>, reply: int)
    ensures Positive(replies + [reply]) == Positive(replies) + if reply > 0 then [reply] else []
    ensures Sum(Positive(replies + [reply])) == Sum(Positive(replies)) + if reply > 0 then reply else 0
  {
    assert (replies + [reply])[..|replies|] == replies;
    if reply > 0 {
      SumAppend(Positive(replies), reply);
    } else {
      assert Positive(replies + [reply]) == Positive(replies);
    }
  }

  /** Nothing ends a transfer but an answer that is not positive, or as many bytes moved as the span is long. */
  predicate Over(size: nat, replies: seq<int>, soFar: nat) {
    size == 0 || (replies != [] && (replies[|replies| - 1] <= 0 || soFar == size))
  }

  function ErrorOf(replies: seq<int>): int {
    if replies != [] && replies[|replies| - 1] <= 0 then -replies[|replies| - 1] else 0
  }

  /** How far a transfer has got with a kernel that would answer as scripted, but never with more than it was asked
      for: `replies` is what it did answer, and what was moved are the positive replies. */
  ghost predicate Played(script: seq<int>, replies: seq<int>, size: nat, offset: nat, moved: seq<Request>, soFar: nat,
                         resumed: bool, error: int)
  {
    && |replies| <= |script|
    && AllAnswered(size, offset, script, replies)
    && Lengths(moved) == Positive(replies) && soFar == Sum(Positive(replies))
    && (resumed <==> Over(size, replies, soFar)) && error == ErrorOf(replies)
  }

  lemma PlayedMore(script: seq<int>, replies: seq<int>, size: nat, offset: nat, moved: seq<Request>, soFar: nat,
                   error: int, reply: int, moved': seq<Request>, soFar': nat, resumed': bool, error': int)
    requires Played(script, replies, size, offset, moved, soFar, false, error) && |replies| < |script|
    requires reply == Min(script[|replies|], Amount(size, soFar, offset))
    requires moved' == (if reply > 0 then moved + [Request(offset + soFar, reply)] else moved)
    requires soFar' == (if reply > 0 then soFar + reply else soFar)
    requires resumed' <==> reply <= 0 || soFar + reply == size
    requires error' == if reply > 0 then error else -reply
    ensures Played(script, replies + [reply], size, offset, moved', soFar', resumed', error')
  {
    PositiveAppend(replies, reply);
    AnsweredAppend(size, offset, script, replies, reply);
    LengthsAppend(moved, Request(offset + soFar, if reply > 0 then reply else 0));
    OverAppend(size, replies, reply, soFar, soFar');
    hide Sum, Positive, AllAnswered, Min, Amount, Lengths, Over, ErrorOf;
    assert |replies + [reply]| == |replies| + 1;
  }

  lemma OverAppend(size: nat, replies: seq<int>, reply: int, soFar: nat, soFar': nat)
    requires !Over(size, replies, soFar)
    ensures Over(size, replies + [reply], soFar') <==> reply <= 0 || soFar' == size
    ensures ErrorOf(replies) == 0 && ErrorOf(replies + [reply]) == if reply <= 0 then -reply else 0
  {
  }

  lemma LengthsAppend(chunks: seq<Request>, r: Request)
    ensures Lengths(chunks + [r]) == Lengths(chunks) + [r.len]
  {
  }

  lemma AnsweredAppend(size: nat, offset: nat, script: seq<int>, replies: seq<int>, reply: int)
    requires |replies| < |script| && AllAnswered(size, offset, script, replies)
    requires !Over(size, replies, Sum(Positive(replies)))
    requires reply == Min(script[|replies|], Amount(size, Sum(Positive(replies)), offset))
    ensures AllAnswered(size, offset, script, replies + [reply])
  {
    hide Sum, Positive, Min, Amount;
    forall i | 0 <= i <= |replies| ensures Answered(size, offset, script, replies + [reply], i) {
      assert (replies + [reply])[..i] == replies[..i];
      assert i < |replies| ==> Answered(size, offset, script, replies, i);
      assert i == |replies| ==> replies[..i] == replies;
    }
  }

  /** A whole transfer against such a kernel.  It goes on until nothing is left to answer or it is over, and the moved
      bytes lie end to end from the offset on; with an offset inside the span it is over only after an error or the end
      of the stream. */
  method Drive(size: nat, offset: nat, script: seq<int>) returns (t: Transfer, replies: seq<int>)
    requires size < SIZE_T && offset < SIZE_T
    ensures t.Valid() && t.size == size && t.offset == offset
    ensures Played(script, replies, size, offset, t.moved, t.soFar, t.resumed, t.error)
    ensures t.resumed || |replies| == |script|
    ensures 0 < offset <= size && t.resumed ==> replies != [] && replies[|replies| - 1] <= 0
  {
    hide Played, Tiles, Amount, Min, Over;
    PlayedNone(script, size, offset);
    t := new Transfer(size, offset);
    replies := [];
    while |replies| < |script| && !t.resumed
      invariant fresh(t) && t.Valid() && t.size == size && t.offset == offset
      invariant Played(script, replies, size, offset, t.moved, t.soFar, t.resumed, t.error)
      decreases |script| - |replies|
    {
      ghost var moved, soFar, error := t.moved, t.soFar, t.error;
      var reply := Min(script[|replies|], t.pending.len);
      MinAtMost(script[|replies|], t.pending.len);
      t.Notify(reply);
      PlayedMore(script, replies, size, offset, moved, soFar, error, reply, t.moved, t.soFar, t.resumed, t.error);
      replies := replies + [reply];
    }
    PlayedOver(script, replies, size, offset, t.moved, t.soFar, t.resumed, t.error);
  }

  lemma PlayedNone(script: seq<int>, size: nat, offset: nat)
    ensures Played(script, [], size, offset, [], 0, size == 0, 0)
  {
  }

  lemma PlayedOver(script: seq<int>, replies: seq<int>, size: nat, offset: nat, moved: seq<Request>, soFar: nat,
                   resumed: bool, error: int)
    requires Played(script, replies, size, offset, moved, soFar, resumed, error)
    ensures |replies| <= |script|
    ensures resumed && 0 < offset <= size && offset + soFar <= size ==> replies != [] && replies[|replies| - 1] <= 0
  {
  }

  lemma MinAtMost(a: int, b: int)
    ensures Min(a, b) <= b
  {
  }

  /** With an offset inside the span the transfer does not end when the end of the span is reached: it waits for the
      answer to an empty request. */
  method EndNotSeen(size: nat, offset: nat) returns (t: Transfer)
    requires 0 < offset < size < SIZE_T && size - offset <= MAX_CHUNK
    ensures t.Valid() && t.size == size && t.offset == offset
    ensures Lengths(t.moved) == [size - offset] && !t.resumed && t.pending == Request(size, 0)
  {
    var replies;
    t, replies := Drive(size, offset, [size - offset]);
    RequestInSpan(size, 0, offset);
    assert Answered(size, offset, [size - offset], replies, 0) && replies[..0] == [];
    assert replies == [size - offset];
    PositiveAppend([], size - offset);
    t.PendingInSpan();
  }
}
