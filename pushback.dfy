/**
 * `PushBack` (src/stream.rs, module `pushback`): a fallible byte stream with one slot
 * `val` of lookahead. `next` hands out the slot's value before pulling from the wrapped
 * stream; `push_back` replaces the slot's value and returns the one it displaced.
 */
module Pushback {
  import opened Wrappers
  import opened Stream

  /** The state of a `PushBack` as a value: the wrapped stream and the slot. */
  datatype PushBackState<E> = PushBackState(stream: Source<E>, val: Option<bv8>) {

    /** Everything the wrapper will deliver from here on, in order: the slot, then the stream. */
    function Pending(): seq<Item<E>>
    {
      Held(val) + stream.Remaining()
    }

    /** `next`: the slot's value if there is one (the stream is not touched), else `try_next`. */
    function Next(): (r: (Option<Item<E>>, PushBackState<E>))
      ensures r.1.val == None && r.1.stream.items == stream.items
      ensures val.Some? ==> r.0 == Some(Ok(val.value)) && r.1.stream == stream
      ensures val.None? ==> (r.0, r.1.stream) == stream.TryNext()
      ensures Pending() == [] ==> r == (None, this)
      ensures Pending() != [] ==> r.0 == Some(Pending()[0]) && r.1.Pending() == Pending()[1..]
    {
      if val.Some? then
        (Some(Ok(val.value)), PushBackState(stream, None))
      else
        var (x, stream') := stream.TryNext();
        (x, PushBackState(stream', None))
    }

    /** `push_back(v)`: `v` goes into the slot; the previous contents come back. */
    function PushBack(v: bv8): (r: (Option<bv8>, PushBackState<E>))
      ensures r.0 == val && r.1.val == Some(v) && r.1.stream == stream
      ensures r.1.Pending() == [Ok(v)] + stream.Remaining()
      ensures Held(r.0) + r.1.Pending()[1..] == Pending()
    {
      (val, PushBackState(stream, Some(v)))
    }

    /** One consumer call. */
    function Apply(op: Op): (Output<E>, PushBackState<E>)
    {
      match op
      case Read => (Delivered(Next().0), Next().1)
      case Unread(v) => (Displaced(PushBack(v).0), PushBack(v).1)
    }

    /** A run of consumer calls: what each returned, and the state afterwards. */
    function Run(ops: seq<Op>): (r: (seq<Output<E>>, PushBackState<E>))
      ensures |r.0| == |ops|
      ensures r.1.stream.items == stream.items
      decreases |ops|
    {
      if ops == [] then ([], this)
      else
        var (o, s) := Apply(ops[0]);
        var (os, t) := s.Run(ops[1..]);
        ([o] + os, t)
    }
  }

  /**
   * Draining: `n` calls of `next` with no push-back deliver the pending items in order,
   * then end-of-stream on every further call; the rest stays pending.
   */
  lemma ReadsYieldPending<E>(s: PushBackState<E>, n: nat)
    ensures forall i :: 0 <= i < n ==>
      s.Run(Reads(n)).0[i] == Delivered(if i < |s.Pending()| then Some(s.Pending()[i]) else None)
    ensures s.Run(Reads(n)).1.Pending() == if n < |s.Pending()| then s.Pending()[n..] else []
  {
    forall i | 0 <= i < n
      ensures s.Run(Reads(n)).0[i] == Delivered(if i < |s.Pending()| then Some(s.Pending()[i]) else None)
    {
      ReadsDeliver(s, n, i);
    }
    ReadsLeave(s, n);
  }

  /** The `i`-th of `n` reads delivers the `i`-th pending item, or end-of-stream past the end. */
  lemma {:induction false} ReadsDeliver<E>(s: PushBackState<E>, n: nat, i: nat)
    requires i < n
    ensures s.Run(Reads(n)).0[i] == Delivered(if i < |s.Pending()| then Some(s.Pending()[i]) else None)
    decreases n
  {
    var p := s.Pending();
    var s1 := s.Next().1;
    ReadStep(s, n);
    if i > 0 {
      ReadsDeliver(s1, n - 1, i - 1);
      if p == [] {
        assert s1 == s;
      } else {
        assert s1.Pending() == p[1..];
      }
    }
  }

  /** After `n` reads, the pending items past the first `n` are still pending. */
  lemma {:induction false} ReadsLeave<E>(s: PushBackState<E>, n: nat)
    ensures s.Run(Reads(n)).1.Pending() == if n < |s.Pending()| then s.Pending()[n..] else []
    decreases n
  {
    if n > 0 {
      var p := s.Pending();
      var s1 := s.Next().1;
      ReadStep(s, n);
      ReadsLeave(s1, n - 1);
      if p == [] {
        assert s1 == s;
      } else {
        assert s1.Pending() == p[1..];
        if n < |p| {
          assert p[1..][n - 1..] == p[n..];
        }
      }
    }
  }

  /** The first of `n` reads, split off the rest. */
  lemma ReadStep<E>(s: PushBackState<E>, n: nat)
    requires n > 0
    ensures s.Run(Reads(n)).0 == [Delivered(s.Next().0)] + s.Next().1.Run(Reads(n - 1)).0
    ensures s.Run(Reads(n)).1 == s.Next().1.Run(Reads(n - 1)).1
  {
    assert Reads(n)[0] == Read && Reads(n)[1..] == Reads(n - 1);
    RunCons(s, Reads(n));
  }

  /**
   * Peeking: reading a byte and pushing it back leaves the wrapper as if the byte had
   * never been read, so the next read delivers it again.
   */
  lemma ReadPushRead<E>(s: PushBackState<E>, x: bv8)
    requires s.Pending() != [] && s.Pending()[0] == Ok(x)
    ensures s.Run([Read, Unread(x), Read]).0 == [Delivered(Some(Ok(x))), Displaced(None), Delivered(Some(Ok(x)))]
    ensures s.Run([Read, Unread(x), Read]).1.val == None
    ensures s.Run([Read, Unread(x), Read]).1.Pending() == s.Pending()[1..]
  {
    var ops := [Read, Unread(x), Read];
    var s1 := s.Next().1;
    var s2 := s1.PushBack(x).1;
    assert s1.val == None && s1.Pending() == s.Pending()[1..];
    assert s2.Pending() == [Ok(x)] + s1.Pending();
    assert ops[1..] == [Unread(x), Read] && ops[1..][1..] == [Read] && ops[1..][1..][1..] == [];
    RunCons(s, ops);
    RunCons(s1, ops[1..]);
    RunCons(s2, ops[1..][1..]);
  }

  /** A run of calls is its first call followed by the rest. */
  lemma RunCons<E>(s: PushBackState<E>, ops: seq<Op>)
    requires ops != []
    ensures s.Run(ops).0 == [s.Apply(ops[0]).0] + s.Apply(ops[0]).1.Run(ops[1..]).0
    ensures s.Run(ops).1 == s.Apply(ops[0]).1.Run(ops[1..]).1
  {
  }

  /** With an empty slot the wrapper delivers exactly what the wrapped stream holds. */
  lemma DrainYieldsSource<E>(s: PushBackState<E>, n: nat)
    requires s.val == None && n == |s.stream.Remaining()|
    ensures forall i :: 0 <= i < n ==> s.Run(Reads(n)).0[i] == Delivered(Some(s.stream.Remaining()[i]))
    ensures s.Run(Reads(n)).1.Pending() == []
    ensures s.Run(Reads(n)).1.Next() == (None, s.Run(Reads(n)).1)
  {
    assert s.Pending() == s.stream.Remaining();
    ReadsYieldPending(s, n);
  }

  /** The stream object: the owned stream and the slot, updated in place. */
  class PushBack<E> {
    var stream: Source<E>
    var val: Option<bv8>

    ghost function State(): PushBackState<E>
      reads this
    {
      PushBackState(stream, val)
    }

    ghost function Pending(): seq<Item<E>>
      reads this
    {
      State().Pending()
    }

    /** `PushBack::new`: wraps `stream` with an empty slot. */
    constructor(stream: Source<E>)
      ensures this.stream == stream && val == None
      ensures Pending() == stream.Remaining()
    {
      this.stream := stream;
      val := None;
    }

    /** `push_back`: `Option::replace` on the slot. */
    method PushBack(v: bv8) returns (displaced: Option<bv8>)
      modifies this
      ensures (displaced, State()) == old(State()).PushBack(v)
      ensures Pending() == [Ok(v)] + old(stream.Remaining())
      ensures old(val) == None ==> Pending() == [Ok(v)] + old(Pending())
      ensures displaced == old(val) && val == Some(v) && stream == old(stream)
    {
      displaced := val;
      val := Some(v);
    }

    /** `next`: `Option::take` on the slot, falling back on the wrapped stream. */
    method Next() returns (r: Option<Item<E>>)
      modifies this
      ensures (r, State()) == old(State()).Next()
      ensures old(Pending()) == [] ==> r == None && Pending() == []
      ensures old(Pending()) != [] ==> r == Some(old(Pending())[0]) && Pending() == old(Pending())[1..]
      ensures old(val).Some? ==> r == Some(Ok(old(val).value)) && stream == old(stream)
      ensures old(val).None? ==> (r, stream) == old(stream).TryNext()
      ensures val == None
    {
      if val.Some? {
        r := Some(Ok(val.value));
        val := None;
      } else {
        var (x, stream') := stream.TryNext();
        r := x;
        stream := stream';
      }
    }
  }

  /**
   * `StreamExt::take(n)` followed by `collect`, as the tests use it: up to `n` calls of
   * `next`, stopping at end-of-stream.
   */
  method Take<E>(s: PushBack<E>, n: nat) returns (got: seq<Item<E>>)
    modifies s
    ensures var k := if n < |old(s.Pending())| then n else |old(s.Pending())|;
      got == old(s.Pending())[..k] && s.Pending() == old(s.Pending())[k..]
    ensures n > 0 ==> s.val == None
    ensures n == 0 ==> s.State() == old(s.State())
  {
    ghost var p := s.Pending();
    got := [];
    while |got| < n
      invariant |got| <= n && got + s.Pending() == p
      invariant |got| > 0 ==> s.val == None
      invariant n == 0 ==> s.State() == old(s.State())
      decreases n - |got|
    {
      ghost var before := s.Pending();
      var x := s.Next();
      if x.None? {
        break;
      }
      MoveOne(got, before, s.Pending(), p);
      got := got + [x.value];
    }
    TakeDone(got, s.Pending(), p, n);
  }

  /** `collect` on the whole stream: `next` until end-of-stream. */
  method CollectAll<E>(s: PushBack<E>) returns (got: seq<Item<E>>)
    modifies s
    ensures got == old(s.Pending()) && s.Pending() == []
  {
    got := [];
    var done := false;
    while !done
      invariant got + s.Pending() == old(s.Pending())
      invariant done ==> s.Pending() == []
      decreases |s.Pending()|, !done
    {
      ghost var before := s.Pending();
      var x := s.Next();
      match x
      case None =>
        done := true;
      case Some(item) =>
        MoveOne(got, before, s.Pending(), old(s.Pending()));
        got := got + [item];
    }
  }

  /** The bytes 1, 2, 4, ..., 128 as a stream that never fails. */
  function Data<E>(): seq<Item<E>>
  {
    [Ok(1), Ok(2), Ok(4), Ok(8), Ok(16), Ok(32), Ok(64), Ok(128)]
  }

  /** After four reads and a push-back of 0xCC the next four items are 0xCC, 16, 32, 64. */
  lemma ReplayedData<E>()
    ensures Data<E>()[4..] == [Ok(16), Ok(32), Ok(64), Ok(128)]
    ensures |[Ok(0xCC)] + Data<E>()[4..]| == 5
    ensures ([Ok(0xCC)] + Data<E>()[4..])[..4] == [Ok(0xCC), Ok(16), Ok(32), Ok(64)]
  {
  }

  /** Test `the_stream_works`: collecting the wrapper gives back the data. */
  method TheStreamWorks<E>() returns (got: seq<Item<E>>)
    ensures got == Data()
  {
    var strm := new PushBack<E>(Source(Data(), 0));
    got := CollectAll(strm);
  }

  /** Test `pushbacked_value_come_out_first`. */
  method PushbackedValueComeOutFirst<E>() returns (first: seq<Item<E>>, second: seq<Item<E>>)
    ensures first == Data()[..4]
    ensures second == [Ok(0xCC), Ok(16), Ok(32), Ok(64)]
  {
    var strm := new PushBack<E>(Source(Data(), 0));
    first := Take(strm, 4);
    assert strm.stream.Remaining() == Data()[4..];
    var _ := strm.PushBack(0xCC);
    assert strm.Pending() == [Ok(0xCC)] + Data()[4..];
    second := Take(strm, 4);
    ReplayedData<E>();
  }
}
