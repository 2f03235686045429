/**
 * `XorSumPushBack` (src/stream.rs, module `xorsum_pushback`): a `PushBack` that also keeps
 * a running XOR `sum`. Every byte `next` delivers is XOR-ed into `sum`, whether it comes
 * from the slot `head` or from the wrapped stream, and every `push_back(v)` XORs `v` in at
 * once. So `sum` is the initial value XOR every byte delivered XOR every byte pushed back,
 * and a byte that is read, pushed back and read again counts once.
 */
module XorsumPushback {
  import opened Wrappers
  import opened Stream
  import Pushback

  /** The state of an `XorSumPushBack` as a value. */
  datatype XorSumState<E> = XorSumState(stream: Source<E>, head: Option<bv8>, sum: bv8) {

    /** Everything the wrapper will deliver from here on, in order: the slot, then the stream. */
    function Pending(): seq<Item<E>>
    {
      Held(head) + stream.Remaining()
    }

    /** The same state without the sum: what a plain `PushBack` would hold. */
    function Plain(): Pushback.PushBackState<E>
    {
      Pushback.PushBackState(stream, head)
    }

    /**
     * `next`: what a plain `PushBack` in the same state delivers, with a delivered byte
     * folded into `sum`; an error or end-of-stream from the stream is returned as it came
     * and leaves `sum` alone. The class method below follows the code's own shape.
     */
    function Next(): (r: (Option<Item<E>>, XorSumState<E>))
      ensures r.1.head == None && r.1.stream.items == stream.items
      ensures head.Some? ==> r.0 == Some(Ok(head.value)) && r.1.stream == stream
      ensures head.None? ==> (r.0, r.1.stream) == stream.TryNext()
      ensures r.1.sum == Fold(sum, r.0)
      ensures Pending() == [] ==> r == (None, this)
      ensures Pending() != [] ==> r.0 == Some(Pending()[0]) && r.1.Pending() == Pending()[1..]
    {
      var (x, p) := Plain().Next();
      (x, XorSumState(p.stream, p.val, Fold(sum, x)))
    }

    /** `push_back(v)`: folds `v` into `sum`, puts it in the slot, returns the previous contents. */
    function PushBack(v: bv8): (r: (Option<bv8>, XorSumState<E>))
      ensures r.0 == head && r.1.head == Some(v) && r.1.stream == stream
      ensures r.1.sum == sum ^ v
      ensures r.1.Pending() == [Ok(v)] + stream.Remaining()
      ensures Held(r.0) + r.1.Pending()[1..] == Pending()
    {
      (head, XorSumState(stream, Some(v), sum ^ v))
    }

    /** One consumer call. */
    function Apply(op: Op): (Output<E>, XorSumState<E>)
    {
      match op
      case Read => (Delivered(Next().0), Next().1)
      case Unread(v) => (Displaced(PushBack(v).0), PushBack(v).1)
    }

    /** A run of consumer calls: what each returned, and the state afterwards. */
    function Run(ops: seq<Op>): (r: (seq<Output<E>>, XorSumState<E>))
      ensures |r.0| == |ops|
      decreases |ops|
    {
      if ops == [] then ([], this)
      else
        var (o, s) := Apply(ops[0]);
        var (os, t) := s.Run(ops[1..]);
        ([o] + os, t)
    }
  }

  /**
   * The two wrappers are interchangeable: on any run of calls an `XorSumPushBack` returns
   * what a `PushBack` over the same stream and slot returns, and ends in the same slot and
   * stream.
   */
  lemma {:induction false} Substitutable<E>(s: XorSumState<E>, ops: seq<Op>)
    ensures s.Run(ops).0 == s.Plain().Run(ops).0
    ensures s.Run(ops).1.Plain() == s.Plain().Run(ops).1
    decreases |ops|
  {
    if ops != [] {
      var (o, s1) := s.Apply(ops[0]);
      var (p, q1) := s.Plain().Apply(ops[0]);
      assert o == p && s1.Plain() == q1;
      Substitutable(s1, ops[1..]);
    }
  }

  /**
   * The checksum invariant: after any run of calls, `sum` is its value before XOR every
   * byte delivered by `next` XOR every byte given to `push_back`.
   */
  lemma {:induction false} SumTracksTraffic<E>(s: XorSumState<E>, ops: seq<Op>)
    ensures s.Run(ops).1.sum == s.sum ^ DeliveredXor(s.Run(ops).0) ^ PushedXor(ops)
    decreases |ops|
  {
    if ops != [] {
      var s1 := s.Apply(ops[0]).1;
      SumTracksTraffic(s1, ops[1..]);
      RunCons(s, ops);
      DeliveredXorCons(s.Apply(ops[0]).0, s1.Run(ops[1..]).0);
      StepSum(s, ops[0]);
      XorRearrange(s.sum, Contribution(s.Apply(ops[0]).0), OpXor(ops[0]),
        DeliveredXor(s1.Run(ops[1..]).0), PushedXor(ops[1..]));
    }
  }

  lemma RunCons<E>(s: XorSumState<E>, ops: seq<Op>)
    requires ops != []
    ensures s.Run(ops).0 == [s.Apply(ops[0]).0] + s.Apply(ops[0]).1.Run(ops[1..]).0
    ensures s.Run(ops).1 == s.Apply(ops[0]).1.Run(ops[1..]).1
  {
  }

  lemma DeliveredXorCons<E>(o: Output<E>, os: seq<Output<E>>)
    ensures DeliveredXor([o] + os) == Contribution(o) ^ DeliveredXor(os)
  {
    assert ([o] + os)[1..] == os;
  }

  lemma StepSum<E>(s: XorSumState<E>, op: Op)
    ensures s.Apply(op).1.sum == s.sum ^ Contribution(s.Apply(op).0) ^ OpXor(op)
  {
    if op == Read {
      ReadSum(s);
    }
  }

  lemma ReadSum<E>(s: XorSumState<E>)
    ensures s.Apply(Read).1.sum == s.sum ^ Contribution(s.Apply(Read).0)
  {
    FoldSplit(s.sum, s.Next().0);
  }

  lemma XorRearrange(a: bv8, d: bv8, u: bv8, ds: bv8, us: bv8)
    ensures (a ^ d ^ u) ^ (ds ^ us) == a ^ (d ^ ds) ^ (u ^ us)
  {
  }

  /**
   * Reading a byte, pushing it back and reading it again delivers it twice and leaves it
   * folded into `sum` once.
   */
  lemma ReadPushReadCountsOnce<E>(s: XorSumState<E>, x: bv8)
    requires s.Pending() != [] && s.Pending()[0] == Ok(x)
    ensures s.Run([Read, Unread(x), Read]).0 == [Delivered(Some(Ok(x))), Displaced(None), Delivered(Some(Ok(x)))]
    ensures s.Run([Read, Unread(x), Read]).1.sum == s.sum ^ x
    ensures s.Run([Read, Unread(x), Read]).1.head == None
    ensures s.Run([Read, Unread(x), Read]).1.Pending() == s.Pending()[1..]
  {
    var ops := [Read, Unread(x), Read];
    Substitutable(s, ops);
    assert s.Plain().Pending() == s.Pending();
    Pushback.ReadPushRead(s.Plain(), x);
    SumTracksTraffic(s, ops);
    ReplayTraffic<E>(x);
    XorTwice(s.sum, x);
  }

  /** The traffic of read, push back, read: the byte is delivered twice and pushed once. */
  lemma ReplayTraffic<E>(x: bv8)
    ensures DeliveredXor<E>([Delivered(Some(Ok(x))), Displaced(None), Delivered(Some(Ok(x)))]) == 0
    ensures PushedXor([Read, Unread(x), Read]) == x
  {
    var o: Output<E> := Delivered(Some(Ok(x)));
    var d: Output<E> := Displaced(None);
    assert [o, d, o] == [o] + ([d] + ([o] + []));
    DeliveredXorCons(o, []);
    DeliveredXorCons(d, [o] + []);
    DeliveredXorCons(o, [d] + ([o] + []));
    XorTwice(0, x);
    assert [Read, Unread(x), Read] == [Read] + ([Unread(x)] + ([Read] + []));
    PushedXorCons(Read, []);
    PushedXorCons(Unread(x), [Read] + []);
    PushedXorCons(Read, [Unread(x)] + ([Read] + []));
  }

  lemma PushedXorCons(op: Op, ops: seq<Op>)
    ensures PushedXor([op] + ops) == OpXor(op) ^ PushedXor(ops)
  {
    assert ([op] + ops)[1..] == ops;
  }

  /**
   * Peeking: pushing back the byte `next` just delivered restores both what is pending
   * and the sum, since `push_back` folds out again what `next` folded in.
   */
  lemma PeekRestores<E>(st: XorSumState<E>, b: bv8)
    requires st.Next().0 == Some(Ok(b))
    ensures st.Next().1.PushBack(b).1.sum == st.sum
    ensures st.Next().1.PushBack(b).1.Pending() == st.Pending()
  {
    var s1 := st.Next().1;
    assert s1.sum == st.sum ^ b;
    XorTwice(st.sum, b);
    assert st.Pending() != [] && st.Pending()[0] == Ok(b);
    assert s1.Pending() == s1.stream.Remaining();
  }

  lemma XorTwice(a: bv8, x: bv8)
    ensures a ^ x ^ x == a
  {
  }

  /** The stream object: the owned stream, the slot and the running sum, updated in place. */
  class XorSumPushBack<E> {
    var stream: Source<E>
    var head: Option<bv8>
    var sum: bv8

    ghost function State(): XorSumState<E>
      reads this
    {
      XorSumState(stream, head, sum)
    }

    ghost function Pending(): seq<Item<E>>
      reads this
    {
      State().Pending()
    }

    /** `XorSumPushBack::new`: wraps `stream` with an empty slot and `initialSum` as the sum. */
    constructor(stream: Source<E>, initialSum: bv8)
      ensures this.stream == stream && head == None && sum == initialSum
      ensures Pending() == stream.Remaining()
    {
      this.stream := stream;
      head := None;
      sum := initialSum;
    }

    /** `reset_sum`: overwrites the sum; the slot and the stream are untouched. */
    method ResetSum(initialSum: bv8)
      modifies this
      ensures sum == initialSum && head == old(head) && stream == old(stream)
    {
      sum := initialSum;
    }

    /** `sum`: reads the running sum. */
    method Sum() returns (s: bv8)
      ensures s == sum
    {
      s := sum;
    }

    /** `push_back`: `sum ^= v`, then `Option::replace` on the slot. */
    method PushBack(v: bv8) returns (displaced: Option<bv8>)
      modifies this
      ensures (displaced, State()) == old(State()).PushBack(v)
      ensures Pending() == [Ok(v)] + old(stream.Remaining())
      ensures old(head) == None ==> Pending() == [Ok(v)] + old(Pending())
      ensures displaced == old(head) && head == Some(v) && stream == old(stream)
      ensures sum == old(sum) ^ v
    {
      sum := sum ^ v;
      displaced := head;
      head := Some(v);
    }

    /** `next`: `Option::take` on the slot, else `try_next`; a delivered byte is folded in. */
    method Next() returns (r: Option<Item<E>>)
      modifies this
      ensures (r, State()) == old(State()).Next()
      ensures old(Pending()) == [] ==> r == None && Pending() == []
      ensures old(Pending()) != [] ==> r == Some(old(Pending())[0]) && Pending() == old(Pending())[1..]
      ensures old(head).Some? ==> r == Some(Ok(old(head).value)) && stream == old(stream)
      ensures old(head).None? ==> (r, stream) == old(stream).TryNext()
      ensures head == None && sum == Fold(old(sum), r)
    {
      var item;
      if head.Some? {
        item := head.value;
        head := None;
      } else {
        var (x, stream') := stream.TryNext();
        stream := stream';
        match x
        case Some(Ok(b)) =>
          item := b;
        case _ =>
          r := x;
          return;
      }
      sum := sum ^ item;
      r := Some(Ok(item));
    }
  }

  /** Folding one more delivered item into a sum that covers `got` gives one that covers `got + [item]`. */
  lemma FoldAllSnoc<E>(a: bv8, got: seq<Item<E>>, item: Item<E>)
    ensures FoldAll(a, got + [item]) == Fold(FoldAll(a, got), Some(item))
  {
    assert (got + [item])[..|got|] == got;
  }

  /** `StreamExt::take(n)` followed by `collect`: up to `n` calls of `next`. */
  method Take<E>(s: XorSumPushBack<E>, n: nat) returns (got: seq<Item<E>>)
    modifies s
    ensures var k := if n < |old(s.Pending())| then n else |old(s.Pending())|;
      got == old(s.Pending())[..k] && s.Pending() == old(s.Pending())[k..]
    ensures n > 0 ==> s.head == None
    ensures n == 0 ==> s.State() == old(s.State())
    ensures s.sum == FoldAll(old(s.sum), got)
  {
    ghost var p := s.Pending();
    got := [];
    while |got| < n
      invariant |got| <= n && got + s.Pending() == p
      invariant |got| > 0 ==> s.head == None
      invariant n == 0 ==> s.State() == old(s.State())
      invariant s.sum == FoldAll(old(s.sum), got)
      decreases n - |got|
    {
      ghost var before := s.Pending();
      var x := s.Next();
      if x.None? {
        break;
      }
      MoveOne(got, before, s.Pending(), p);
      FoldAllSnoc(old(s.sum), got, x.value);
      got := got + [x.value];
    }
    TakeDone(got, s.Pending(), p, n);
  }

  /** `collect` on the whole stream: `next` until end-of-stream. */
  method CollectAll<E>(s: XorSumPushBack<E>) returns (got: seq<Item<E>>)
    modifies s
    ensures got == old(s.Pending()) && s.Pending() == []
    ensures s.sum == FoldAll(old(s.sum), got)
  {
    got := [];
    var done := false;
    while !done
      invariant got + s.Pending() == old(s.Pending())
      invariant done ==> s.Pending() == []
      invariant s.sum == FoldAll(old(s.sum), got)
      decreases |s.Pending()|, !done
    {
      ghost var before := s.Pending();
      var x := s.Next();
      match x
      case None =>
        done := true;
      case Some(item) =>
        MoveOne(got, before, s.Pending(), old(s.Pending()));
        FoldAllSnoc(old(s.sum), got, item);
        got := got + [item];
    }
  }

  /** The sums the tests expect: folding the first four bytes, all eight, and the last four from 0x30. */
  lemma DataSums<E>()
    ensures FoldAll<E>(0, Pushback.Data()[..4]) == 0x0F
    ensures FoldAll<E>(0, Pushback.Data()) == 0xFF
    ensures FoldAll<E>(0x30, Pushback.Data()[4..]) == 0xC0
  {
    var d := Pushback.Data<E>();
    assert FoldAll(0, d[..1]) == 0x01 by { assert d[..1][..0] == []; }
    assert FoldAll(0, d[..2]) == 0x03 by { assert d[..2][..1] == d[..1]; }
    assert FoldAll(0, d[..3]) == 0x07 by { assert d[..3][..2] == d[..2]; }
    assert FoldAll(0, d[..4]) == 0x0F by { assert d[..4][..3] == d[..3]; }
    assert FoldAll(0, d[..5]) == 0x1F by { assert d[..5][..4] == d[..4]; }
    assert FoldAll(0, d[..6]) == 0x3F by { assert d[..6][..5] == d[..5]; }
    assert FoldAll(0, d[..7]) == 0x7F by { assert d[..7][..6] == d[..6]; }
    assert FoldAll(0, d) == 0xFF by { assert d[..7] == d[..|d| - 1]; }
    var e := d[4..];
    assert FoldAll(0x30, e[..1]) == 0x20 by { assert e[..1][..0] == []; }
    assert FoldAll(0x30, e[..2]) == 0x00 by { assert e[..2][..1] == e[..1]; }
    assert FoldAll(0x30, e[..3]) == 0x40 by { assert e[..3][..2] == e[..2]; }
    assert FoldAll(0x30, e) == 0xC0 by { assert e[..3] == e[..|e| - 1]; }
  }

  /** The sum after replaying 0xCC and reading 16, 32 and 64, starting from 0xC3. */
  lemma ReplaySum<E>()
    ensures FoldAll<E>(0xC3, [Ok(0xCC), Ok(16), Ok(32), Ok(64)]) == 0x7F
  {
    var e: seq<Item<E>> := [Ok(0xCC), Ok(16), Ok(32), Ok(64)];
    assert FoldAll(0xC3, e[..1]) == 0x0F by { assert e[..1][..0] == []; }
    assert FoldAll(0xC3, e[..2]) == 0x1F by { assert e[..2][..1] == e[..1]; }
    assert FoldAll(0xC3, e[..3]) == 0x3F by { assert e[..3][..2] == e[..2]; }
    assert FoldAll(0xC3, e) == 0x7F by { assert e[..3] == e[..|e| - 1]; }
  }

  /** Test `the_stream_works_and_the_xorsum_is_computed`. */
  method TheStreamWorksAndTheXorsumIsComputed<E>() returns (got: seq<Item<E>>, sum: bv8)
    ensures got == Pushback.Data() && sum == 0xFF
  {
    var strm := new XorSumPushBack<E>(Source(Pushback.Data(), 0), 0);
    got := CollectAll(strm);
    DataSums<E>();
    sum := strm.Sum();
  }

  /** Test `the_xorsum_can_be_reset`. */
  method TheXorsumCanBeReset<E>() returns (first: seq<Item<E>>, sum1: bv8, rest: seq<Item<E>>, sum2: bv8)
    ensures first == Pushback.Data()[..4] && sum1 == 0x0F
    ensures rest == Pushback.Data()[4..] && sum2 == 0xC0
  {
    var strm := new XorSumPushBack<E>(Source(Pushback.Data(), 0), 0);
    DataSums<E>();
    first := Take(strm, 4);
    sum1 := strm.Sum();
    strm.ResetSum(0x30);
    rest := CollectAll(strm);
    sum2 := strm.Sum();
  }

  /**
   * Test `pushing_back_updates_the_xorsum`, together with the sum after the second `take`:
   * the replayed 0xCC is folded again on delivery, cancelling the fold of `push_back`.
   */
  method PushingBackUpdatesTheXorsum<E>() returns (first: seq<Item<E>>, sum1: bv8, sum2: bv8, second: seq<Item<E>>, sum3: bv8)
    ensures first == Pushback.Data()[..4] && sum1 == 0x0F
    ensures sum2 == 0xC3
    ensures second == [Ok(0xCC), Ok(16), Ok(32), Ok(64)]
    ensures sum3 == 0x7F
  {
    var strm := new XorSumPushBack<E>(Source(Pushback.Data(), 0), 0);
    first := Take(strm, 4);
    sum1 := strm.Sum();
    DataSums<E>();
    assert sum1 == 0x0F;
    assert strm.stream.Remaining() == Pushback.Data()[4..];
    var _ := strm.PushBack(0xCC);
    sum2 := strm.Sum();
    assert sum2 == 0xC3;
    assert strm.Pending() == [Ok(0xCC)] + Pushback.Data()[4..];
    second, sum3 := TakeReplayed(strm);
  }

  /** The second half of that test: `take(4)` after the push-back, and the sum it leaves. */
  method TakeReplayed<E>(strm: XorSumPushBack<E>) returns (second: seq<Item<E>>, sum3: bv8)
    requires strm.Pending() == [Ok(0xCC)] + Pushback.Data()[4..] && strm.sum == 0xC3
    modifies strm
    ensures second == [Ok(0xCC), Ok(16), Ok(32), Ok(64)]
    ensures sum3 == 0x7F
  {
    second := Take(strm, 4);
    Pushback.ReplayedData<E>();
    assert second == [Ok(0xCC), Ok(16), Ok(32), Ok(64)];
    sum3 := strm.Sum();
    assert sum3 == FoldAll(0xC3, second);
    ReplaySum<E>();
  }
}
