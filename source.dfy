/**
 * What the push-back wrappers need from the stream they wrap (the `TryByteStream` of
 * src/stream.rs): a finite sequence of fallible bytes read front to back, and the
 * vocabulary shared by both wrappers.
 */
module Stream {
  import opened Wrappers

  /** One item of a fallible byte stream: a byte or the source's error. */
  type Item<E> = Result<bv8, E>

  /** The contents of a one-item slot, as the items it will deliver. */
  function Held<E>(slot: Option<bv8>): seq<Item<E>>
  {
    if slot.Some? then [Ok(slot.value)] else []
  }

  /**
   * The wrapped stream: every item it will ever produce, and how many of them have been
   * produced. Once `pos` reaches the end the stream keeps reporting end-of-stream.
   */
  datatype Source<E> = Source(items: seq<Item<E>>, pos: nat) {

    /** The items not produced yet, in order. */
    function Remaining(): seq<Item<E>>
    {
      if pos < |items| then items[pos..] else []
    }

    /** `try_next`: the next item, or `None` at the end; the stream is advanced past it. */
    function TryNext(): (r: (Option<Item<E>>, Source<E>))
      ensures r.1.items == items
      ensures Remaining() == [] ==> r == (None, this)
      ensures Remaining() != [] ==> r.0 == Some(Remaining()[0]) && r.1.Remaining() == Remaining()[1..]
    {
      if pos < |items| then (Some(items[pos]), Source(items, pos + 1)) else (None, this)
    }
  }

  /** A call a consumer makes on a wrapper: `next` or `push_back(v)`. */
  datatype Op = Read | Unread(v: bv8)

  /** What such a call returns: the delivered item, or the value `push_back` displaced. */
  datatype Output<E> = Delivered(item: Option<Item<E>>) | Displaced(prev: Option<bv8>)

  /** `n` consecutive calls of `next`. */
  function Reads(n: nat): (ops: seq<Op>)
    ensures |ops| == n && forall i :: 0 <= i < n ==> ops[i] == Read
  {
    seq(n, _ => Read)
  }

  /** `sum ^= b` when `x` is a delivered byte `b`; errors and end-of-stream leave `sum` alone. */
  function Fold<E>(sum: bv8, x: Option<Item<E>>): bv8
  {
    match x
    case Some(Ok(b)) => sum ^ b
    case _ => sum
  }

  /** `sum` with the bytes (not the errors) among `items` folded in, front to back. */
  function FoldAll<E>(sum: bv8, items: seq<Item<E>>): bv8
  {
    if items == [] then sum else Fold(FoldAll(sum, items[..|items| - 1]), Some(items[|items| - 1]))
  }

  /** The byte a call handed out, or 0 when it handed out none. */
  function Contribution<E>(o: Output<E>): bv8
  {
    if o.Delivered? then Fold(0, o.item) else 0
  }

  /** The XOR of the bytes handed out by the `next` calls among `outs`. */
  function DeliveredXor<E>(outs: seq<Output<E>>): bv8
  {
    if outs == [] then 0 else Contribution(outs[0]) ^ DeliveredXor(outs[1..])
  }

  /** The byte a call passed to `push_back`, or 0 for `next`. */
  function OpXor(op: Op): bv8
  {
    if op.Unread? then op.v else 0
  }

  /** The XOR of the values passed to `push_back` among `ops`. */
  function PushedXor(ops: seq<Op>): bv8
  {
    if ops == [] then 0 else OpXor(ops[0]) ^ PushedXor(ops[1..])
  }

  /** Folding `x` into `a` is XOR-ing `a` with what `x` contributes on its own. */
  lemma FoldSplit<E>(a: bv8, x: Option<Item<E>>)
    ensures Fold(a, x) == a ^ Fold(0, x)
  {
  }

  /**
   * How a bounded read ends: if `got` followed by what is left is `p`, and the reading
   * stopped at `n` items or at the end, then `got` is `p`'s first `min(n, |p|)` items.
   */
  lemma TakeDone<T>(got: seq<T>, rest: seq<T>, p: seq<T>, n: nat)
    requires got + rest == p && |got| <= n && (|got| == n || rest == [])
    ensures var k := if n < |p| then n else |p|;
      got == p[..k] && rest == p[k..]
  {
    assert p[..|got|] == got && p[|got|..] == rest;
  }

  /** One more item moved from the front of what is left to the end of what was read. */
  lemma MoveOne<T>(got: seq<T>, rest: seq<T>, rest': seq<T>, p: seq<T>)
    requires got + rest == p && rest != [] && rest' == rest[1..]
    ensures (got + [rest[0]]) + rest' == p
  {
    assert rest == [rest[0]] + rest';
  }
}
