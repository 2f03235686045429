/**
 * `skip_whitespaces` (src/utils.rs): reads bytes with `next` until one is not `b' '`,
 * pushes that one back and returns `Some(Ok(()))`; an error from the stream is returned
 * as `Some(Err(e))`, and end-of-stream as `None` (the `?` on `next`).
 */
module Utils {
  import opened Wrappers
  import opened Stream
  import Pushback
  import XorsumPushback

  /** `b' '`. */
  const Space: bv8 := 0x20

  /** The length of the run of `b' '` bytes at the front of `p`. */
  function LeadingSpaces<E>(p: seq<Item<E>>): (k: nat)
    ensures k <= |p|
    ensures forall i :: 0 <= i < k ==> p[i] == Ok(Space)
    ensures k < |p| ==> p[k] != Ok(Space)
  {
    if p != [] && p[0] == Ok(Space) then 1 + LeadingSpaces(p[1..]) else 0
  }

  /** The run of spaces at the front ends exactly where the first other item stands. */
  lemma {:induction false} LeadingSpacesAt<E>(p: seq<Item<E>>, i: nat)
    requires i <= |p| && forall j :: 0 <= j < i ==> p[j] == Ok(Space)
    requires i < |p| ==> p[i] != Ok(Space)
    ensures LeadingSpaces(p) == i
    decreases i
  {
    if i > 0 {
      assert p[0] == Ok(Space);
      LeadingSpacesAt(p[1..], i - 1);
    }
  }

  /**
   * What `skip_whitespaces` does on a stream whose pending items are `p`: its result, and
   * how many items it consumes for good (a non-space byte it reads is pushed back, so it
   * is not counted). It consumes only spaces, plus the error it stops on, and stops at the
   * first item that is not a space.
   */
  function Skip<E>(p: seq<Item<E>>): (r: (Option<Result<(), E>>, nat))
    ensures r.1 <= |p|
    ensures forall i :: 0 <= i < r.1 ==> p[i] == Ok(Space) || (i == r.1 - 1 && p[i].Err?)
    ensures r.0 == None <==> r.1 == |p| && forall i :: 0 <= i < |p| ==> p[i] == Ok(Space)
    ensures r.0 == Some(Ok(())) <==>
      r.1 < |p| && p[r.1].Ok? && p[r.1] != Ok(Space) && forall i :: 0 <= i < r.1 ==> p[i] == Ok(Space)
    ensures r.0.Some? && r.0.value.Err? <==> 0 < r.1 && p[r.1 - 1].Err?
    ensures r.0.Some? && r.0.value.Err? ==> p[r.1 - 1] == Err(r.0.value.error)
  {
    var k := LeadingSpaces(p);
    if k == |p| then (None, k)
    else
      match p[k]
      case Ok(_) => (Some(Ok(())), k)
      case Err(e) => (Some(Err(e)), k + 1)
  }

  /** Only spaces before the end: the skipper consumes everything and reports end-of-stream. */
  lemma SkipToEnd<E>(p: seq<Item<E>>)
    requires forall j :: 0 <= j < |p| ==> p[j] == Ok(Space)
    ensures Skip(p) == (None, |p|)
  {
    LeadingSpacesAt(p, |p|);
  }

  /** An error after `i` spaces: the skipper consumes the spaces and the error and returns it. */
  lemma SkipToError<E>(p: seq<Item<E>>, i: nat)
    requires i < |p| && p[i].Err? && forall j :: 0 <= j < i ==> p[j] == Ok(Space)
    ensures Skip(p) == (Some(Err(p[i].error)), i + 1)
  {
    LeadingSpacesAt(p, i);
  }

  /** A byte other than a space after `i` spaces: the skipper consumes the spaces only. */
  lemma SkipToByte<E>(p: seq<Item<E>>, i: nat)
    requires i < |p| && p[i].Ok? && p[i] != Ok(Space) && forall j :: 0 <= j < i ==> p[j] == Ok(Space)
    ensures Skip(p) == (Some(Ok(())), i)
  {
    LeadingSpacesAt(p, i);
  }

  /** Facts about the suffix of `p` from position `i` on, and the prefix up to it. */
  lemma SuffixStep<T>(p: seq<T>, i: nat)
    requires i < |p|
    ensures p[i..] == [p[i]] + p[i + 1..]
    ensures p[..i + 1] == p[..i] + [p[i]]
  {
  }

  /** `skip_whitespaces` on a `PushBack`. */
  method SkipWhitespaces<E>(input: Pushback.PushBack<E>) returns (r: Option<Result<(), E>>)
    modifies input
    ensures r == Skip(old(input.Pending())).0
    ensures input.Pending() == old(input.Pending())[Skip(old(input.Pending())).1..]
    ensures r == Some(Ok(())) ==> input.val.Some? && input.val.value != Space
    ensures r != Some(Ok(())) ==> input.val == None
  {
    ghost var p := input.Pending();
    ghost var i := 0;
    while true
      invariant i <= |p| && input.Pending() == p[i..]
      invariant forall j :: 0 <= j < i ==> p[j] == Ok(Space)
      decreases |input.Pending()|
    {
      if i < |p| {
        SuffixStep(p, i);
      }
      var x := input.Next();
      match x
      case None =>
        SkipToEnd(p);
        return None;
      case Some(Err(e)) =>
        SkipToError(p, i);
        return Some(Err(e));
      case Some(Ok(b)) =>
        if b != Space {
          SkipToByte(p, i);
          var displaced := input.PushBack(b);
          assert displaced == None;
          break;
        }
      i := i + 1;
    }
    return Some(Ok(()));
  }

  /**
   * `skip_whitespaces` on an `XorSumPushBack`: besides the above, `sum` ends up with the
   * consumed spaces folded in and nothing else, since the non-space byte is folded by
   * `next` and folded out again by `push_back`.
   */
  method SkipWhitespacesXorSum<E>(input: XorsumPushback.XorSumPushBack<E>) returns (r: Option<Result<(), E>>)
    modifies input
    ensures r == Skip(old(input.Pending())).0
    ensures input.Pending() == old(input.Pending())[Skip(old(input.Pending())).1..]
    ensures r == Some(Ok(())) ==> input.head.Some? && input.head.value != Space
    ensures r != Some(Ok(())) ==> input.head == None
    ensures input.sum == FoldAll(old(input.sum), old(input.Pending())[..Skip(old(input.Pending())).1])
  {
    ghost var p := input.Pending();
    ghost var a := input.sum;
    ghost var i := 0;
    while true
      invariant i <= |p| && input.Pending() == p[i..]
      invariant forall j :: 0 <= j < i ==> p[j] == Ok(Space)
      invariant input.sum == FoldAll(a, p[..i])
      decreases |input.Pending()|
    {
      if i < |p| {
        SuffixStep(p, i);
      }
      ghost var st := input.State();
      var x := input.Next();
      match x
      case None =>
        SkipToEnd(p);
        assert p[..i] == p;
        return None;
      case Some(Err(e)) =>
        SkipToError(p, i);
        XorsumPushback.FoldAllSnoc(a, p[..i], p[i]);
        return Some(Err(e));
      case Some(Ok(b)) =>
        if b != Space {
          SkipToByte(p, i);
          var displaced := input.PushBack(b);
          assert displaced == None;
          XorsumPushback.PeekRestores(st, b);
          break;
        }
        XorsumPushback.FoldAllSnoc(a, p[..i], p[i]);
      i := i + 1;
    }
    return Some(Ok(()));
  }

  /** Folding a run of `n` spaces into `a` gives `a` back when `n` is even, `a ^ b' '` when odd. */
  lemma {:induction false} FoldSpaces<E>(a: bv8, q: seq<Item<E>>)
    requires forall j :: 0 <= j < |q| ==> q[j] == Ok(Space)
    ensures FoldAll(a, q) == if |q| % 2 == 0 then a else a ^ Space
    decreases |q|
  {
    if q != [] {
      FoldSpaces(a, q[..|q| - 1]);
      if |q| % 2 == 0 {
        XorsumPushback.XorTwice(a, Space);
      }
    }
  }

  /**
   * The net effect of `skip_whitespaces` on the checksum: one `b' '` for every skipped
   * space, so the sum is unchanged after an even number of them and flipped by `b' '`
   * after an odd number, whichever way the skip ends.
   */
  lemma SkipSum<E>(a: bv8, p: seq<Item<E>>)
    ensures FoldAll(a, p[..Skip(p).1]) == if LeadingSpaces(p) % 2 == 0 then a else a ^ Space
  {
    var k := LeadingSpaces(p);
    FoldSpaces(a, p[..k]);
    if Skip(p).1 != k {
      assert p[..k + 1] == p[..k] + [p[k]];
      XorsumPushback.FoldAllSnoc(a, p[..k], p[k]);
    }
  }

  /** The bytes `b"      d"`: six spaces, then `d`. */
  function SpacesThenD<E>(): seq<Item<E>>
  {
    [Ok(Space), Ok(Space), Ok(Space), Ok(Space), Ok(Space), Ok(Space), Ok(0x64)]
  }

  /** On `b"      d"` the skipper stops at `d`, after six spaces, and leaves `d` pending. */
  lemma SkipSpacesThenD<E>()
    ensures Skip(SpacesThenD<E>()) == (Some(Ok(())), 6)
    ensures LeadingSpaces(SpacesThenD<E>()) == 6
    ensures SpacesThenD<E>()[6..] == [Ok(0x64)]
    ensures FoldAll<E>(0, SpacesThenD<E>()[..Skip(SpacesThenD<E>()).1]) == 0
  {
    LeadingSpacesAt(SpacesThenD<E>(), 6);
    SkipSum(0, SpacesThenD<E>());
  }

  /** Test `skips_white_spaces_and_pushes_back_the_first_non_space_byte`, on a `PushBack`. */
  method SkipsWhiteSpacesAndPushesBackTheFirstNonSpaceByte<E>() returns (r: Option<Result<(), E>>, next: Option<Item<E>>)
    ensures r == Some(Ok(())) && next == Some(Ok(0x64))
  {
    var data := new Pushback.PushBack<E>(Source(SpacesThenD(), 0));
    SkipSpacesThenD<E>();
    r := SkipWhitespaces(data);
    next := data.Next();
  }

  /**
   * The same test on an `XorSumPushBack` started at 0; besides, the six spaces cancel out
   * in the sum.
   */
  method SkipsWhiteSpacesXorSum<E>() returns (r: Option<Result<(), E>>, sum: bv8, next: Option<Item<E>>)
    ensures r == Some(Ok(())) && sum == 0
    ensures next == Some(Ok(0x64))
  {
    ghost var p := SpacesThenD<E>();
    var data := new XorsumPushback.XorSumPushBack<E>(Source(SpacesThenD(), 0), 0);
    assert data.Pending() == p;
    SkipSpacesThenD<E>();
    r := SkipWhitespacesXorSum(data);
    sum := data.Sum();
    assert data.Pending() == [Ok(0x64)];
    next := data.Next();
  }
}
