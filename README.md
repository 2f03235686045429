# One-slot push-back byte streams, in Dafny

This project models the input layer of the `async-gcode` parser. It covers two parts.

- **The push-back wrappers in `src/stream.rs`.**
  - `PushBack` wraps a fallible byte stream and adds one slot of lookahead, `val`.
  - `XorSumPushBack` has the same shape, with the slot called `head`. It also keeps a running XOR checksum, `sum`.
- **`skip_whitespaces` in `src/utils.rs`.** It reads through `b' '` bytes, pushes back the first other byte, and passes on errors and end-of-stream.

## How the model is built

- **The wrapped stream** is the datatype `Stream.Source`. It holds every item the stream will produce (`Result<bv8, E>`) and a position. `TryNext` is `try_next`: it returns `None` once the position reaches the end, and keeps doing so from then on.
- **Each wrapper has two forms.**
  - A class (`Pushback.PushBack`, `XorsumPushback.XorSumPushBack`). Its fields are the ones the code updates in place, and its methods follow the code statement by statement.
  - A state datatype (`PushBackState`, `XorSumState`) with pure step functions `Next` and `PushBack`.
  - `Next` and `PushBack` of each class ensure `(result, State()) == old(State()).Next()` (or `.PushBack(v)`). So every fact proved about the step functions holds for the objects. The constructors, `ResetSum` and `Sum` state their effect on the fields directly.
- **`Pending()`** is the abstract view of a wrapper: the slot's byte, if any, followed by the stream's remaining items. It is exactly what the wrapper will deliver from here on. `next` removes the front of `Pending()`. `push_back(v)` puts `v` in front of the stream's remaining items.
- **Runs of calls.** `Op` (`Read` or `Unread(v)`) and `Run` describe a sequence of consumer calls and what each returns. The lemmas about draining, substitutability and the checksum are stated over runs.
- **The repository's tests.** They use `StreamExt::take(n)` and `collect` from the `futures` crate. These are modelled as the client methods `Take` and `CollectAll`, which are loops over `Next`. Each test is a method whose `ensures` states the test's assertions.
- **`skip_whitespaces` is specified by the function `Utils.Skip`.** It gives the result and how many pending items are consumed for good. The method is written once for each wrapper class, because the code is generic over both.

`XorSumPushBack::next` folds every byte it delivers into `sum`, including a byte replayed from the slot (src/stream.rs:295-303). `push_back` has already folded that byte in (src/stream.rs:257), so the fold in `push_back` and the fold on redelivery cancel. `XorsumPushback.ReadPushReadCountsOnce` proves the net effect: a byte that is read, pushed back and read again ends up counted once. `XorsumPushback.PushingBackUpdatesTheXorsum` shows the consequence on the repository's own test data: the sum after the second `take(4)` is 0x7F.

## Model

| member | source | states |
|---|---|---|
| Stream.Source.TryNext | src/stream.rs:147-149 | the wrapped stream's `try_next`: at the end it returns `None` and stays put; otherwise it returns the first remaining item and the remaining items lose exactly that one |
| Pushback.PushBackState.Next | src/stream.rs:143-150 | with a held value: returns `Some(Ok(v))`, empties the slot and leaves the stream untouched; with an empty slot: returns the stream's own result (byte, error or end) unchanged; in every case: returns the front of `Pending()` and leaves the rest, or `None` with nothing changed when nothing is pending |
| Pushback.PushBackState.PushBack | src/stream.rs:115-117 | returns the previous slot contents and holds `v`; the stream is untouched; `v` is now delivered before the stream's remaining items, and the displaced value followed by what remains is the old pending sequence |
| Pushback.PushBack.constructor | src/stream.rs:105-108 | `new` holds the given stream and an empty slot, so the pending items are the stream's |
| Pushback.PushBack.PushBack | src/stream.rs:115-117 | the in-place `push_back` is the step function `PushBackState.PushBack`: it returns the old slot, holds `v`, leaves the stream alone, and puts `v` in front of whatever was pending when the slot was empty |
| Pushback.PushBack.Next | src/stream.rs:143-150 | the in-place `next` is the step function `PushBackState.Next`: from the slot without touching the stream, or from `try_next`; it returns the front of the pending items and leaves the slot empty |
| Pushback.ReadsYieldPending | src/stream.rs:143-150 | `n` calls of `next` with no push-back deliver the pending items in order, then `None` on every further call; whatever is past the first `n` stays pending |
| Pushback.ReadsDeliver | src/stream.rs:143-150 | the `i`-th of `n` reads delivers the `i`-th pending item, or `None` past the end |
| Pushback.ReadsLeave | src/stream.rs:143-150 | after `n` reads the pending items past the first `n` remain, or nothing |
| Pushback.DrainYieldsSource | src/stream.rs:158-170 | a fresh wrapper (empty slot) drained to the end delivers exactly the wrapped stream's items, then reports end-of-stream and stays there |
| Pushback.ReadPushRead | src/stream.rs:115-150 | reading a byte, pushing it back and reading again delivers it twice; the push-back displaces nothing, and afterwards the slot is empty and only the byte has been consumed |
| Pushback.Take | src/stream.rs:180-183 | `take(n).collect()` returns the first `min(n, pending)` items in order and leaves the rest pending; with `n > 0` the slot ends empty, and `take(0)` changes nothing |
| Pushback.CollectAll | src/stream.rs:166-169 | `collect()` returns every pending item in order and leaves nothing pending |
| Pushback.ReplayedData | src/stream.rs:185-194 | a helper for the test: the items the test's stream holds after its first four bytes, with 0xCC put in front, begin with 0xCC, 16, 32, 64 (the reading and the push-back themselves happen in `PushbackedValueComeOutFirst`) |
| Pushback.TheStreamWorks | src/stream.rs:158-170 | test `the_stream_works`: collecting the wrapper gives back the data |
| Pushback.PushbackedValueComeOutFirst | src/stream.rs:172-195 | test `pushbacked_value_come_out_first`: `take(4)` gives 1, 2, 4, 8; after `push_back(0xCC)` the next `take(4)` gives 0xCC, 16, 32, 64 |
| XorsumPushback.XorSumState.Next | src/stream.rs:294-305 | the same delivery as a plain `PushBack`, with the delivered byte XOR-ed into `sum` whether it came from `head` or from the stream; an error or end-of-stream is returned unchanged and leaves `sum` alone |
| XorsumPushback.XorSumState.PushBack | src/stream.rs:256-259 | `sum` becomes `sum ^ v` even when the slot was occupied; the previous slot contents come back; the stream is untouched |
| XorsumPushback.Substitutable | src/stream.rs:294-305 | on any run of `next`/`push_back` calls an `XorSumPushBack` returns exactly what a `PushBack` over the same stream and slot returns, and ends in the same slot and stream |
| XorsumPushback.SumTracksTraffic | src/stream.rs:256-305 | after any run of calls, `sum` is its earlier value XOR every byte `next` delivered XOR every value given to `push_back` |
| XorsumPushback.ReadPushReadCountsOnce | src/stream.rs:256-305 | reading `x`, pushing `x` back and reading it again delivers `x` twice but leaves it in `sum` once, with the slot empty and only `x` consumed |
| XorsumPushback.PeekRestores | src/utils.rs:34-40 | `next` followed by `push_back` of the byte just delivered restores both the pending items and `sum` |
| XorsumPushback.XorSumPushBack.constructor | src/stream.rs:233-239 | `new(stream, initial_sum)` holds the stream, an empty slot and `initial_sum` |
| XorsumPushback.XorSumPushBack.ResetSum | src/stream.rs:241-243 | `reset_sum` sets `sum` and changes nothing else |
| XorsumPushback.XorSumPushBack.Sum | src/stream.rs:245-247 | `sum()` returns the running sum and changes nothing |
| XorsumPushback.XorSumPushBack.PushBack | src/stream.rs:256-259 | the in-place `push_back` is the step function: `sum ^= v`, then `replace` on the slot |
| XorsumPushback.XorSumPushBack.Next | src/stream.rs:294-305 | the in-place `next`, written in the code's shape (take the slot, else `try_next` with an early return on anything but a byte, then `sum ^= item`), is the step function `XorSumState.Next` |
| XorsumPushback.Take | src/stream.rs:337-338 | `take(n).collect()` on the checksum wrapper: the first `min(n, pending)` items, with exactly their bytes folded into `sum`; `take(0)` changes nothing |
| XorsumPushback.CollectAll | src/stream.rs:322 | `collect()` on the checksum wrapper: every pending item, with all their bytes folded into `sum` |
| XorsumPushback.DataSums | src/stream.rs:325-348 | the XOR of 1, 2, 4, 8 is 0x0F; of all eight bytes, 0xFF; of 16, 32, 64, 128 from 0x30, 0xC0 |
| XorsumPushback.ReplaySum | src/stream.rs:365-375 | folding the replayed 0xCC and then 16, 32, 64 into 0xC3 gives 0x7F |
| XorsumPushback.TheStreamWorksAndTheXorsumIsComputed | src/stream.rs:313-326 | test `the_stream_works_and_the_xorsum_is_computed`: collecting gives the data, and the sum is 0xFF |
| XorsumPushback.TheXorsumCanBeReset | src/stream.rs:328-349 | test `the_xorsum_can_be_reset`: 0x0F after four bytes; after `reset_sum(0x30)` the rest of the data, then 0xC0 |
| XorsumPushback.PushingBackUpdatesTheXorsum | src/stream.rs:351-376 | test `pushing_back_updates_the_xorsum`: 0x0F, then 0xC3 after `push_back(0xCC)`, then 0xCC, 16, 32, 64; and 0x7F afterwards, because the replayed 0xCC is folded again |
| XorsumPushback.TakeReplayed | src/stream.rs:365-375 | the second half of that test: with 0xCC pushed back in front of 16, 32, 64, 128 and a sum of 0xC3, `take(4)` gives 0xCC, 16, 32, 64 and leaves the sum at 0x7F |
| Utils.LeadingSpaces | src/utils.rs:33-42 | the length of the run of `b' '` bytes at the front: every item in it is a space, and the item right after it, if any, is not |
| Utils.Skip | src/utils.rs:29-44 | `None` exactly when every pending item is a space; `Some(Ok(()))` exactly when a byte other than a space follows the spaces, and then only the spaces are consumed; `Some(Err(e))` exactly when an error follows the spaces, and then the spaces and that error are consumed and `e` is that error; nothing else is consumed |
| Utils.SkipToEnd | src/utils.rs:34 | only spaces before the end: everything is consumed and the result is `None`, from the `?` on `next` |
| Utils.SkipToError | src/utils.rs:34-36 | an error after `i` spaces: `Some(Err(e))` with that error, after consuming `i + 1` items |
| Utils.SkipToByte | src/utils.rs:38-41 | a byte other than a space after `i` spaces: `Some(Ok(()))`, after consuming the `i` spaces only |
| Utils.SkipWhitespaces | src/utils.rs:29-44 | the loop on a `PushBack` returns `Skip`'s result and leaves pending exactly what `Skip` does not consume; on `Some(Ok(()))` the slot holds the first byte that is not a space, so the next `next` delivers it; on `None` and `Some(Err(e))` the slot is empty, since `next` has just taken it |
| Utils.SkipWhitespacesXorSum | src/utils.rs:29-44 | the same loop on an `XorSumPushBack`; besides, `sum` gains exactly the consumed items' bytes, since the fold of the pushed-back byte by `next` is cancelled by `push_back`; on `None` and `Some(Err(e))` the slot is empty, since `next` has just taken it |
| Utils.FoldSpaces | src/utils.rs:33-41 | folding `n` spaces into a sum leaves it unchanged when `n` is even and flips it by `b' '` when `n` is odd |
| Utils.SkipSum | src/utils.rs:33-41 | the net effect of a skip on `sum` is one `b' '` per skipped space, whichever way the skip ends |
| Utils.SkipSpacesThenD | src/utils.rs:60-66 | on `b"      d"` the skip returns `Some(Ok(()))` after six spaces, leaves `d` pending and leaves a sum of 0 unchanged |
| Utils.SkipsWhiteSpacesAndPushesBackTheFirstNonSpaceByte | src/utils.rs:52-76 | the test on a `PushBack`: after the skip, `next` delivers `b'd'` |
| Utils.SkipsWhiteSpacesXorSum | src/utils.rs:52-76 | the test on an `XorSumPushBack` started at 0: after the skip, `next` delivers `b'd'`; the sum is 0 after the six spaces |

## Left out

- The `future-stream` variants (`poll_next`, `Pin`, `Poll`, `Context`, `pin_project_lite`, src/stream.rs:89-96, 120-134, 205-218, 262-283) repeat the logic of the `async fn next` versions. Only the synchronous `next` is modelled.
- Asynchrony is not modelled: `.await` and executors are left out. Each `next` completes in one step.
- The async trait scaffolding, the `UnpinTrait` blanket impls and the `MyTryStreamExt` constructors (src/stream.rs:11-70) are type-level glue with no behaviour of their own.
- The cargo feature that picks `PushBack` or `XorSumPushBack` is not modelled. Both are modelled side by side: `skip_whitespaces`, its test and the wrapper tests exist once for each. `XorsumPushback.Substitutable` shows the two deliver the same items.
- The `try_parse!` and `try_result!` macros (src/utils.rs:6-27) are left out. They are control-flow sugar over a `ParseResult` type that is not part of this model.
- The item type is fixed to bytes (`bv8`), where the code is generic in `S::Ok: BitXorAssign + Copy`. `skip_whitespaces` needs `u8`, and the tests use bytes. The error type `E` stays abstract.
- The wrapped stream is a finite sequence of items with a position, and is fused. It cannot produce an item after it has reported end-of-stream. A real stream may misbehave there; the model does not say what happens then.
- `stream::iter` and `futures_executor::block_on` are left out. A test's stream is the sequence of its data, and `take`/`collect` are the client methods `Take` and `CollectAll`.
