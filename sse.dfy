/**
 * The event-stream scanner (github.com/jclem/sseparser) as an outcome oracle.
 * Frame parsing and buffering live in that library and are not modelled: each
 * pull of the scanner is represented only by what it reports.
 */
module Sse {
  import opened Wrappers
  import opened Errors

  /** What one `UnmarshalNext` call of the scanner meets next. */
  datatype ScanStep =
    | Frame(data: string)       // a complete event whose `data` field is handed to UnmarshalSSEValue
    | EndOfStream               // the source is exhausted: the scanner reports ErrStreamEOF
    | ReadFailure(text: string) // the source failed: the scanner reports that transport error

  /** The JSON decoder's verdict on a frame's data (encoding/json is not modelled). */
  datatype PayloadDecode<T> = Decoded(value: T) | Malformed(reason: string)

  /** What a `Next()` call returns: `(*object, error)`. */
  datatype NextResult<T> = NextResult(obj: Option<T>, err: Option<Error>)

  /** The sentinel payload that marks a completed stream. */
  const DoneSentinel := "[DONE]"

  /** The step the scanner takes on its next pull; an exhausted source keeps reporting its end. */
  function Upcoming(steps: seq<ScanStep>): (step: ScanStep) {
    if steps == [] then EndOfStream else steps[0]
  }

  /** The steps left after one pull. */
  function Advance(steps: seq<ScanStep>): (rest: seq<ScanStep>) {
    if steps == [] then [] else steps[1..]
  }

  /**
   * The outcomes of `n` successive pulls on a handle whose scanner meets
   * `steps`, each pull mapped by `next` (a handle's Next: it reports
   * `next(Upcoming(steps))` and leaves `Advance(steps)`).
   */
  function Pulls<T>(steps: seq<ScanStep>, n: nat, next: ScanStep -> NextResult<T>): (r: seq<NextResult<T>>)
    ensures |r| == n
    ensures n > 0 ==> r[0] == next(Upcoming(steps))
    decreases n
  {
    if n == 0 then [] else [next(Upcoming(steps))] + Pulls(Advance(steps), n - 1, next)
  }

  /** Once the source is exhausted, every further pull meets its end. */
  lemma {:induction false} PullsOfExhausted<T>(n: nat, next: ScanStep -> NextResult<T>)
    ensures forall i :: 0 <= i < n ==> Pulls([], n, next)[i] == next(EndOfStream)
    decreases n
  {
    if n > 0 {
      PullsOfExhausted(n - 1, next);
      assert Pulls([], n, next) == [next(EndOfStream)] + Pulls([], n - 1, next);
    }
  }
}
