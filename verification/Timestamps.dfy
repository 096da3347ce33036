/** Stream timestamps: a 64-bit integer whose extreme values are reserved markers. */
module Timestamps {

  const INT64_MIN: int := -0x8000_0000_0000_0000
  const INT64_MAX: int := 0x7fff_ffff_ffff_ffff

  type Timestamp = t: int | INT64_MIN <= t <= INT64_MAX witness 0

  const UNSET: Timestamp := INT64_MIN
  const UNSTARTED: Timestamp := INT64_MIN + 1
  const PRE_STREAM: Timestamp := INT64_MIN + 2
  const MIN: Timestamp := INT64_MIN + 3
  const MAX: Timestamp := INT64_MAX - 3
  const POST_STREAM: Timestamp := INT64_MAX - 2
  const ONE_OVER_POST_STREAM: Timestamp := INT64_MAX - 1
  const DONE: Timestamp := INT64_MAX

  predicate IsSpecialValue(t: Timestamp) {
    t <= MIN || t >= MAX
  }

  predicate IsAllowedInStream(t: Timestamp) {
    PRE_STREAM <= t <= POST_STREAM
  }

  // The smallest bound that rules `t` out; it saturates one past PostStream.
  function NextAllowed(t: Timestamp): (r: Timestamp)
    ensures r != DONE && UNSTARTED <= r
    ensures r <= t <==> t >= ONE_OVER_POST_STREAM
    ensures r <= t + 1
    ensures t >= POST_STREAM ==> r == ONE_OVER_POST_STREAM
  {
    if t >= POST_STREAM then ONE_OVER_POST_STREAM else t + 1
  }

  function PreviousAllowed(t: Timestamp): (r: Timestamp)
    ensures r != UNSET && r != DONE
    ensures t <= r <==> t <= UNSTARTED
    ensures t - 1 <= r
    ensures t <= PRE_STREAM ==> r == UNSTARTED
  {
    if t <= PRE_STREAM then UNSTARTED else t - 1
  }

  /** Nothing lies between a time and its next allowed one, and the two steps undo each other in the range
      of a stream. */
  lemma NextIsLeast(t: Timestamp, u: Timestamp)
    ensures t < u < DONE ==> NextAllowed(t) <= u
    ensures UNSET < u < t ==> u <= PreviousAllowed(t)
    ensures PRE_STREAM <= t <= POST_STREAM ==> PreviousAllowed(NextAllowed(t)) == t
    ensures PRE_STREAM < t <= POST_STREAM ==> NextAllowed(PreviousAllowed(t)) == t
  {
  }

  function Later(a: Timestamp, b: Timestamp): (r: Timestamp)
    ensures r == a || r == b
    ensures a <= r && b <= r
  {
    if b > a then b else a
  }

  function Earlier(a: Timestamp, b: Timestamp): (r: Timestamp)
    ensures r == a || r == b
    ensures r <= a && r <= b
  {
    if b < a then b else a
  }
}
