/** The unit of the models in which time is in nanoseconds. */
module Clock {
  const SECOND := 1_000_000_000
}
