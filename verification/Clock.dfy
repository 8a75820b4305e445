/** Limited calls and the clock they are made by. */
module Clock {

  datatype Call = Call(key: string, now: real)

  /** The clock never runs backwards, starting from `since`. */
  predicate Monotone(calls: seq<Call>, since: real) {
    calls == [] || (since <= calls[0].now && Monotone(calls[1..], calls[0].now))
  }
}
