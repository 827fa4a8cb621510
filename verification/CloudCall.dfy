/** How a call into the cloud ends. */
module CloudCall {
  /** Success, or failure before or after the effect. */
  datatype Call = Done | Fails(effect: bool)

  predicate Happens(call: Call) {
    call.Done? || call.effect
  }
}
