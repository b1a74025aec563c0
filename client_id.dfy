/** Client identifiers (`ClientID`, shared/src/lib.rs). */
module ClientIds {
  import opened Wrappers

  const U32_MAX: int := 0xFFFF_FFFF

  newtype u32 = x: int | 0 <= x <= U32_MAX

  /** `u32` addition that overflows panics in the source's (debug) build. */
  datatype IdError = AddOverflow

  /** `ClientID::new(number_of_connections)`, with the `u32` that
      `rand::random` draws passed in as `random`: the random number is rounded
      down to a multiple of 100 and the connection count is added to it. */
  function NewClientId(numberOfConnections: u32, random: u32): (r: Result<u32, IdError>)
    ensures r.Failure? <==> random as int - random as int % 100 + numberOfConnections as int > U32_MAX
    ensures r.Success? ==> var base := r.value as int - numberOfConnections as int;
                          base % 100 == 0 && base <= random as int < base + 100
  {
    var rounded := (random / 100) * 100;
    if rounded as int + numberOfConnections as int <= U32_MAX
    then Success((rounded as int + numberOfConnections as int) as u32)
    else Failure(AddOverflow)
  }

  /** Fewer than 100 connections: the id's last two decimal digits are the
      connection count and the rest are those of the random number. */
  lemma NewClientIdDigits(numberOfConnections: u32, random: u32)
    requires numberOfConnections < 100
    requires NewClientId(numberOfConnections, random).Success?
    ensures var id := NewClientId(numberOfConnections, random).value;
            id % 100 == numberOfConnections && id / 100 == random / 100
  {
  }

  /** Up to 95 connections the addition can never overflow: the largest
      multiple of 100 that fits in a `u32` is 4294967200. */
  lemma NewClientIdNoOverflow(numberOfConnections: u32, random: u32)
    requires numberOfConnections <= 95
    ensures NewClientId(numberOfConnections, random).Success?
  {
  }

  /** With 96 connections or more there is a random number that overflows. */
  lemma NewClientIdOverflows(numberOfConnections: u32)
    requires numberOfConnections >= 96
    ensures NewClientId(numberOfConnections, U32_MAX as u32).Failure?
  {
  }
}
