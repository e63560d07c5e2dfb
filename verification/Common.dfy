/** Small types shared by every component of the model. */
module Common {

  datatype Option<+T> = None | Some(value: T)

  type Byte = b: int | 0 <= b < 256

  // A reservation token.
  type Token = seq<Byte>

  datatype Family = IPv4 | IPv6 | UnassignedFamily(code: nat)

  datatype Protocol = UDP | TCP

  datatype Address = V4(octets: seq<Byte>) | V6(octets: seq<Byte>)

  datatype Endpoint = Endpoint(address: Address, port: nat, protocol: Protocol)

  datatype FiveTuple = FiveTuple(
    clientAddress: Address, clientPort: nat,
    serverAddress: Address, serverPort: nat,
    protocol: Protocol)
  {
    function ClientEndpoint(): Endpoint {
      Endpoint(clientAddress, clientPort, protocol)
    }
  }

  // The clock counts nanoseconds; lifetimes are in seconds.
  const TICKS_PER_SECOND := 1_000_000_000

  // The expiry of a timer armed at `now` by expires_after.
  function After(now: int, seconds: int): int {
    now + seconds * TICKS_PER_SECOND
  }

  function Min(a: int, b: int): int {
    if a <= b then a else b
  }

  function Max(a: int, b: int): int {
    if a >= b then a else b
  }
}
