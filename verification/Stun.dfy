/** Decoded requests, replies, and the fixed 20-byte message header of section 5 of RFC 8489.  The
    attribute bytes that follow the header are produced by a codec that is a parameter. */
module Stun {
  import opened Common

  type TransactionId = s: seq<Byte> | |s| == 12 witness seq(12, _ => 0)

  // A method is a 12-bit number.
  type Method = m: nat | m < 0x1000

  const BINDING: Method := 0x001
  const ALLOCATE: Method := 0x003
  const REFRESH: Method := 0x004
  const CREATE_PERMISSION: Method := 0x008
  const CHANNEL_BIND: Method := 0x009

  const UDP_TRANSPORT := 17
  const HEADER_SIZE := 20

  datatype Class = RequestClass | Indication | SuccessResponse | ErrorResponse

  datatype ErrorCode =
    | BadRequest                 // 400
    | Unauthenticated            // 401
    | UnknownAttribute           // 420
    | AllocationMismatch         // 437
    | StaleNonce                 // 438
    | AddressFamilyNotSupported  // 440
    | UnsupportedTransport       // 442
    | InsufficientCapacity       // 508

  datatype Algorithm = MD5 | SHA256 | UnassignedAlgorithm(code: nat)

  datatype AlgorithmEntry = AlgorithmEntry(algorithm: Algorithm, parameters: seq<Byte>)

  datatype AuthKey = AuthKey(algorithm: Algorithm, bytes: seq<Byte>)

  datatype PeerAddress = PeerAddress(family: Family, octets: seq<Byte>, port: nat)

  // Absent attributes are None; `peers` holds the XOR-PEER-ADDRESS attributes in order.
  datatype Request = Request(
    operation: Method,
    transactionId: TransactionId,
    integritySha1: Option<seq<Byte>>,
    integritySha256: Option<seq<Byte>>,
    username: Option<string>,
    realm: Option<string>,
    nonce: Option<string>,
    passwordAlgorithm: Option<Algorithm>,
    passwordAlgorithms: Option<seq<AlgorithmEntry>>,
    transport: Option<nat>,
    dontFragment: bool,
    reservationToken: Option<Token>,
    evenPort: Option<bool>,
    requestedFamily: Option<Family>,
    additionalFamily: Option<Family>,
    lifetime: Option<nat>,
    channelNumber: Option<nat>,
    peers: seq<PeerAddress>)

  datatype Body =
    | BindingBody(mapped: Endpoint)
    | AllocateBody(
        relayedPort: nat, lifetime: int, mapped: Endpoint, additionalFamilyRefused: bool, token: Option<Token>)
    | RefreshBody(lifetime: int)
    | EmptyBody
    | ErrorBody(code: ErrorCode, freshNonce: Option<string>)

  datatype Message = Message(
    category: Class,
    operation: Method,
    transactionId: TransactionId,
    body: Body,
    integrity: Option<AuthKey>)

  // Any encoding of the attributes of a message.
  type AttributeCodec = Message -> seq<Byte>

  // ---------------------------------------------------------------- the header

  function ClassBits(c: Class): nat {
    match c
    case RequestClass => 0
    case Indication => 1
    case SuccessResponse => 2
    case ErrorResponse => 3
  }

  // Method bits 11-7, class bit 1, method bits 6-4, class bit 0, method bits 3-0.
  function MessageType(c: Class, m: Method): (t: nat)
    ensures t < 0x4000
  {
    m / 128 * 512 + ClassBits(c) / 2 * 256 + m / 16 % 8 * 32 + ClassBits(c) % 2 * 16 + m % 16
  }

  function U16Bytes(n: nat): seq<Byte> {
    [n / 256 % 256, n % 256]
  }

  function Encode(codec: AttributeCodec, m: Message): (bytes: seq<Byte>)
    ensures |bytes| >= HEADER_SIZE
  {
    var attributes := codec(m);
    U16Bytes(MessageType(m.category, m.operation))
    + U16Bytes(|attributes|)
    + [0x21, 0x12, 0xa4, 0x42]
    + m.transactionId
    + attributes
  }

  // ---------------------------------------------------------------- reading it back

  function TypeOf(bytes: seq<Byte>): nat
    requires |bytes| >= HEADER_SIZE
  {
    bytes[0] as int * 256 + bytes[1] as int
  }

  function MethodOf(bytes: seq<Byte>): nat
    requires |bytes| >= HEADER_SIZE
  {
    TypeOf(bytes) / 512 * 128 + TypeOf(bytes) / 32 % 8 * 16 + TypeOf(bytes) % 16
  }

  function ClassBitsOf(bytes: seq<Byte>): nat
    requires |bytes| >= HEADER_SIZE
  {
    TypeOf(bytes) / 256 % 2 * 2 + TypeOf(bytes) / 16 % 2
  }

  function TransactionIdOf(bytes: seq<Byte>): TransactionId
    requires |bytes| >= HEADER_SIZE
  {
    bytes[8..20]
  }

  lemma TypeRoundTrip(hi: nat, c1: nat, mid: nat, c0: nat, lo: nat)
    requires hi < 32 && c1 < 2 && mid < 8 && c0 < 2 && lo < 16
    ensures var t := hi * 512 + c1 * 256 + mid * 32 + c0 * 16 + lo;
            t / 512 == hi && t / 256 % 2 == c1 && t / 32 % 8 == mid && t / 16 % 2 == c0 && t % 16 == lo
  {
    var t := hi * 512 + c1 * 256 + mid * 32 + c0 * 16 + lo;
    assert t / 256 == hi * 2 + c1;
    assert t / 32 == hi * 16 + c1 * 8 + mid;
    assert t / 16 == hi * 32 + c1 * 16 + mid * 2 + c0;
  }

  lemma MethodSplits(m: Method)
    ensures m / 128 < 32 && m == m / 128 * 128 + m / 16 % 8 * 16 + m % 16
  {
    assert m / 16 / 8 == m / 128;
  }

  /** The header of an encoded message reads back as its own method, class and transaction ID. */
  lemma HeaderRoundTrip(codec: AttributeCodec, m: Message)
    ensures var bytes := Encode(codec, m);
            && MethodOf(bytes) == m.operation
            && ClassBitsOf(bytes) == ClassBits(m.category)
            && TransactionIdOf(bytes) == m.transactionId
  {
    var bytes := Encode(codec, m);
    var t := MessageType(m.category, m.operation);
    MethodSplits(m.operation);
    TypeRoundTrip(
      m.operation / 128, ClassBits(m.category) / 2, m.operation / 16 % 8, ClassBits(m.category) % 2, m.operation % 16);
    TwoBytes(t);
    assert bytes[0] == t / 256 % 256 && bytes[1] == t % 256;
    assert bytes[8..20] == m.transactionId;
  }

  lemma TwoBytes(t: nat)
    requires t < 0x1_0000
    ensures t / 256 % 256 * 256 + t % 256 == t
  {
  }

  /** Around the type: the length of the attributes, the magic cookie, the transaction ID, and then the
      attributes themselves. */
  lemma HeaderLayout(codec: AttributeCodec, m: Message)
    ensures var bytes := Encode(codec, m);
            && |bytes| == 20 + |codec(m)|
            && (|codec(m)| < 0x1_0000 ==> bytes[2] as int * 256 + bytes[3] as int == |codec(m)|)
            && bytes[4..8] == [0x21, 0x12, 0xa4, 0x42] && bytes[8..20] == m.transactionId && bytes[20..] == codec(m)
  {
    var bytes := Encode(codec, m);
    var n := |codec(m)|;
    assert bytes[2] == n / 256 % 256 && bytes[3] == n % 256;
    if n < 0x1_0000 {
      TwoBytes(n);
    }
  }

  /** The message types of sections 18.2 of RFC 8489 and 17 of RFC 8656. */
  lemma KnownTypes()
    ensures MessageType(RequestClass, BINDING) == 0x0001 && MessageType(SuccessResponse, BINDING) == 0x0101
    ensures MessageType(SuccessResponse, ALLOCATE) == 0x0103 && MessageType(ErrorResponse, ALLOCATE) == 0x0113
    ensures MessageType(SuccessResponse, REFRESH) == 0x0104 && MessageType(ErrorResponse, REFRESH) == 0x0114
    ensures MessageType(SuccessResponse, CREATE_PERMISSION) == 0x0108
    ensures MessageType(ErrorResponse, CREATE_PERMISSION) == 0x0118
    ensures MessageType(SuccessResponse, CHANNEL_BIND) == 0x0109 && MessageType(ErrorResponse, CHANNEL_BIND) == 0x0119
  {
    forall c: Class, m: Method | m < 16
      ensures MessageType(c, m) == ClassBits(c) / 2 * 256 + ClassBits(c) % 2 * 16 + m
    {
      SmallMethod(c, m);
    }
  }

  lemma SmallMethod(c: Class, m: Method)
    requires m < 16
    ensures MessageType(c, m) == ClassBits(c) / 2 * 256 + ClassBits(c) % 2 * 16 + m
  {
    assert m / 128 == 0 && m / 16 == 0 && m % 16 == m;
  }
}
