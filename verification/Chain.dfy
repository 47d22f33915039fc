/**
 What the fetch layer hands to the assembler, what the assembler writes, and the
 event decoders in between.  A hash or topic is its 32 bytes read as a big-endian
 number; an address is 20 bytes read the same way.
 */
module Chain {
  import opened Positions
  import opened Wrappers

  type Byte = b: int | 0 <= b < 256
  type Word = nat
  type Address = nat

  const ADDRESS_SPACE: nat := 0x1_0000000000_0000000000_0000000000_0000000000
  const MAX_INT64: nat := 0x7fff_ffff_ffff_ffff

  const USDC_PROXY_BASE: Address := 0x833589fCD6eDb6E08f4c7C32D4f71b54bdA02913
  const AUTHORIZATION_USED_TOPIC: Word := 0x98de503528ee59b575ef0c0a2576a82497bfc029a5685b209e9ec333479b10a5
  const TRANSFER_TOPIC: Word := 0xddf252ad1be2c89b69c2b068fc378daa952ba7f163c4a11628f55a4df523b3ef
  const AUTHORIZATION_CANCELED_TOPIC: Word := 0x1cdd46ff242716cdaa72d159d339a485b3438398348d68f09d7c8c0a59353d81

  datatype Log = Log(
    address: Address,
    topics: seq<Word>,
    data: seq<Byte>,
    blockNumber: nat,
    txHash: Word,
    txIndex: nat,
    logIndex: nat)

  datatype Transaction = Transaction(
    from: Address,
    to: Address,
    input: seq<Byte>,
    gasUsed: nat,
    effectiveGasPrice: nat,
    l1Fee: Option<nat>)

  datatype Block = Block(timestamp: nat, hash: Word, baseFeePerGas: Option<nat>)

  datatype Payment = Payment(
    txHash: Word,
    logIndex: nat,
    blockNumber: nat,
    blockTimestamp: nat,
    facilitator: Address,
    payer: Address,
    payee: Address,
    amountRaw: nat,
    authNonce: Word,
    methodSelector: seq<Byte>,
    calledContract: Address,
    gasUsed: nat,
    effectiveGasPrice: nat,
    gasCostWei: nat,
    baseFeePerGas: Option<nat>,
    l1Fee: Option<nat>,
    selfSettled: bool,
    inputCalldata: seq<Byte>,
    blockHash: Word,
    transactionIndex: nat)

  datatype TransferEvent = TransferEvent(from: Address, to: Address, value: nat)
  datatype Authorization = Authorization(authorizer: Address, nonce: Word)

  function LogPosition(l: Log): Position {
    Position(l.blockNumber, l.logIndex)
  }

  function PaymentPosition(p: Payment): Position {
    Position(p.blockNumber, p.logIndex)
  }

  predicate IsUsdcEvent(l: Log, topic: Word) {
    l.address == USDC_PROXY_BASE && |l.topics| > 0 && l.topics[0] == topic
  }

  predicate IsAuthorizationUsed(l: Log) {
    IsUsdcEvent(l, AUTHORIZATION_USED_TOPIC)
  }

  predicate IsUsdcTransfer(l: Log) {
    IsUsdcEvent(l, TRANSFER_TOPIC)
  }

  /** An indexed address argument is the last 20 bytes of its topic. */
  function AddressOf(topic: Word): Address {
    topic % ADDRESS_SPACE
  }

  function BigEndian(bytes: seq<Byte>): nat {
    if bytes == [] then 0 else 256 * BigEndian(bytes[..|bytes|-1]) + bytes[|bytes|-1]
  }

  function DecodeTransfer(l: Log): Option<TransferEvent> {
    if |l.topics| != 3 || |l.data| < 32 then None
    else Some(TransferEvent(AddressOf(l.topics[1]), AddressOf(l.topics[2]), BigEndian(l.data[..32])))
  }

  /** AuthorizationUsed and AuthorizationCanceled share this shape. */
  function DecodeAuthorization(l: Log): Option<Authorization> {
    if |l.topics| != 3 then None else Some(Authorization(AddressOf(l.topics[1]), l.topics[2]))
  }

  // ----- the events as the token contract defines them

  /** The n bytes of a number below 256^n, most significant first. */
  function Bytes(v: nat, n: nat): (b: seq<Byte>)
    ensures |b| == n
  {
    if n == 0 then [] else Bytes(v / 256, n - 1) + [v % 256]
  }

  function Pow256(n: nat): nat {
    if n == 0 then 1 else 256 * Pow256(n - 1)
  }

  const VALUE_SPACE: nat := Pow256(32)

  lemma {:induction false} BigEndianOfBytes(v: nat, n: nat)
    requires v < Pow256(n)
    ensures BigEndian(Bytes(v, n)) == v
  {
    if n > 0 {
      BigEndianOfBytes(v / 256, n - 1);
      assert Bytes(v, n)[..n-1] == Bytes(v / 256, n - 1);
    }
  }

  lemma {:induction false} BytesOfBigEndian(b: seq<Byte>)
    ensures BigEndian(b) < Pow256(|b|) && Bytes(BigEndian(b), |b|) == b
  {
    if b != [] {
      var front := b[..|b|-1];
      BytesOfBigEndian(front);
      assert BigEndian(b) / 256 == BigEndian(front);
      assert b == front + [b[|b|-1]];
    }
  }

  /** event Transfer(address indexed from, address indexed to, uint256 value), as the log carries it */
  predicate EmitsTransfer(l: Log, from: Address, to: Address, value: nat) {
    && l.address == USDC_PROXY_BASE && |l.topics| == 3 && l.topics[0] == TRANSFER_TOPIC
    && from == l.topics[1] % ADDRESS_SPACE && to == l.topics[2] % ADDRESS_SPACE
    && value < VALUE_SPACE && Bytes(value, 32) <= l.data
  }

  /** event AuthorizationUsed(address indexed authorizer, bytes32 indexed nonce), or AuthorizationCanceled */
  predicate EmitsAuthorization(l: Log, topic: Word, authorizer: Address, nonce: Word) {
    && l.address == USDC_PROXY_BASE && |l.topics| == 3 && l.topics[0] == topic
    && authorizer == l.topics[1] % ADDRESS_SPACE && nonce == l.topics[2]
  }

  /** What is decoded from a USDC Transfer is what the event says. */
  lemma TransferMeans(l: Log, from: Address, to: Address, value: nat)
    ensures IsUsdcTransfer(l) && DecodeTransfer(l) == Some(TransferEvent(from, to, value))
       <==> EmitsTransfer(l, from, to, value)
  {
    if |l.data| >= 32 {
      var head := l.data[..32];
      BytesOfBigEndian(head);
      if Bytes(value, 32) <= l.data && value < VALUE_SPACE {
        assert head == Bytes(value, 32);
        BigEndianOfBytes(value, 32);
      }
    }
  }

  lemma AuthorizationMeans(l: Log, topic: Word, authorizer: Address, nonce: Word)
    ensures IsUsdcEvent(l, topic) && DecodeAuthorization(l) == Some(Authorization(authorizer, nonce))
       <==> EmitsAuthorization(l, topic, authorizer, nonce)
  {
  }

  /** The transfer is paid by whoever the authorization is of. */
  ghost predicate PaidByAuthorizer(auth: Log, transfer: Log) {
    exists payer, nonce, to, value ::
      EmitsAuthorization(auth, AUTHORIZATION_USED_TOPIC, payer, nonce) && EmitsTransfer(transfer, payer, to, value)
  }

  lemma PaidByAuthorizerMeans(auth: Log, transfer: Log)
    requires IsAuthorizationUsed(auth)
    ensures PaidByAuthorizer(auth, transfer) <==>
              var t, a := DecodeTransfer(transfer), DecodeAuthorization(auth);
              IsUsdcTransfer(transfer) && t.Some? && a.Some? && a.value.authorizer == t.value.from
  {
    var t, a := DecodeTransfer(transfer), DecodeAuthorization(auth);
    if IsUsdcTransfer(transfer) && t.Some? && a.Some? && a.value.authorizer == t.value.from {
      TransferMeans(transfer, t.value.from, t.value.to, t.value.value);
      AuthorizationMeans(auth, AUTHORIZATION_USED_TOPIC, a.value.authorizer, a.value.nonce);
    }
    if payer, nonce, to, value :|
      EmitsAuthorization(auth, AUTHORIZATION_USED_TOPIC, payer, nonce) && EmitsTransfer(transfer, payer, to, value) {
      TransferMeans(transfer, payer, to, value);
    }
  }

  /** The log the token contract writes for a transfer, its two addresses padded to 32 bytes. */
  function TransferLog(at: Log, from: Address, to: Address, value: nat): Log {
    at.(address := USDC_PROXY_BASE, topics := [TRANSFER_TOPIC, from, to], data := Bytes(value, 32))
  }

  function AuthorizationLog(at: Log, topic: Word, authorizer: Address, nonce: Word): Log {
    at.(address := USDC_PROXY_BASE, topics := [topic, authorizer, nonce], data := [])
  }

  /** What the contract writes is what is decoded. */
  lemma TransferRoundTrip(at: Log, from: Address, to: Address, value: nat)
    requires from < ADDRESS_SPACE && to < ADDRESS_SPACE && value < VALUE_SPACE
    ensures var l := TransferLog(at, from, to, value);
            IsUsdcTransfer(l) && DecodeTransfer(l) == Some(TransferEvent(from, to, value))
  {
    var l := TransferLog(at, from, to, value);
    BigEndianOfBytes(value, 32);
    assert l.data[..32] == l.data;
  }

  lemma AuthorizationRoundTrip(at: Log, topic: Word, authorizer: Address, nonce: Word)
    requires authorizer < ADDRESS_SPACE
    ensures var l := AuthorizationLog(at, topic, authorizer, nonce);
            IsUsdcEvent(l, topic) && DecodeAuthorization(l) == Some(Authorization(authorizer, nonce))
  {
  }

  /** A parent transaction can settle a payment only if its calldata carries a selector. */
  predicate KeepAuthorizationUsed(l: Log, input: seq<Byte>) {
    IsAuthorizationUsed(l) && |input| >= 4
  }

  function PaymentOf(auth: Log, a: Authorization, t: TransferEvent, tx: Transaction, block: Block): Payment
    requires |tx.input| >= 4
  {
    Payment(
      auth.txHash, auth.logIndex, auth.blockNumber, block.timestamp,
      tx.from, t.from, t.to, t.value, a.nonce, tx.input[..4], tx.to,
      tx.gasUsed, tx.effectiveGasPrice, tx.gasUsed * tx.effectiveGasPrice,
      block.baseFeePerGas, tx.l1Fee, tx.from == t.to, tx.input, block.hash, auth.txIndex)
  }
}
