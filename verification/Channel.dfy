/** Payment channels: the stored record, the state on the chain, how the two are
    merged, and how a payment is validated against the result. */
module Channel {
  import opened Wrappers
  import opened Encoding

  type Bytes = seq<byte>

  /** A payment; a nil signature is None. */
  datatype Payment = Payment(mpe: Address, channelID: int, nonce: int, amount: int, signature: Option<Bytes>)

  datatype ChannelState = Open | Closed

  datatype ChannelData = ChannelData(
    channelID: int,
    nonce: int,
    state: ChannelState,
    sender: Address,
    recipient: Address,
    groupID: Bytes,
    fullAmount: int,
    expiration: int,
    signer: Address,
    authorizedAmount: int,
    signature: Option<Bytes>)

  /** The channel as the MultiPartyEscrow contract holds it. */
  datatype ChainChannel = ChainChannel(
    nonce: int,
    value: int,
    expiration: int,
    sender: Address,
    signer: Address,
    recipient: Address,
    groupID: Bytes)

  /** What the daemon is configured with. Signature recovery, including the check that
      only listed users may call during curation, is a function of message and
      signature. */
  datatype Config = Config(
    id: int,
    mpe: Address,
    recipient: Address,
    groupID: Bytes,
    threshold: int,
    recover: (Bytes, Bytes) -> Option<Address>)

  datatype ChainReply = Unreachable | NotFound | Found(chain: ChainChannel)

  datatype ChannelRead = ReadError | Missing | Channel(data: ChannelData)

  /** GetChannelStateFromBlockchain */
  function FromBlockchain(cfg: Config, reply: ChainReply): ChannelRead {
    match reply
    case Unreachable => ReadError
    case NotFound => Missing
    case Found(ch) =>
      if cfg.recipient != ch.recipient then ReadError
      else
        Channel(ChannelData(cfg.id, ch.nonce, Open, ch.sender, ch.recipient, ch.groupID, ch.value,
                            ch.expiration, ch.signer, 0, None))
  }

  /** MergeStorageAndBlockchainChannelState */
  function Merge(storage: ChannelData, blockchain: ChannelData): ChannelData {
    if storage.nonce > blockchain.nonce then storage
    else if storage.nonce < blockchain.nonce then blockchain
    else storage.(fullAmount := blockchain.fullAmount, expiration := blockchain.expiration)
  }

  /** PaymentChannel, given what the two sources answered. */
  function View(cfg: Config, stored: Option<ChannelData>, reply: ChainReply): ChannelRead {
    var blockchain := FromBlockchain(cfg, reply);
    if stored.None? then
      if blockchain.Channel? && blockchain.data.groupID != cfg.groupID then ReadError else blockchain
    else if !blockchain.Channel? then Channel(stored.value)
    else Channel(Merge(stored.value, blockchain.data))
  }

  function SignatureBytes(s: Option<Bytes>): Bytes {
    if s.None? then [] else s.value
  }

  /** getSignerAddressFromPayment */
  function SignerOf(cfg: Config, payment: Payment): Option<Address> {
    cfg.recover(PaymentMessage(payment.mpe, payment.channelID, payment.nonce, payment.amount),
                SignatureBytes(payment.signature))
  }

  datatype PaymentErrorCode = Internal | Unauthenticated | FailedPrecondition | IncorrectNonce

  datatype Validation = Accepted | Rejected(code: PaymentErrorCode)

  /** ChannelPaymentValidator.Validate */
  function Validate(cfg: Config, payment: Payment, channel: ChannelData, block: Option<int>): Validation {
    if payment.nonce != channel.nonce then Rejected(IncorrectNonce)
    else
      var signer := SignerOf(cfg, payment);
      if signer.None? then Rejected(Unauthenticated)
      else if signer.value != channel.signer && signer.value != channel.sender then Rejected(Unauthenticated)
      else if block.None? then Rejected(Internal)
      else if block.value + cfg.threshold >= channel.expiration then Rejected(Unauthenticated)
      else if channel.fullAmount < payment.amount then Rejected(Unauthenticated)
      else Accepted
  }

  /** The payment carries a signature of the channel's signer or sender. */
  predicate SignedFor(cfg: Config, payment: Payment, signer: Address, sender: Address) {
    cfg.recover(PaymentMessage(payment.mpe, payment.channelID, payment.nonce, payment.amount),
                SignatureBytes(payment.signature)) in {Some(signer), Some(sender)}
  }

  /** The block number is known and stays clear of the expiration by the threshold. */
  predicate Unexpired(cfg: Config, expiration: int, block: Option<int>) {
    block.Some? && block.value + cfg.threshold < expiration
  }

  /** All that is asked of a payment. */
  predicate Acceptable(cfg: Config, payment: Payment, channel: ChannelData, block: Option<int>) {
    && payment.nonce == channel.nonce
    && SignedFor(cfg, payment, channel.signer, channel.sender)
    && Unexpired(cfg, channel.expiration, block)
    && payment.amount <= channel.fullAmount
  }

  /** The validator accepts exactly the acceptable payments, and its error says what is
      wrong: the nonce, or that the block is unknown for a payment that is signed, or
      anything else. */
  lemma ValidateExactly(cfg: Config, payment: Payment, channel: ChannelData, block: Option<int>)
    ensures
      var v, signed := Validate(cfg, payment, channel, block), SignedFor(cfg, payment, channel.signer, channel.sender);
      && (v == Accepted <==> Acceptable(cfg, payment, channel, block))
      && (v == Rejected(IncorrectNonce) <==> payment.nonce != channel.nonce)
      && (v == Rejected(Internal) <==> payment.nonce == channel.nonce && signed && block.None?)
      && (v == Rejected(Unauthenticated) <==>
            && payment.nonce == channel.nonce
            && (!signed
                || (block.Some?
                    && !(Unexpired(cfg, channel.expiration, block) && payment.amount <= channel.fullAmount))))
  {
  }

  /** The record Commit stores. */
  function Committed(payment: Payment, channel: ChannelData): ChannelData {
    channel.(authorizedAmount := payment.amount, signature := payment.signature)
  }

  /** IncrementChannelNonce */
  function IncrementNonce(channel: ChannelData): ChannelData {
    channel.(nonce := channel.nonce + 1,
             fullAmount := channel.fullAmount - channel.authorizedAmount,
             authorizedAmount := 0,
             signature := None)
  }

  /** What does not change in a record's life. */
  predicate SameParties(r: ChannelData, r': ChannelData) {
    && r'.channelID == r.channelID && r'.state == r.state && r'.sender == r.sender && r'.recipient == r.recipient
    && r'.groupID == r.groupID && r'.signer == r.signer
  }

  /** r' is r with this amount signed for, and nothing else changed. */
  predicate IsPaid(r: ChannelData, r': ChannelData, amount: int, signature: Option<Bytes>) {
    && r'.authorizedAmount == amount && r'.signature == signature
    && r'.nonce == r.nonce && r'.fullAmount == r.fullAmount && r'.expiration == r.expiration && SameParties(r, r')
  }

  /** r' is r after its authorized amount was taken out: the next nonce, the rest of the
      amount, nothing authorized, and nothing else changed. */
  predicate IsClaimed(r: ChannelData, r': ChannelData, amount: int) {
    && r'.nonce == r.nonce + 1 && r'.fullAmount + amount == r.fullAmount && amount == r.authorizedAmount
    && r'.authorizedAmount == 0 && r'.signature == None
    && r'.expiration == r.expiration && SameParties(r, r')
  }

  /** The claim holds what the record authorized, under its nonce and signature. */
  predicate IsClaimOn(r: ChannelData, claim: Payment) {
    && claim.channelID == r.channelID && claim.nonce == r.nonce && claim.amount == r.authorizedAmount
    && claim.signature == r.signature
  }

  lemma RecordUpdates(payment: Payment, channel: ChannelData)
    ensures IsPaid(channel, Committed(payment, channel), payment.amount, payment.signature)
    ensures IsClaimed(channel, IncrementNonce(channel), ClaimOf(channel).amount)
    ensures IsClaimOn(channel, ClaimOf(channel))
  {
  }

  const ZERO_ADDRESS: Address := [0, 0, 0, 0, 0, 0, 0, 0, 0, 0, 0, 0, 0, 0, 0, 0, 0, 0, 0, 0]

  /** getPaymentFromChannel: the contract address is left empty. */
  function ClaimOf(channel: ChannelData): Payment {
    Payment(ZERO_ADDRESS, channel.channelID, channel.nonce, channel.authorizedAmount, channel.signature)
  }

  /** The amount at this nonce was authorized by the channel's signer or sender: the
      contract will honour it. Nothing signed means nothing authorized. */
  ghost predicate Collectable(cfg: Config, signer: Address, sender: Address, nonce: int, amount: int,
                              signature: Option<Bytes>) {
    match signature
    case None => amount == 0
    case Some(sig) => cfg.recover(PaymentMessage(cfg.mpe, cfg.id, nonce, amount), sig) in {Some(signer), Some(sender)}
  }
}
