/** The shapes the handlers read from the chain (block, extrinsics, events, account state)
    and the entity records they produce. Timestamps are milliseconds since the epoch. */
module Types {
  import opened Results
  import opened Codec

  // ---- Chain input ----

  /** The dispatch phase of an event. */
  datatype Phase = ApplyExtrinsic(index: nat) | Initialization | Finalization

  /** What `data.toHuman()` provides: its JSON text and its `sequence` field, if any. */
  datatype HumanData = HumanData(json: string, sequence: Option<string>)

  datatype ChainEvent = ChainEvent(
    index: int,
    section: string,
    methodName: string,
    data: seq<Value>,
    human: HumanData)

  datatype EventRecord = EventRecord(phase: Phase, event: ChainEvent)

  datatype Extrinsic = Extrinsic(
    hash: string,
    section: string,
    methodName: string,
    args: Option<string>,
    signer: Option<string>,
    nonce: nat,
    tip: nat,
    signature: string,
    isSigned: bool)

  datatype SubstrateBlock = SubstrateBlock(
    number: nat,
    hash: string,
    parentHash: string,
    timestamp: nat,
    specVersion: nat,
    extrinsics: seq<Extrinsic>,
    events: seq<EventRecord>)

  /** An extrinsic with the events emitted while applying it. */
  datatype WrappedExtrinsic = WrappedExtrinsic(
    idx: nat,
    extrinsic: Extrinsic,
    events: seq<EventRecord>,
    success: bool)

  /** Touched account ids; a value is `null` (None) or a creator id. */
  type AccountIdMap = map<string, Option<string>>

  /** The answer of the `system.account` query. */
  datatype AccountState = AccountState(
    nonce: nat,
    free: nat,
    reserved: nat,
    miscFrozen: nat,
    feeFrozen: nat)

  // ---- Entities ----

  datatype BlockEntity = BlockEntity(
    id: string,
    number: nat,
    timestamp: nat,
    parentHash: string,
    specVersion: nat)

  datatype ExtrinsicEntity = ExtrinsicEntity(
    id: string,
    hash: string,
    methodName: string,
    section: string,
    args: Option<string>,
    signerId: Option<string>,
    nonce: nat,
    timestamp: nat,
    signature: string,
    tip: nat,
    isSigned: bool,
    isSuccess: bool,
    blockId: string)

  /** Produced by the call decoder, which is not part of this model. */
  datatype CallEntity = CallEntity(
    id: string,
    section: string,
    methodName: string,
    args: string,
    extrinsicId: string)

  datatype EventEntity = EventEntity(
    id: string,
    index: int,
    section: string,
    methodName: string,
    data: string,
    blockId: string,
    extrinsicId: string)

  datatype SystemTokenTransfer = SystemTokenTransfer(
    id: string,
    fromId: string,
    toId: string,
    amount: nat,
    timestamp: nat,
    extrinsicId: string)

  /** Outbound bridge transfer; fields the handler never assigns stay None. */
  datatype AppchainToNearTransfer = AppchainToNearTransfer(
    id: string,
    senderId: Option<string>,
    receiver: Option<string>,
    transferType: Option<string>,
    amount: Option<nat>,
    assetId: Option<JsNumber>,
    collection: Option<nat>,
    item: Option<nat>,
    sequence: Option<nat>,
    timestamp: nat,
    extrinsicId: string)

  /** Inbound bridge transfer; fields the handler never assigns stay None. */
  datatype NearToAppchainTransfer = NearToAppchainTransfer(
    id: string,
    sender: Option<string>,
    receiverId: Option<string>,
    transferType: Option<string>,
    amount: Option<nat>,
    assetId: Option<JsNumber>,
    collection: Option<nat>,
    item: Option<nat>,
    sequence: Option<nat>,
    timestamp: nat,
    extrinsicId: string)

  /** Produced by the upward-message decoder, which is not part of this model. */
  datatype UpwardMessage = UpwardMessage(id: string, payload: string)
}
