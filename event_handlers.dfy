/** The generic event record and the native-token transfer record built for one event. */
module EventHandlers {
  import opened Results
  import opened Text
  import opened Codec
  import opened Types

  /** handleEvent: the record every correlated event produces, numbered `idx` in its block. */
  function HandleEvent(block: SubstrateBlock, event: EventRecord, extrinsicId: string, idx: nat)
    : (r: EventEntity)
    ensures r.section == event.event.section && r.methodName == event.event.methodName
    ensures r.blockId == block.hash && r.extrinsicId == extrinsicId
    ensures r.id == RecordId(block.number, idx)
    ensures r.index == event.event.index && r.data == event.event.human.json
  {
    EventEntity(RecordId(block.number, idx), event.event.index, event.event.section,
                event.event.methodName, event.event.human.json, block.hash, extrinsicId)
  }

  /** An event record's id reads back as its block number and index. */
  lemma HandleEventId(block: SubstrateBlock, event: EventRecord, extrinsicId: string, idx: nat)
    ensures ParseRecordId(HandleEvent(block, event, extrinsicId, idx).id) == Some((block.number, idx))
  {
    RecordIdRoundTrip(block.number, idx);
  }

  /** handleSystemTokenTransfer: a `balances.Transfer` event read as `[from, to, amount]`. */
  function HandleSystemTokenTransfer(block: SubstrateBlock, event: EventRecord, extrinsicId: string, idx: nat)
    : (r: Decoded<SystemTokenTransfer>)
    ensures var d := event.event.data;
            r.Ok? <==> |d| >= 3 && d[2].UInt?
    ensures var d := event.event.data;
            r.Ok? ==> r.value.fromId == d[0].ToString() && r.value.toId == d[1].ToString() &&
                      r.value.amount == d[2].n
    ensures r.Ok? ==> r.value.id == HandleEvent(block, event, extrinsicId, idx).id
    ensures r.Ok? ==> r.value.timestamp == block.timestamp && r.value.extrinsicId == extrinsicId
  {
    var d := event.event.data;
    var from :- StringAt(d, 0);
    var to :- StringAt(d, 1);
    var amount :- ToBigIntAt(d, 2);
    Ok(SystemTokenTransfer(RecordId(block.number, idx), from, to, amount, block.timestamp, extrinsicId))
  }
}
