/** Decoding of the bridge pallet's transfer events into outbound (appchain to NEAR) and
    inbound (NEAR to appchain) transfer records. Each event method has a fixed positional
    layout; the record id is the human-readable `sequence` with every backslash removed. */
module BridgeEvents {
  import opened Results
  import opened Text
  import opened Codec
  import opened Types

  /** Methods of `octopusBridge` that move value off the appchain. */
  const OutboundMethods: seq<string> := ["Locked", "Nep141Burned", "NonfungibleLocked"]

  /** Methods of `octopusBridge` that move value onto the appchain. */
  const InboundMethods: seq<string> := ["Unlocked", "Nep141Minted", "NonfungibleUnlocked"]

  /** `s.replaceAll('\\', '')`: every backslash removed, every other character kept in order. */
  function StripBackslashes(s: string): (r: string)
    ensures '\\' !in r
    ensures |r| <= |s|
    ensures forall c :: c in r ==> c in s
  {
    if s == [] then []
    else (if s[0] == '\\' then [] else [s[0]]) + StripBackslashes(s[1..])
  }

  /** A string without backslashes is left as it is. */
  lemma {:induction false} StripBackslashesKeepsClean(s: string)
    requires '\\' !in s
    ensures StripBackslashes(s) == s
  {
    if s != [] {
      StripBackslashesKeepsClean(s[1..]);
    }
  }

  /** Sanitising an already sanitised sequence changes nothing. */
  lemma StripBackslashesIdempotent(s: string)
    ensures StripBackslashes(StripBackslashes(s)) == StripBackslashes(s)
  {
    StripBackslashesKeepsClean(StripBackslashes(s));
  }

  /** Sanitising works piece by piece, so the order of the kept characters is preserved. */
  lemma {:induction false} StripBackslashesAppend(a: string, b: string)
    ensures StripBackslashes(a + b) == StripBackslashes(a) + StripBackslashes(b)
  {
    if a != [] {
      assert (a + b)[0] == a[0];
      assert (a + b)[1..] == a[1..] + b;
      StripBackslashesAppend(a[1..], b);
    } else {
      assert a + b == b;
    }
  }

  /** A `sequence` shown as `12\34` becomes the id `1234`. */
  lemma StripBackslashesExample()
    ensures StripBackslashes("12\\34") == "1234"
  {
  }

  /** handleAppchainToNearTransfer: decodes `Locked`, `Nep141Burned` and `NonfungibleLocked`. */
  function HandleAppchainToNearTransfer(block: SubstrateBlock, event: EventRecord, extrinsicId: string)
    : (r: Decoded<AppchainToNearTransfer>)
    ensures event.event.human.sequence.None? ==> r == Err(MissingSequence)
    ensures r.Ok? ==> event.event.human.sequence.Some? &&
                      r.value.id == StripBackslashes(event.event.human.sequence.value) &&
                      '\\' !in r.value.id
    ensures r.Ok? ==> r.value.timestamp == block.timestamp && r.value.extrinsicId == extrinsicId
    ensures r.Ok? ==> r.value.transferType ==
                      if event.event.methodName in OutboundMethods then Some(event.event.methodName) else None
  {
    var methodName := event.event.methodName;
    var d := event.event.data;
    match event.event.human.sequence
    case None => Err(MissingSequence)
    case Some(humanSequence) =>
      var t := AppchainToNearTransfer(StripBackslashes(humanSequence), None, None, None, None, None,
                                      None, None, None, block.timestamp, extrinsicId);
      if methodName == "Locked" then
        // [sender, receiver, amount, fee, sequence]
        var sender :- StringAt(d, 0);
        var receiver :- StringAt(d, 1);
        var amount :- BigIntAt(d, 2);
        var sequence :- BigIntAt(d, 4);
        Ok(t.(senderId := Some(sender), receiver := Some(receiver), transferType := Some(methodName),
              amount := Some(amount), sequence := Some(sequence)))
      else if methodName == "Nep141Burned" then
        // [assetId, sender, receiver, amount, fee, sequence]
        var sender :- StringAt(d, 1);
        var receiver :- StringAt(d, 2);
        var assetId :- NumberAt(d, 0);
        var amount :- BigIntAt(d, 3);
        var sequence :- BigIntAt(d, 5);
        Ok(t.(senderId := Some(sender), receiver := Some(receiver), transferType := Some(methodName),
              assetId := Some(assetId), amount := Some(amount), sequence := Some(sequence)))
      else if methodName == "NonfungibleLocked" then
        // [collection, item, sender, receiver, fee, sequence]
        var sender :- StringAt(d, 2);
        var receiver :- StringAt(d, 3);
        var collection :- BigIntAt(d, 0);
        var item :- BigIntAt(d, 1);
        var sequence :- BigIntAt(d, 5);
        Ok(t.(senderId := Some(sender), receiver := Some(receiver), transferType := Some(methodName),
              collection := Some(collection), item := Some(item), sequence := Some(sequence)))
      else
        Ok(t)
  }

  /** handleNearToAppchainTransfer: decodes `Unlocked`, `Nep141Minted` and `NonfungibleUnlocked`. */
  function HandleNearToAppchainTransfer(block: SubstrateBlock, event: EventRecord, extrinsicId: string)
    : (r: Decoded<NearToAppchainTransfer>)
    ensures event.event.human.sequence.None? ==> r == Err(MissingSequence)
    ensures r.Ok? ==> event.event.human.sequence.Some? &&
                      r.value.id == StripBackslashes(event.event.human.sequence.value) &&
                      '\\' !in r.value.id
    ensures r.Ok? ==> r.value.timestamp == block.timestamp && r.value.extrinsicId == extrinsicId
    ensures r.Ok? ==> r.value.transferType ==
                      if event.event.methodName in InboundMethods then Some(event.event.methodName) else None
  {
    var methodName := event.event.methodName;
    var d := event.event.data;
    match event.event.human.sequence
    case None => Err(MissingSequence)
    case Some(humanSequence) =>
      var t := NearToAppchainTransfer(StripBackslashes(humanSequence), None, None, None, None, None,
                                      None, None, None, block.timestamp, extrinsicId);
      if methodName == "Unlocked" then
        // [sender, receiver, amount, sequence]
        var sender :- StringAt(d, 0);
        var receiver :- StringAt(d, 1);
        var amount :- BigIntAt(d, 2);
        var sequence :- BigIntAt(d, 3);
        Ok(t.(sender := Some(sender), receiverId := Some(receiver), transferType := Some(methodName),
              amount := Some(amount), sequence := Some(sequence)))
      else if methodName == "Nep141Minted" then
        // [assetId, sender, receiver, amount, sequence]
        var sender :- StringAt(d, 1);
        var receiver :- StringAt(d, 2);
        var assetId :- NumberAt(d, 0);
        var amount :- BigIntAt(d, 3);
        var sequence :- BigIntAt(d, 4);
        Ok(t.(sender := Some(sender), receiverId := Some(receiver), transferType := Some(methodName),
              assetId := Some(assetId), amount := Some(amount), sequence := Some(sequence)))
      else if methodName == "NonfungibleUnlocked" then
        // [collection, item, sender, receiver, sequence]
        var sender :- StringAt(d, 2);
        var receiver :- StringAt(d, 3);
        var collection :- BigIntAt(d, 0);
        var item :- BigIntAt(d, 1);
        var sequence :- BigIntAt(d, 4);
        Ok(t.(sender := Some(sender), receiverId := Some(receiver), transferType := Some(methodName),
              collection := Some(collection), item := Some(item), sequence := Some(sequence)))
      else
        Ok(t)
  }

  // ---- Layouts, one lemma per event method ----

  /** `Locked`: `[sender, receiver, amount, fee, sequence]`; the fee is not stored. */
  lemma LockedLayout(block: SubstrateBlock, event: EventRecord, extrinsicId: string)
    requires event.event.methodName == "Locked" && event.event.human.sequence.Some?
    ensures var d := event.event.data;
            var r := HandleAppchainToNearTransfer(block, event, extrinsicId);
            (r.Ok? <==> |d| >= 5 && IsDigits(d[2].ToString()) && IsDigits(d[4].ToString())) &&
            (r.Ok? ==> r.value.senderId == Some(d[0].ToString()) && r.value.receiver == Some(d[1].ToString()) &&
                       r.value.amount == ParseBigInt(d[2].ToString()) &&
                       r.value.sequence == ParseBigInt(d[4].ToString()) &&
                       r.value.assetId == None && r.value.collection == None && r.value.item == None)
  {
  }

  /** `Nep141Burned`: `[assetId, sender, receiver, amount, fee, sequence]`. */
  lemma Nep141BurnedLayout(block: SubstrateBlock, event: EventRecord, extrinsicId: string)
    requires event.event.methodName == "Nep141Burned" && event.event.human.sequence.Some?
    ensures var d := event.event.data;
            var r := HandleAppchainToNearTransfer(block, event, extrinsicId);
            (r.Ok? <==> |d| >= 6 && IsDigits(d[3].ToString()) && IsDigits(d[5].ToString())) &&
            (r.Ok? ==> r.value.senderId == Some(d[1].ToString()) && r.value.receiver == Some(d[2].ToString()) &&
                       r.value.assetId == Some(ParseNumber(d[0].ToString())) &&
                       r.value.amount == ParseBigInt(d[3].ToString()) &&
                       r.value.sequence == ParseBigInt(d[5].ToString()) &&
                       r.value.collection == None && r.value.item == None)
  {
  }

  /** `NonfungibleLocked`: `[collection, item, sender, receiver, fee, sequence]`; no amount. */
  lemma NonfungibleLockedLayout(block: SubstrateBlock, event: EventRecord, extrinsicId: string)
    requires event.event.methodName == "NonfungibleLocked" && event.event.human.sequence.Some?
    ensures var d := event.event.data;
            var r := HandleAppchainToNearTransfer(block, event, extrinsicId);
            (r.Ok? <==> |d| >= 6 && IsDigits(d[0].ToString()) && IsDigits(d[1].ToString()) &&
                        IsDigits(d[5].ToString())) &&
            (r.Ok? ==> r.value.senderId == Some(d[2].ToString()) && r.value.receiver == Some(d[3].ToString()) &&
                       r.value.collection == ParseBigInt(d[0].ToString()) &&
                       r.value.item == ParseBigInt(d[1].ToString()) &&
                       r.value.sequence == ParseBigInt(d[5].ToString()) &&
                       r.value.amount == None && r.value.assetId == None)
  {
  }

  /** `Unlocked`: `[sender, receiver, amount, sequence]`; the sender is a NEAR account. */
  lemma UnlockedLayout(block: SubstrateBlock, event: EventRecord, extrinsicId: string)
    requires event.event.methodName == "Unlocked" && event.event.human.sequence.Some?
    ensures var d := event.event.data;
            var r := HandleNearToAppchainTransfer(block, event, extrinsicId);
            (r.Ok? <==> |d| >= 4 && IsDigits(d[2].ToString()) && IsDigits(d[3].ToString())) &&
            (r.Ok? ==> r.value.sender == Some(d[0].ToString()) && r.value.receiverId == Some(d[1].ToString()) &&
                       r.value.amount == ParseBigInt(d[2].ToString()) &&
                       r.value.sequence == ParseBigInt(d[3].ToString()) &&
                       r.value.assetId == None && r.value.collection == None && r.value.item == None)
  {
  }

  /** `Nep141Minted`: `[assetId, sender, receiver, amount, sequence]`. */
  lemma Nep141MintedLayout(block: SubstrateBlock, event: EventRecord, extrinsicId: string)
    requires event.event.methodName == "Nep141Minted" && event.event.human.sequence.Some?
    ensures var d := event.event.data;
            var r := HandleNearToAppchainTransfer(block, event, extrinsicId);
            (r.Ok? <==> |d| >= 5 && IsDigits(d[3].ToString()) && IsDigits(d[4].ToString())) &&
            (r.Ok? ==> r.value.sender == Some(d[1].ToString()) && r.value.receiverId == Some(d[2].ToString()) &&
                       r.value.assetId == Some(ParseNumber(d[0].ToString())) &&
                       r.value.amount == ParseBigInt(d[3].ToString()) &&
                       r.value.sequence == ParseBigInt(d[4].ToString()) &&
                       r.value.collection == None && r.value.item == None)
  {
  }

  /** `NonfungibleUnlocked`: `[collection, item, sender, receiver, sequence]`; no amount. */
  lemma NonfungibleUnlockedLayout(block: SubstrateBlock, event: EventRecord, extrinsicId: string)
    requires event.event.methodName == "NonfungibleUnlocked" && event.event.human.sequence.Some?
    ensures var d := event.event.data;
            var r := HandleNearToAppchainTransfer(block, event, extrinsicId);
            (r.Ok? <==> |d| >= 5 && IsDigits(d[0].ToString()) && IsDigits(d[1].ToString()) &&
                        IsDigits(d[4].ToString())) &&
            (r.Ok? ==> r.value.sender == Some(d[2].ToString()) && r.value.receiverId == Some(d[3].ToString()) &&
                       r.value.collection == ParseBigInt(d[0].ToString()) &&
                       r.value.item == ParseBigInt(d[1].ToString()) &&
                       r.value.sequence == ParseBigInt(d[4].ToString()) &&
                       r.value.amount == None && r.value.assetId == None)
  {
  }

  /** A method outside the three outbound ones sets only id, timestamp and extrinsicId. */
  lemma UnrecognisedOutboundSetsIdsOnly(block: SubstrateBlock, event: EventRecord, extrinsicId: string)
    requires event.event.methodName !in OutboundMethods && event.event.human.sequence.Some?
    ensures HandleAppchainToNearTransfer(block, event, extrinsicId) ==
            Ok(AppchainToNearTransfer(StripBackslashes(event.event.human.sequence.value), None, None, None,
                                      None, None, None, None, None, block.timestamp, extrinsicId))
  {
  }

  /** A method outside the three inbound ones sets only id, timestamp and extrinsicId. */
  lemma UnrecognisedInboundSetsIdsOnly(block: SubstrateBlock, event: EventRecord, extrinsicId: string)
    requires event.event.methodName !in InboundMethods && event.event.human.sequence.Some?
    ensures HandleNearToAppchainTransfer(block, event, extrinsicId) ==
            Ok(NearToAppchainTransfer(StripBackslashes(event.event.human.sequence.value), None, None, None,
                                      None, None, None, None, None, block.timestamp, extrinsicId))
  {
  }

  /** A well-formed `Locked` event whose human-readable sequence is `12\34` gets the id `1234`
      and carries the decoded amount and sequence. */
  lemma LockedExample(block: SubstrateBlock, data: seq<Value>, extrinsicId: string)
    requires |data| == 5 && data[2].UInt? && data[4].UInt?
    ensures var event := EventRecord(ApplyExtrinsic(0),
                                     ChainEvent(0, "octopusBridge", "Locked", data, HumanData("", Some("12\\34"))));
            var r := HandleAppchainToNearTransfer(block, event, extrinsicId);
            r.Ok? && r.value.id == "1234" && r.value.amount == Some(data[2].n) && r.value.sequence == Some(data[4].n)
  {
    BigIntOfInteger(data, 2);
    BigIntOfInteger(data, 4);
  }
}
