/** handleBlock: the per-block orchestration. It collects the upward messages, builds the block
    record, runs handleExtrinsic over the wrapped extrinsics with a running event index,
    concatenates their outputs, merges their account-id maps, reconciles every touched account
    with the store, and bulk-creates the new records. */
module MappingHandlers {
  import opened Results
  import opened Text
  import opened Codec
  import opened Types
  import opened Extrinsics
  import opened Accounts

  // ---- Upward messages ----

  predicate IsCommitted(e: EventRecord) {
    e.event.section == "octopusUpwardMessages" && e.event.methodName == "Committed"
  }

  /** The messages decoded from every `Committed` event of a run of block events, in order. */
  function UpwardMessagesOf(block: SubstrateBlock, events: seq<EventRecord>,
                            handleUpwardMessages: (SubstrateBlock, EventRecord) -> seq<UpwardMessage>)
    : seq<UpwardMessage>
  {
    if events == [] then []
    else
      var n := |events| - 1;
      UpwardMessagesOf(block, events[..n], handleUpwardMessages) +
      (if IsCommitted(events[n]) then handleUpwardMessages(block, events[n]) else [])
  }

  /** Collection distributes over concatenation, so messages keep block event order. */
  lemma {:induction false} UpwardMessagesAppend(block: SubstrateBlock, a: seq<EventRecord>, b: seq<EventRecord>,
                                                h: (SubstrateBlock, EventRecord) -> seq<UpwardMessage>)
    ensures UpwardMessagesOf(block, a + b, h) == UpwardMessagesOf(block, a, h) + UpwardMessagesOf(block, b, h)
  {
    if b == [] {
      assert a + b == a;
    } else {
      var n := |b| - 1;
      UpwardMessagesAppend(block, a, b[..n], h);
      assert (a + b)[..|a + b| - 1] == a + b[..n];
    }
  }

  /** Without a `Committed` event there are no upward messages, whatever the block number. */
  lemma {:induction false} NoCommittedNoMessages(block: SubstrateBlock, events: seq<EventRecord>,
                                                 h: (SubstrateBlock, EventRecord) -> seq<UpwardMessage>)
    requires forall i :: 0 <= i < |events| ==> !IsCommitted(events[i])
    ensures UpwardMessagesOf(block, events, h) == []
  {
    if events != [] {
      var n := |events| - 1;
      NoCommittedNoMessages(block, events[..n], h);
    }
  }

  /** The `forEach` over all block events that pushes each `Committed` event's messages. */
  method CollectUpwardMessages(block: SubstrateBlock, h: (SubstrateBlock, EventRecord) -> seq<UpwardMessage>)
    returns (newUpwardMessages: seq<UpwardMessage>)
    ensures newUpwardMessages == UpwardMessagesOf(block, block.events, h)
  {
    newUpwardMessages := [];
    for i := 0 to |block.events|
      invariant newUpwardMessages == UpwardMessagesOf(block, block.events[..i], h)
    {
      assert block.events[..i + 1][..i] == block.events[..i];
      var evt := block.events[i];
      if evt.event.section == "octopusUpwardMessages" && evt.event.methodName == "Committed" {
        newUpwardMessages := newUpwardMessages + h(block, evt);
      }
    }
    assert block.events[..|block.events|] == block.events;
  }

  // ---- Extrinsics ----

  /** The block record; `number.toBigInt() || BigInt(0)` is the number itself. */
  function NewBlock(block: SubstrateBlock): (r: BlockEntity)
    ensures r.id == block.hash && r.number == block.number && r.timestamp == block.timestamp
    ensures r.parentHash == block.parentHash && r.specVersion == block.specVersion
  {
    BlockEntity(block.hash, block.number, block.timestamp, block.parentHash, block.specVersion)
  }

  /** The number of events correlated with a run of wrapped extrinsics. */
  function EventCount(ws: seq<WrappedExtrinsic>): nat {
    if ws == [] then 0 else EventCount(ws[..|ws| - 1]) + |ws[|ws| - 1].events|
  }

  /** The outcome of handleExtrinsic for each wrapper, the i-th starting its events after
      those of wrappers 0..i-1. */
  function ExtrinsicResults(block: SubstrateBlock, ws: seq<WrappedExtrinsic>,
                            handleCalls: (ExtrinsicEntity, WrappedExtrinsic) -> seq<CallEntity>)
    : (r: seq<Decoded<ExtrinsicOutput>>)
    ensures |r| == |ws|
    ensures forall i :: 0 <= i < |ws| ==> r[i] == ExtrinsicOutputOf(block, ws[i], i, EventCount(ws[..i]), handleCalls)
  {
    seq(|ws|, i requires 0 <= i < |ws| => ExtrinsicOutputOf(block, ws[i], i, EventCount(ws[..i]), handleCalls))
  }

  /** `wExtrinsics.map(...)`: the outputs of every extrinsic, or the first error thrown. */
  function ExtrinsicOutputs(block: SubstrateBlock, ws: seq<WrappedExtrinsic>,
                            handleCalls: (ExtrinsicEntity, WrappedExtrinsic) -> seq<CallEntity>)
    : Decoded<seq<ExtrinsicOutput>>
  {
    AllOk(ExtrinsicResults(block, ws, handleCalls))
  }

  /** The `map` over the wrapped extrinsics that advances `startEvtIdx` past each one's events. */
  method HandleExtrinsics(block: SubstrateBlock, ws: seq<WrappedExtrinsic>,
                          handleCalls: (ExtrinsicEntity, WrappedExtrinsic) -> seq<CallEntity>)
    returns (r: Decoded<seq<ExtrinsicOutput>>)
    ensures r == ExtrinsicOutputs(block, ws, handleCalls)
  {
    ghost var rs := ExtrinsicResults(block, ws, handleCalls);
    var startEvtIdx := 0;
    var extrinsicWraps := [];
    for i := 0 to |ws|
      invariant startEvtIdx == EventCount(ws[..i])
      invariant AllOk(rs[..i]) == Ok(extrinsicWraps)
    {
      var wraps := HandleExtrinsic(block, ws[i], i, startEvtIdx, handleCalls);
      assert wraps == rs[i];
      AllOkStep(rs, i);
      if wraps.Err? {
        AllOkErrorPersists(rs, i + 1, |rs|);
        assert rs[..|rs|] == rs;
        return Err(wraps.error);
      }
      extrinsicWraps := extrinsicWraps + [wraps.value];
      assert ws[..i + 1][..i] == ws[..i];
      startEvtIdx := startEvtIdx + |ws[i].events|;
    }
    assert rs[..|rs|] == rs;
    r := Ok(extrinsicWraps);
  }

  // ---- Concatenation ----

  /** `outs.reduce((xs, o) => [...xs, ...f(o)], [])`: nothing of any output's list is dropped. */
  function ConcatMap<T>(outs: seq<ExtrinsicOutput>, f: ExtrinsicOutput -> seq<T>): (r: seq<T>)
    ensures forall i, x :: 0 <= i < |outs| && x in f(outs[i]) ==> x in r
  {
    if outs == [] then []
    else
      var n := |outs| - 1;
      var prefix := ConcatMap(outs[..n], f);
      assert forall i :: 0 <= i < n ==> outs[..n][i] == outs[i];
      prefix + f(outs[n])
  }

  /** The concatenation of the first i outputs' lists begins the whole concatenation. */
  lemma {:induction false} ConcatMapPrefix<T>(outs: seq<ExtrinsicOutput>, f: ExtrinsicOutput -> seq<T>, i: nat)
    requires i <= |outs|
    ensures ConcatMap(outs[..i], f) <= ConcatMap(outs, f)
  {
    if i < |outs| {
      var n := |outs| - 1;
      ConcatMapPrefix(outs[..n], f, i);
      assert outs[..n][..i] == outs[..i];
    } else {
      assert outs[..i] == outs;
    }
  }

  /** Extrinsic order: output i's list sits in the concatenation right after the lists of
      outputs 0..i-1. */
  lemma ConcatMapPlacement<T>(outs: seq<ExtrinsicOutput>, f: ExtrinsicOutput -> seq<T>, i: nat)
    requires i < |outs|
    ensures var at := |ConcatMap(outs[..i], f)|;
            at + |f(outs[i])| <= |ConcatMap(outs, f)| && ConcatMap(outs, f)[at..at + |f(outs[i])|] == f(outs[i])
  {
    ConcatMapPrefix(outs, f, i + 1);
    assert outs[..i + 1][..i] == outs[..i];
  }

  /** An element is in the concatenation exactly when it is in one extrinsic's list. */
  lemma {:induction false} ConcatMapMembers<T>(outs: seq<ExtrinsicOutput>, f: ExtrinsicOutput -> seq<T>, x: T)
    ensures x in ConcatMap(outs, f) <==> exists i :: 0 <= i < |outs| && x in f(outs[i])
  {
    if outs != [] {
      var n := |outs| - 1;
      ConcatMapMembers(outs[..n], f, x);
      if x in ConcatMap(outs[..n], f) {
        var i :| 0 <= i < n && x in f(outs[..n][i]);
        assert outs[..n][i] == outs[i];
      }
      if exists i :: 0 <= i < |outs| && x in f(outs[i]) {
        var i :| 0 <= i < |outs| && x in f(outs[i]);
        if i < n {
          assert outs[..n][i] == outs[i];
        }
      }
    }
  }

  function CallsOf(o: ExtrinsicOutput): seq<CallEntity> { o.calls }
  function EventsOfOutput(o: ExtrinsicOutput): seq<EventEntity> { o.events }
  function SystemTransfersOf(o: ExtrinsicOutput): seq<SystemTokenTransfer> { o.systemTransfers }
  function OutboundOf(o: ExtrinsicOutput): seq<AppchainToNearTransfer> { o.outbound }
  function InboundOf(o: ExtrinsicOutput): seq<NearToAppchainTransfer> { o.inbound }

  /** What handleExtrinsic guarantees of the i-th output: its extrinsic id is `"{blockNumber}-{i}"`,
      its events, one per correlated event, are numbered from `start`, and its account map
      holds only `null`. */
  predicate OutputShape(block: SubstrateBlock, o: ExtrinsicOutput, w: WrappedExtrinsic, i: nat, start: nat) {
    o.extrinsic.id == RecordId(block.number, i) && |o.events| == |w.events| &&
    EventsFrom(block, o.events, start) &&
    (forall a :: a in o.accountIdMap ==> o.accountIdMap[a] == None)
  }

  /** The event records are numbered `start`, `start + 1`, ... in their block. */
  predicate EventsFrom(block: SubstrateBlock, evs: seq<EventEntity>, start: nat) {
    forall k :: 0 <= k < |evs| ==> evs[k].id == RecordId(block.number, start + k)
  }

  /** Numbered runs that follow each other concatenate into one numbered run. */
  lemma EventsFromAppend(block: SubstrateBlock, a: seq<EventEntity>, b: seq<EventEntity>, start: nat)
    requires EventsFrom(block, a, start) && EventsFrom(block, b, start + |a|)
    ensures EventsFrom(block, a + b, start)
  {
    forall k | 0 <= k < |a + b|
      ensures (a + b)[k].id == RecordId(block.number, start + k)
    {
      if k >= |a| {
        assert (a + b)[k] == b[k - |a|];
      }
    }
  }

  /** An output of handleExtrinsic for wrapper `w` at position `i`, numbered from `start`, has its shape. */
  lemma OutputNumbered(block: SubstrateBlock, w: WrappedExtrinsic, i: nat, start: nat,
                       handleCalls: (ExtrinsicEntity, WrappedExtrinsic) -> seq<CallEntity>, o: ExtrinsicOutput)
    requires ExtrinsicOutputOf(block, w, i, start, handleCalls) == Ok(o)
    ensures OutputShape(block, o, w, i, start)
  {
    ExtrinsicOutputFacts(block, w, i, start, handleCalls);
  }

  /** Every output of a successful run has its shape, numbered from the running event index. */
  lemma OutputsNumbered(block: SubstrateBlock, ws: seq<WrappedExtrinsic>,
                        handleCalls: (ExtrinsicEntity, WrappedExtrinsic) -> seq<CallEntity>,
                        outs: seq<ExtrinsicOutput>)
    requires ExtrinsicOutputs(block, ws, handleCalls) == Ok(outs)
    ensures |outs| == |ws|
    ensures forall i :: 0 <= i < |ws| ==> OutputShape(block, outs[i], ws[i], i, EventCount(ws[..i]))
  {
    var rs := ExtrinsicResults(block, ws, handleCalls);
    AllOkValues(rs);
    forall i | 0 <= i < |ws|
      ensures OutputShape(block, outs[i], ws[i], i, EventCount(ws[..i]))
    {
      assert rs[i] == Ok(outs[i]);
      OutputNumbered(block, ws[i], i, EventCount(ws[..i]), handleCalls, outs[i]);
    }
  }

  /** Outputs numbered from the running index, for the wrappers in `ws`. */
  predicate RunNumbered(block: SubstrateBlock, ws: seq<WrappedExtrinsic>, outs: seq<ExtrinsicOutput>) {
    |outs| == |ws| &&
    forall i :: 0 <= i < |ws| ==>
      |outs[i].events| == |ws[i].events| && EventsFrom(block, outs[i].events, EventCount(ws[..i]))
  }

  /** A prefix of a numbered run is numbered. */
  lemma RunNumberedPrefix(block: SubstrateBlock, ws: seq<WrappedExtrinsic>, outs: seq<ExtrinsicOutput>, n: nat)
    requires RunNumbered(block, ws, outs) && n <= |ws|
    ensures RunNumbered(block, ws[..n], outs[..n])
  {
    forall i | 0 <= i < n
      ensures |outs[..n][i].events| == |ws[..n][i].events| &&
              EventsFrom(block, outs[..n][i].events, EventCount(ws[..n][..i]))
    {
      assert ws[..n][..i] == ws[..i];
      assert outs[..n][i] == outs[i] && ws[..n][i] == ws[i];
    }
  }

  /** Concatenating outputs numbered from the running index numbers the events 0, 1, 2, ... */
  lemma {:induction false} ConcatEventIds(block: SubstrateBlock, ws: seq<WrappedExtrinsic>, outs: seq<ExtrinsicOutput>)
    requires RunNumbered(block, ws, outs)
    ensures |ConcatMap(outs, EventsOfOutput)| == EventCount(ws)
    ensures EventsFrom(block, ConcatMap(outs, EventsOfOutput), 0)
  {
    if ws != [] {
      var n := |ws| - 1;
      RunNumberedPrefix(block, ws, outs, n);
      ConcatEventIds(block, ws[..n], outs[..n]);
      EventsFromAppend(block, ConcatMap(outs[..n], EventsOfOutput), outs[n].events, 0);
    }
  }

  /** Block-wide, the m-th event record has id `"{blockNumber}-{m}"`: the running index makes the
      event ids contiguous from 0 to the number of correlated events. */
  lemma BlockEventIds(block: SubstrateBlock, ws: seq<WrappedExtrinsic>,
                      handleCalls: (ExtrinsicEntity, WrappedExtrinsic) -> seq<CallEntity>,
                      outs: seq<ExtrinsicOutput>)
    requires ExtrinsicOutputs(block, ws, handleCalls) == Ok(outs)
    ensures |ConcatMap(outs, EventsOfOutput)| == EventCount(ws)
    ensures forall m :: 0 <= m < EventCount(ws) ==>
              ConcatMap(outs, EventsOfOutput)[m].id == RecordId(block.number, m)
  {
    OutputsNumbered(block, ws, handleCalls, outs);
    assert RunNumbered(block, ws, outs);
    ConcatEventIds(block, ws, outs);
    var all := ConcatMap(outs, EventsOfOutput);
    assert forall m :: 0 <= m < |all| ==> all[m].id == RecordId(block.number, 0 + m);
  }

  /** Hence no two event records of a block share an id. */
  lemma BlockEventIdsUnique(block: SubstrateBlock, ws: seq<WrappedExtrinsic>,
                            handleCalls: (ExtrinsicEntity, WrappedExtrinsic) -> seq<CallEntity>,
                            outs: seq<ExtrinsicOutput>)
    requires ExtrinsicOutputs(block, ws, handleCalls) == Ok(outs)
    ensures forall m1, m2 :: 0 <= m1 < m2 < |ConcatMap(outs, EventsOfOutput)| ==>
              ConcatMap(outs, EventsOfOutput)[m1].id != ConcatMap(outs, EventsOfOutput)[m2].id
  {
    BlockEventIds(block, ws, handleCalls, outs);
    var all := ConcatMap(outs, EventsOfOutput);
    forall m1, m2 | 0 <= m1 < m2 < |all|
      ensures all[m1].id != all[m2].id
    {
      if all[m1].id == all[m2].id {
        RecordIdInjective(block.number, m1, block.number, m2);
      }
    }
  }

  /** `extrinsicWraps.map(({ newExtrinsic }) => newExtrinsic)` */
  function ExtrinsicsOf(outs: seq<ExtrinsicOutput>): (r: seq<ExtrinsicEntity>)
    ensures |r| == |outs| && forall i :: 0 <= i < |outs| ==> r[i] == outs[i].extrinsic
  {
    seq(|outs|, i requires 0 <= i < |outs| => outs[i].extrinsic)
  }

  /** The i-th extrinsic record has id `"{blockNumber}-{i}"`, so extrinsic ids are unique too. */
  lemma BlockExtrinsicIds(block: SubstrateBlock, ws: seq<WrappedExtrinsic>,
                          handleCalls: (ExtrinsicEntity, WrappedExtrinsic) -> seq<CallEntity>,
                          outs: seq<ExtrinsicOutput>)
    requires ExtrinsicOutputs(block, ws, handleCalls) == Ok(outs)
    ensures |ExtrinsicsOf(outs)| == |ws|
    ensures forall i :: 0 <= i < |ws| ==> ExtrinsicsOf(outs)[i].id == RecordId(block.number, i)
  {
    OutputsNumbered(block, ws, handleCalls, outs);
  }

  // ---- Account-id map merge ----

  /** JavaScript truthiness of a map value: a non-empty string. */
  predicate Truthy(v: Option<string>) {
    v.Some? && v.value != ""
  }

  /** `am` after `am[key] = am[key] || m[key]` for every key in `done`. */
  function MergeOn(am: AccountIdMap, m: AccountIdMap, done: set<string>): (r: AccountIdMap)
    requires done <= m.Keys
    ensures r.Keys == am.Keys + done
  {
    map k | k in am.Keys + done :: if k in done && !(k in am && Truthy(am[k])) then m[k] else am[k]
  }

  /** One step of the `reduce`: every key of `m` merged into `am`. */
  function MergeInto(am: AccountIdMap, m: AccountIdMap): AccountIdMap {
    MergeOn(am, m, m.Keys)
  }

  /** The whole `reduce` over the per-extrinsic maps, from `{}`. */
  function MergeAll(maps: seq<AccountIdMap>): AccountIdMap {
    if maps == [] then map[] else MergeInto(MergeAll(maps[..|maps| - 1]), maps[|maps| - 1])
  }

  /** The merged keys are exactly the keys of the per-extrinsic maps. */
  lemma {:induction false} MergeAllKeys(maps: seq<AccountIdMap>, k: string)
    ensures k in MergeAll(maps) <==> exists i :: 0 <= i < |maps| && k in maps[i]
  {
    if maps != [] {
      var n := |maps| - 1;
      MergeAllKeys(maps[..n], k);
      if k in MergeAll(maps[..n]) {
        var i :| 0 <= i < n && k in maps[..n][i];
        assert maps[..n][i] == maps[i];
      }
      if exists i :: 0 <= i < |maps| && k in maps[i] {
        var i :| 0 <= i < |maps| && k in maps[i];
        if i < n {
          assert maps[..n][i] == maps[i];
        }
      }
    }
  }

  /** The first truthy value in extrinsic order wins. */
  lemma {:induction false} MergeAllFirstTruthy(maps: seq<AccountIdMap>, k: string, i: nat)
    requires i < |maps| && k in maps[i] && Truthy(maps[i][k])
    requires forall j :: 0 <= j < i && k in maps[j] ==> !Truthy(maps[j][k])
    ensures k in MergeAll(maps) && MergeAll(maps)[k] == maps[i][k]
  {
    var n := |maps| - 1;
    if i < n {
      forall j | 0 <= j < i && k in maps[..n][j]
        ensures !Truthy(maps[..n][j][k])
      {
        assert maps[..n][j] == maps[j];
      }
      assert maps[..n][i] == maps[i];
      MergeAllFirstTruthy(maps[..n], k, i);
    } else {
      MergeAllFalsy(maps[..n], k);
    }
  }

  /** With no truthy value among the first maps, the merged value (if any) is not truthy. */
  lemma {:induction false} MergeAllFalsy(maps: seq<AccountIdMap>, k: string)
    requires forall j :: 0 <= j < |maps| && k in maps[j] ==> !Truthy(maps[j][k])
    ensures k in MergeAll(maps) ==> !Truthy(MergeAll(maps)[k])
  {
    if maps != [] {
      var n := |maps| - 1;
      forall j | 0 <= j < n && k in maps[..n][j]
        ensures !Truthy(maps[..n][j][k])
      {
        assert maps[..n][j] == maps[j];
      }
      MergeAllFalsy(maps[..n], k);
    }
  }

  /** With no truthy value anywhere, the value of the last map holding the key wins. */
  lemma {:induction false} MergeAllLastFalsy(maps: seq<AccountIdMap>, k: string, i: nat)
    requires i < |maps| && k in maps[i]
    requires forall j :: 0 <= j < |maps| && k in maps[j] ==> !Truthy(maps[j][k])
    requires forall j :: i < j < |maps| ==> k !in maps[j]
    ensures k in MergeAll(maps) && MergeAll(maps)[k] == maps[i][k]
  {
    var n := |maps| - 1;
    if i < n {
      forall j | 0 <= j < n && k in maps[..n][j]
        ensures !Truthy(maps[..n][j][k])
      {
        assert maps[..n][j] == maps[j];
      }
      forall j | i < j < n
        ensures k !in maps[..n][j]
      {
        assert maps[..n][j] == maps[j];
      }
      assert maps[..n][i] == maps[i];
      MergeAllLastFalsy(maps[..n], k, i);
    } else {
      forall j | 0 <= j < n && k in maps[..n][j]
        ensures !Truthy(maps[..n][j][k])
      {
        assert maps[..n][j] == maps[j];
      }
      MergeAllFalsy(maps[..n], k);
    }
  }

  /** handleExtrinsic only ever writes `null`, so every merged value is `null`. */
  lemma {:induction false} MergeAllNull(maps: seq<AccountIdMap>)
    requires forall i, k :: 0 <= i < |maps| && k in maps[i] ==> maps[i][k] == None
    ensures forall k :: k in MergeAll(maps) ==> MergeAll(maps)[k] == None
  {
    if maps != [] {
      var n := |maps| - 1;
      forall i, k | 0 <= i < n && k in maps[..n][i]
        ensures maps[..n][i][k] == None
      {
        assert maps[..n][i] == maps[i];
      }
      MergeAllNull(maps[..n]);
    }
  }

  function AccountMaps(outs: seq<ExtrinsicOutput>): (r: seq<AccountIdMap>)
    ensures |r| == |outs| && forall i :: 0 <= i < |outs| ==> r[i] == outs[i].accountIdMap
  {
    seq(|outs|, i requires 0 <= i < |outs| => outs[i].accountIdMap)
  }

  /** The `forEach` over one map's keys: `am[key] = am[key] || m[key]`. */
  method MergeKeys(am: AccountIdMap, m: AccountIdMap) returns (r: AccountIdMap)
    ensures r == MergeInto(am, m)
  {
    r := am;
    var keys := m.Keys;
    while keys != {}
      invariant keys <= m.Keys
      invariant r == MergeOn(am, m, m.Keys - keys)
      decreases keys
    {
      var key :| key in keys;
      ghost var done := m.Keys - keys;
      r := r[key := if key in r && Truthy(r[key]) then r[key] else m[key]];
      keys := keys - {key};
      assert m.Keys - keys == done + {key};
    }
  }

  /** The `reduce` that merges the per-extrinsic account-id maps into `am`, in extrinsic order. */
  method MergeAccountIdMaps(maps: seq<AccountIdMap>) returns (am: AccountIdMap)
    ensures am == MergeAll(maps)
  {
    am := map[];
    for i := 0 to |maps|
      invariant am == MergeAll(maps[..i])
    {
      assert maps[..i + 1][..i] == maps[..i];
      am := MergeKeys(am, maps[i]);
    }
    assert maps[..|maps|] == maps;
  }

  /** No extrinsic supplies a creator id: every merged value is `null`. */
  lemma MergedCreatorsNull(block: SubstrateBlock, ws: seq<WrappedExtrinsic>,
                           handleCalls: (ExtrinsicEntity, WrappedExtrinsic) -> seq<CallEntity>,
                           outs: seq<ExtrinsicOutput>)
    requires ExtrinsicOutputs(block, ws, handleCalls) == Ok(outs)
    ensures forall k :: k in MergeAll(AccountMaps(outs)) ==> MergeAll(AccountMaps(outs))[k] == None
  {
    OutputsNumbered(block, ws, handleCalls, outs);
    var maps := AccountMaps(outs);
    forall i, k | 0 <= i < |maps| && k in maps[i]
      ensures maps[i][k] == None
    {
      assert OutputShape(block, outs[i], ws[i], i, EventCount(ws[..i]));
    }
    MergeAllNull(maps);
  }

  // ---- Account reconciliation ----

  /** The stored accounts after refreshing those whose id is in `ids`. */
  function Refreshed(accounts: map<string, AccountRecord>, ids: set<string>, getAccount: string -> AccountState)
    : (r: map<string, AccountRecord>)
    ensures r.Keys == accounts.Keys
  {
    map k | k in accounts :: if k in ids then Updated(accounts[k], getAccount(k)) else accounts[k]
  }

  /** The ids in `ids` of stored accounts whose fetched state differs from what is stored. */
  function ChangedIds(accounts: map<string, AccountRecord>, ids: set<string>, getAccount: string -> AccountState)
    : set<string>
  {
    set k | k in ids && k in accounts && !Reflects(accounts[k], getAccount(k))
  }

  function Ids(rs: seq<AccountRecord>): set<string> {
    set i | 0 <= i < |rs| :: rs[i].id
  }

  predicate DistinctIds(rs: seq<AccountRecord>) {
    forall i, j :: 0 <= i < j < |rs| ==> rs[i].id != rs[j].id
  }

  lemma IdsAppend(rs: seq<AccountRecord>, r: AccountRecord)
    ensures Ids(rs + [r]) == Ids(rs) + {r.id}
  {
    assert forall i :: 0 <= i < |rs| ==> (rs + [r])[i] == rs[i];
    assert (rs + [r])[|rs|] == r;
  }

  /** The `save()` writes of `rs`, in order. */
  function SaveWrites(rs: seq<AccountRecord>): seq<Write> {
    if rs == [] then [] else SaveWrites(rs[..|rs| - 1]) + [AccountSaved(rs[|rs| - 1])]
  }

  lemma DistinctAppend(rs: seq<AccountRecord>, r: AccountRecord)
    requires DistinctIds(rs) && r.id !in Ids(rs)
    ensures DistinctIds(rs + [r])
  {
    forall i, j | 0 <= i < j < |rs| + 1
      ensures (rs + [r])[i].id != (rs + [r])[j].id
    {
      if j == |rs| {
        assert rs[i].id in Ids(rs);
      }
    }
  }

  lemma SaveWritesAppend(rs: seq<AccountRecord>, r: AccountRecord)
    ensures SaveWrites(rs + [r]) == SaveWrites(rs) + [AccountSaved(r)]
  {
    assert (rs + [r])[..|rs|] == rs;
  }

  /** Refreshing one more id changes at most that id's record, and only when its state changed. */
  lemma RefreshedStep(accounts: map<string, AccountRecord>, done: set<string>, id: string,
                      getAccount: string -> AccountState)
    requires id !in done
    ensures Refreshed(accounts, done + {id}, getAccount) ==
            if id in accounts && !Reflects(accounts[id], getAccount(id))
            then Refreshed(accounts, done, getAccount)[id := Updated(accounts[id], getAccount(id))]
            else Refreshed(accounts, done, getAccount)
    ensures ChangedIds(accounts, done + {id}, getAccount) ==
            if id in accounts && !Reflects(accounts[id], getAccount(id))
            then ChangedIds(accounts, done, getAccount) + {id}
            else ChangedIds(accounts, done, getAccount)
  {
  }

  /** One turn of the reconciliation: a stored account is refreshed (and saved when it changed),
      any other account is created and handed back. */
  method ReconcileOne(accountId: string, creatorId: Option<string>, block: BlockEntity,
                      getAccount: string -> AccountState, store: Store)
    returns (created: Option<AccountRecord>, ghost saved: Option<AccountRecord>)
    requires store.Valid()
    modifies store
    ensures store.Valid()
    ensures accountId !in old(store.accounts) ==>
              created == Some(HandleAccount(accountId, block, creatorId, getAccount)) && saved == None &&
              store.accounts == old(store.accounts) && store.log == old(store.log)
    ensures accountId in old(store.accounts) && Reflects(old(store.accounts)[accountId], getAccount(accountId)) ==>
              created == None && saved == None &&
              store.accounts == old(store.accounts) && store.log == old(store.log)
    ensures accountId in old(store.accounts) && !Reflects(old(store.accounts)[accountId], getAccount(accountId)) ==>
              created == None &&
              saved == Some(Updated(old(store.accounts)[accountId], getAccount(accountId))) &&
              store.accounts == old(store.accounts)[accountId := saved.value] &&
              store.log == old(store.log) + [AccountSaved(saved.value)]
  {
    var existedAccount := store.GetAccount(accountId);
    if existedAccount != null {
      TryUpdateAccount(existedAccount, block, getAccount, store);
      created := None;
      if !Reflects(old(store.accounts)[accountId], getAccount(accountId)) {
        saved := Some(existedAccount.Snapshot());
      } else {
        saved := None;
      }
    } else {
      created := Some(HandleAccount(accountId, block, creatorId, getAccount));
      saved := None;
    }
  }

  /** What the reconciliation guarantees of the stored accounts once the ids in `done` have
      been handled, starting from the stored `accounts0` and the write log `log0`. */
  ghost predicate Refreshing(getAccount: string -> AccountState, accounts0: map<string, AccountRecord>,
                             log0: seq<Write>, done: set<string>,
                             accounts: map<string, AccountRecord>, log: seq<Write>, saved: seq<AccountRecord>)
  {
    accounts == Refreshed(accounts0, done, getAccount) &&
    log == log0 + SaveWrites(saved) &&
    DistinctIds(saved) && Ids(saved) == ChangedIds(accounts0, done, getAccount) &&
    forall i :: 0 <= i < |saved| ==>
      saved[i].id in accounts0 && saved[i] == Updated(accounts0[saved[i].id], getAccount(saved[i].id))
  }

  /** What the reconciliation guarantees of the accounts to create once the ids in `done`
      have been handled. */
  ghost predicate Creating(accountIdMap: AccountIdMap, block: BlockEntity, getAccount: string -> AccountState,
                           accounts0: map<string, AccountRecord>, done: set<string>, newAccounts: seq<AccountRecord>)
  {
    DistinctIds(newAccounts) && Ids(newAccounts) == done - accounts0.Keys &&
    forall i :: 0 <= i < |newAccounts| ==>
      newAccounts[i].id in accountIdMap &&
      newAccounts[i] == HandleAccount(newAccounts[i].id, block, accountIdMap[newAccounts[i].id], getAccount)
  }

  /** Refreshing a stored account whose state is unchanged keeps the stored-account guarantees. */
  lemma RefreshingUnchanged(getAccount: string -> AccountState, accounts0: map<string, AccountRecord>,
                            log0: seq<Write>, done: set<string>,
                            accounts: map<string, AccountRecord>, log: seq<Write>, saved: seq<AccountRecord>,
                            id: string)
    requires Refreshing(getAccount, accounts0, log0, done, accounts, log, saved)
    requires id !in done
    requires id in accounts ==> Reflects(accounts[id], getAccount(id))
    ensures Refreshing(getAccount, accounts0, log0, done + {id}, accounts, log, saved)
  {
    RefreshedStep(accounts0, done, id, getAccount);
    assert id in accounts <==> id in accounts0;
    assert id in accounts0 ==> accounts[id] == accounts0[id];
  }

  /** Refreshing a stored account whose state changed, and saving it, keeps the stored-account
      guarantees. */
  lemma RefreshingChanged(getAccount: string -> AccountState, accounts0: map<string, AccountRecord>,
                          log0: seq<Write>, done: set<string>,
                          accounts: map<string, AccountRecord>, log: seq<Write>, saved: seq<AccountRecord>,
                          id: string)
    requires Refreshing(getAccount, accounts0, log0, done, accounts, log, saved)
    requires id !in done && id in accounts && accounts[id].id == id
    requires !Reflects(accounts[id], getAccount(id))
    ensures var r := Updated(accounts[id], getAccount(id));
            Refreshing(getAccount, accounts0, log0, done + {id}, accounts[id := r], log + [AccountSaved(r)],
                       saved + [r])
  {
    var r := Updated(accounts[id], getAccount(id));
    var done' := done + {id};
    assert id in accounts0 && accounts[id] == accounts0[id];
    assert accounts[id := r] == Refreshed(accounts0, done', getAccount) by {
      RefreshedStep(accounts0, done, id, getAccount);
    }
    assert log + [AccountSaved(r)] == log0 + SaveWrites(saved + [r]) by {
      SaveWritesAppend(saved, r);
    }
    assert Ids(saved + [r]) == ChangedIds(accounts0, done', getAccount) by {
      RefreshedStep(accounts0, done, id, getAccount);
      IdsAppend(saved, r);
    }
    assert DistinctIds(saved + [r]) by {
      assert ChangedIds(accounts0, done, getAccount) <= done;
      DistinctAppend(saved, r);
    }
    assert forall i :: 0 <= i < |saved + [r]| ==>
      (saved + [r])[i].id in accounts0 &&
      (saved + [r])[i] == Updated(accounts0[(saved + [r])[i].id], getAccount((saved + [r])[i].id));
  }

  /** Handling an id not yet stored keeps the creation guarantees with its new record appended;
      handling a stored id keeps them unchanged. */
  lemma CreatingStep(accountIdMap: AccountIdMap, block: BlockEntity, getAccount: string -> AccountState,
                     accounts0: map<string, AccountRecord>, done: set<string>, newAccounts: seq<AccountRecord>,
                     id: string)
    requires Creating(accountIdMap, block, getAccount, accounts0, done, newAccounts)
    requires id in accountIdMap && id !in done
    ensures id in accounts0 ==> Creating(accountIdMap, block, getAccount, accounts0, done + {id}, newAccounts)
    ensures id !in accounts0 ==>
              Creating(accountIdMap, block, getAccount, accounts0, done + {id},
                       newAccounts + [HandleAccount(id, block, accountIdMap[id], getAccount)])
  {
    var r := HandleAccount(id, block, accountIdMap[id], getAccount);
    IdsAppend(newAccounts, r);
    if id !in accounts0 {
      DistinctAppend(newAccounts, r);
    }
  }

  /** Every touched account is handled exactly once: a stored one is refreshed and written back
      only if its fetched state differs, any other is created from its fetched state and
      collected into `newAccounts`. The accounts are taken in no particular order. */
  method ReconcileAccounts(accountIdMap: AccountIdMap, block: BlockEntity, getAccount: string -> AccountState,
                           store: Store)
    returns (newAccounts: seq<AccountRecord>, ghost saved: seq<AccountRecord>)
    requires store.Valid()
    modifies store
    ensures store.Valid()
    ensures store.accounts == Refreshed(old(store.accounts), accountIdMap.Keys, getAccount)
    ensures store.log == old(store.log) + SaveWrites(saved)
    ensures DistinctIds(saved) && Ids(saved) == ChangedIds(old(store.accounts), accountIdMap.Keys, getAccount)
    ensures forall i :: 0 <= i < |saved| ==>
              saved[i].id in old(store.accounts) &&
              saved[i] == Updated(old(store.accounts)[saved[i].id], getAccount(saved[i].id))
    ensures DistinctIds(newAccounts) && Ids(newAccounts) == accountIdMap.Keys - old(store.accounts).Keys
    ensures forall i :: 0 <= i < |newAccounts| ==>
              newAccounts[i].id in accountIdMap &&
              newAccounts[i] == HandleAccount(newAccounts[i].id, block, accountIdMap[newAccounts[i].id], getAccount)
  {
    ghost var accounts0 := store.accounts;
    ghost var log0 := store.log;
    var remaining := accountIdMap.Keys;
    newAccounts := [];
    saved := [];
    while remaining != {}
      invariant remaining <= accountIdMap.Keys
      invariant store.Valid()
      invariant Refreshing(getAccount, accounts0, log0, accountIdMap.Keys - remaining, store.accounts, store.log, saved)
      invariant Creating(accountIdMap, block, getAccount, accounts0, accountIdMap.Keys - remaining, newAccounts)
      decreases remaining
    {
      var accountId :| accountId in remaining;
      ghost var done := accountIdMap.Keys - remaining;
      ghost var accounts, log := store.accounts, store.log;
      assert accountId in accounts ==> accounts[accountId].id == accountId;
      RefreshedStep(accounts0, done, accountId, getAccount);
      assert accountId in accounts <==> accountId in accounts0;
      CreatingStep(accountIdMap, block, getAccount, accounts0, done, newAccounts, accountId);
      var created, step := ReconcileOne(accountId, accountIdMap[accountId], block, getAccount, store);
      if step.Some? {
        RefreshingChanged(getAccount, accounts0, log0, done, accounts, log, saved, accountId);
        saved := saved + [step.value];
      } else {
        RefreshingUnchanged(getAccount, accounts0, log0, done, accounts, log, saved, accountId);
      }
      if created.Some? {
        newAccounts := newAccounts + [created.value];
      }
      remaining := remaining - {accountId};
      assert accountIdMap.Keys - remaining == done + {accountId};
    }
    assert accountIdMap.Keys - remaining == accountIdMap.Keys;
  }

  // ---- The block handler ----

  /** After storing `records` (whose ids are distinct), an id of one of them holds that record. */
  lemma {:induction false} PutAllLookupNew(accounts: map<string, AccountRecord>, records: seq<AccountRecord>, i: nat)
    requires DistinctIds(records) && i < |records|
    ensures records[i].id in PutAll(accounts, records) && PutAll(accounts, records)[records[i].id] == records[i]
  {
    var n := |records| - 1;
    if i < n {
      assert DistinctIds(records[..n]);
      assert records[..n][i] == records[i];
      PutAllLookupNew(accounts, records[..n], i);
    }
  }

  /** After storing `records`, an id none of them has holds what was stored before. */
  lemma {:induction false} PutAllLookupOld(accounts: map<string, AccountRecord>, records: seq<AccountRecord>, k: string)
    requires k !in Ids(records) && k in accounts
    ensures k in PutAll(accounts, records) && PutAll(accounts, records)[k] == accounts[k]
  {
    if records != [] {
      var n := |records| - 1;
      IdsAppend(records[..n], records[n]);
      assert records[..n] + [records[n]] == records;
      PutAllLookupOld(accounts, records[..n], k);
    }
  }

  /** A touched account that was not stored holds its new record after the block. */
  lemma StoredNewAccount(refreshed: map<string, AccountRecord>, getAccount: string -> AccountState,
                         newBlock: BlockEntity, newAccounts: seq<AccountRecord>, k: string)
    requires DistinctIds(newAccounts) && k in Ids(newAccounts)
    requires forall i :: 0 <= i < |newAccounts| ==>
               newAccounts[i] == HandleAccount(newAccounts[i].id, newBlock, None, getAccount)
    ensures k in PutAll(refreshed, newAccounts)
    ensures PutAll(refreshed, newAccounts)[k] == HandleAccount(k, newBlock, None, getAccount)
  {
    var i :| 0 <= i < |newAccounts| && newAccounts[i].id == k;
    PutAllLookupNew(refreshed, newAccounts, i);
  }

  /** A stored account is refreshed if touched, and left as it was otherwise. */
  lemma StoredOldAccount(accounts0: map<string, AccountRecord>, ids: set<string>, getAccount: string -> AccountState,
                         newAccounts: seq<AccountRecord>, k: string)
    requires k in accounts0 && k !in Ids(newAccounts)
    ensures k in PutAll(Refreshed(accounts0, ids, getAccount), newAccounts)
    ensures PutAll(Refreshed(accounts0, ids, getAccount), newAccounts)[k] ==
            if k in ids then Updated(accounts0[k], getAccount(k)) else accounts0[k]
  {
    PutAllLookupOld(Refreshed(accounts0, ids, getAccount), newAccounts, k);
  }

  /** The stored accounts once a block's touched accounts `ids` are refreshed and the
      missing ones created. */
  function StoredAfter(accounts0: map<string, AccountRecord>, ids: set<string>, getAccount: string -> AccountState,
                       newAccounts: seq<AccountRecord>): map<string, AccountRecord>
  {
    PutAll(Refreshed(accounts0, ids, getAccount), newAccounts)
  }

  /** The accounts a block leaves in the store: every account touched by its extrinsics holds
      its fetched state, keeping its creation timestamp if it was stored before and taking the
      block's otherwise; accounts the block does not touch are left as they were. */
  lemma StoredAfterBlock(accounts0: map<string, AccountRecord>, ids: set<string>, getAccount: string -> AccountState,
                         newBlock: BlockEntity, newAccounts: seq<AccountRecord>)
    requires forall k :: k in accounts0 ==> accounts0[k].id == k
    requires DistinctIds(newAccounts) && Ids(newAccounts) == ids - accounts0.Keys
    requires forall i :: 0 <= i < |newAccounts| ==>
               newAccounts[i] == HandleAccount(newAccounts[i].id, newBlock, None, getAccount)
    ensures StoredAfter(accounts0, ids, getAccount, newAccounts).Keys == accounts0.Keys + ids
    ensures forall k :: k in ids ==>
              StoredAfter(accounts0, ids, getAccount, newAccounts)[k].id == k &&
              Reflects(StoredAfter(accounts0, ids, getAccount, newAccounts)[k], getAccount(k))
    ensures forall k :: k in ids && k in accounts0 ==>
              StoredAfter(accounts0, ids, getAccount, newAccounts)[k].createdAt == accounts0[k].createdAt
    ensures forall k :: k in ids && k !in accounts0 ==>
              StoredAfter(accounts0, ids, getAccount, newAccounts)[k].createdAt == newBlock.timestamp
    ensures forall k :: k in accounts0 && k !in ids ==>
              StoredAfter(accounts0, ids, getAccount, newAccounts)[k] == accounts0[k]
  {
    var stored := StoredAfter(accounts0, ids, getAccount, newAccounts);
    assert stored.Keys == accounts0.Keys + ids by {
      assert stored.Keys == accounts0.Keys + Ids(newAccounts);
    }
    forall k | k in ids && k !in accounts0
      ensures stored[k].id == k && Reflects(stored[k], getAccount(k)) && stored[k].createdAt == newBlock.timestamp
    {
      StoredNewAccount(Refreshed(accounts0, ids, getAccount), getAccount, newBlock, newAccounts, k);
    }
    forall k | k in ids && k in accounts0
      ensures stored[k].id == k && Reflects(stored[k], getAccount(k)) && stored[k].createdAt == accounts0[k].createdAt
    {
      StoredOldAccount(accounts0, ids, getAccount, newAccounts, k);
    }
    forall k | k in accounts0 && k !in ids
      ensures stored[k] == accounts0[k]
    {
      StoredOldAccount(accounts0, ids, getAccount, newAccounts, k);
    }
  }

  /** The bulk creates that end a block, in the order they are awaited. */
  function BulkCreates(newAccounts: seq<AccountRecord>, outs: seq<ExtrinsicOutput>, messages: seq<UpwardMessage>)
    : seq<Write>
  {
    [AccountsCreated(newAccounts), ExtrinsicsCreated(ExtrinsicsOf(outs)), CallsCreated(ConcatMap(outs, CallsOf)),
     EventsCreated(ConcatMap(outs, EventsOfOutput)), SystemTokenTransfersCreated(ConcatMap(outs, SystemTransfersOf)),
     UpwardMessagesCreated(messages), AppchainToNearTransfersCreated(ConcatMap(outs, OutboundOf)),
     NearToAppchainTransfersCreated(ConcatMap(outs, InboundOf))]
  }

  /** The eight `store.bulkCreate` calls, awaited one after the other, each given its list. */
  method BulkCreate(store: Store, newAccounts: seq<AccountRecord>, extrinsics: seq<ExtrinsicEntity>,
                    calls: seq<CallEntity>, events: seq<EventEntity>, systemTransfers: seq<SystemTokenTransfer>,
                    messages: seq<UpwardMessage>, outbound: seq<AppchainToNearTransfer>,
                    inbound: seq<NearToAppchainTransfer>)
    requires store.Valid()
    modifies store
    ensures store.Valid()
    ensures store.accounts == PutAll(old(store.accounts), newAccounts)
    ensures store.log == old(store.log) +
                         [AccountsCreated(newAccounts), ExtrinsicsCreated(extrinsics), CallsCreated(calls),
                          EventsCreated(events), SystemTokenTransfersCreated(systemTransfers),
                          UpwardMessagesCreated(messages), AppchainToNearTransfersCreated(outbound),
                          NearToAppchainTransfersCreated(inbound)]
  {
    ghost var log0 := store.log;
    store.CreateAccounts(newAccounts);
    store.Issue(ExtrinsicsCreated(extrinsics));
    store.Issue(CallsCreated(calls));
    store.Issue(EventsCreated(events));
    assert store.log == log0 + [AccountsCreated(newAccounts), ExtrinsicsCreated(extrinsics), CallsCreated(calls),
                                EventsCreated(events)];
    store.Issue(SystemTokenTransfersCreated(systemTransfers));
    store.Issue(UpwardMessagesCreated(messages));
    store.Issue(AppchainToNearTransfersCreated(outbound));
    store.Issue(NearToAppchainTransfersCreated(inbound));
  }

  /** What handleBlock writes once every extrinsic has been handled: the block record, the
      refreshed accounts, then the bulk creates. */
  method WriteBlock(newBlock: BlockEntity, outs: seq<ExtrinsicOutput>, messages: seq<UpwardMessage>,
                    getAccount: string -> AccountState, store: Store)
    returns (newAccounts: seq<AccountRecord>, ghost saved: seq<AccountRecord>)
    requires store.Valid()
    requires forall k :: k in MergeAll(AccountMaps(outs)) ==> MergeAll(AccountMaps(outs))[k] == None
    modifies store
    ensures store.Valid()
    ensures var ids := MergeAll(AccountMaps(outs)).Keys;
            store.log == old(store.log) + [BlockSaved(newBlock)] + SaveWrites(saved) +
                         BulkCreates(newAccounts, outs, messages) &&
            store.accounts == PutAll(Refreshed(old(store.accounts), ids, getAccount), newAccounts) &&
            DistinctIds(saved) && Ids(saved) == ChangedIds(old(store.accounts), ids, getAccount) &&
            DistinctIds(newAccounts) && Ids(newAccounts) == ids - old(store.accounts).Keys &&
            (forall i :: 0 <= i < |newAccounts| ==>
               newAccounts[i] == HandleAccount(newAccounts[i].id, newBlock, None, getAccount))
    ensures forall i :: 0 <= i < |saved| ==>
              saved[i].id in old(store.accounts) &&
              saved[i] == Updated(old(store.accounts)[saved[i].id], getAccount(saved[i].id))
  {
    store.Issue(BlockSaved(newBlock));
    var accountIdMap := MergeAccountIdMaps(AccountMaps(outs));
    newAccounts, saved := ReconcileAccounts(accountIdMap, newBlock, getAccount, store);
    BulkCreate(store, newAccounts, ExtrinsicsOf(outs), ConcatMap(outs, CallsOf), ConcatMap(outs, EventsOfOutput),
               ConcatMap(outs, SystemTransfersOf), messages, ConcatMap(outs, OutboundOf), ConcatMap(outs, InboundOf));
  }

  /** handleBlock: if any extrinsic's events fail to decode, nothing is written; otherwise the
      block record is saved, every touched stored account whose state changed is saved, and the
      new accounts and the block's extrinsics, calls, events, transfers and upward messages are
      bulk-created, in that order. */
  method HandleBlock(block: SubstrateBlock, store: Store, getAccount: string -> AccountState,
                     handleCalls: (ExtrinsicEntity, WrappedExtrinsic) -> seq<CallEntity>,
                     handleUpwardMessages: (SubstrateBlock, EventRecord) -> seq<UpwardMessage>)
    returns (r: Decoded<()>, newAccounts: seq<AccountRecord>, ghost saved: seq<AccountRecord>)
    requires store.Valid()
    modifies store
    ensures store.Valid()
    ensures r.Ok? <==> ExtrinsicOutputs(block, WrapExtrinsics(block), handleCalls).Ok?
    ensures r.Err? ==> r.error == ExtrinsicOutputs(block, WrapExtrinsics(block), handleCalls).error &&
                       store.accounts == old(store.accounts) && store.log == old(store.log)
    ensures r.Ok? ==>
              var outs := ExtrinsicOutputs(block, WrapExtrinsics(block), handleCalls).value;
              var ids := MergeAll(AccountMaps(outs)).Keys;
              store.log == old(store.log) + [BlockSaved(NewBlock(block))] + SaveWrites(saved) +
                           BulkCreates(newAccounts, outs, UpwardMessagesOf(block, block.events, handleUpwardMessages)) &&
              store.accounts == PutAll(Refreshed(old(store.accounts), ids, getAccount), newAccounts) &&
              DistinctIds(saved) && Ids(saved) == ChangedIds(old(store.accounts), ids, getAccount) &&
              DistinctIds(newAccounts) && Ids(newAccounts) == ids - old(store.accounts).Keys &&
              (forall i :: 0 <= i < |newAccounts| ==>
                 newAccounts[i] == HandleAccount(newAccounts[i].id, NewBlock(block), None, getAccount))
    ensures r.Ok? ==>
              forall i :: 0 <= i < |saved| ==>
                saved[i].id in old(store.accounts) &&
                saved[i] == Updated(old(store.accounts)[saved[i].id], getAccount(saved[i].id))
  {
    var newBlock := NewBlock(block);
    var newUpwardMessages := CollectUpwardMessages(block, handleUpwardMessages);
    var wExtrinsics := WrapExtrinsics(block);
    var extrinsicWraps := HandleExtrinsics(block, wExtrinsics, handleCalls);
    if extrinsicWraps.Err? {
      return Err(extrinsicWraps.error), [], [];
    }
    MergedCreatorsNull(block, wExtrinsics, handleCalls, extrinsicWraps.value);
    newAccounts, saved := WriteBlock(newBlock, extrinsicWraps.value, newUpwardMessages, getAccount, store);
    r := Ok(());
  }
}
