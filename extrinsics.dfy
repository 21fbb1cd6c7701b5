/** Correlation of a block's events with its extrinsics, and the records one extrinsic
    produces: the extrinsic itself, its calls, one event record per correlated event, the
    transfers recognised among those events, and the accounts they touch. */
module Extrinsics {
  import opened Results
  import opened Text
  import opened Codec
  import opened Types
  import opened EventHandlers
  import opened BridgeEvents

  // ---- wrapExtrinsics ----

  /** `phase.isApplyExtrinsic && phase.asApplyExtrinsic.eqn(i)` */
  predicate AppliedIn(e: EventRecord, i: nat) {
    e.phase.ApplyExtrinsic? && e.phase.index == i
  }

  /** The events applied during extrinsic `i`, in block order. */
  function EventsOf(events: seq<EventRecord>, i: nat): (r: seq<EventRecord>)
    ensures |r| <= |events|
    ensures forall e :: e in r ==> e in events && AppliedIn(e, i)
  {
    if events == [] then []
    else (if AppliedIn(events[0], i) then [events[0]] else []) + EventsOf(events[1..], i)
  }

  /** Filtering distributes over concatenation: relative order is kept. */
  lemma {:induction false} EventsOfAppend(a: seq<EventRecord>, b: seq<EventRecord>, i: nat)
    ensures EventsOf(a + b, i) == EventsOf(a, i) + EventsOf(b, i)
  {
    if a == [] {
      assert a + b == b;
    } else {
      assert (a + b)[0] == a[0];
      assert (a + b)[1..] == a[1..] + b;
      EventsOfAppend(a[1..], b, i);
    }
  }

  /** Every occurrence of an event applied during extrinsic `i` is kept, and no other event. */
  lemma {:induction false} EventsOfCount(events: seq<EventRecord>, i: nat, e: EventRecord)
    ensures multiset(EventsOf(events, i))[e] == if AppliedIn(e, i) then multiset(events)[e] else 0
  {
    if events != [] {
      EventsOfCount(events[1..], i, e);
      assert events == [events[0]] + events[1..];
    }
  }

  /** An event belongs to extrinsic `i`'s list exactly when its phase names `i`; so an
      initialization or finalization event belongs to none, and no event to two. */
  lemma EventsOfMembership(events: seq<EventRecord>, i: nat, e: EventRecord)
    ensures e in EventsOf(events, i) <==> e in events && AppliedIn(e, i)
  {
    EventsOfCount(events, i, e);
  }

  const SuccessMethod: string := "ExtrinsicSuccess"

  /** `events.findIndex(evt => evt.event.method === "ExtrinsicSuccess")` */
  function FindSuccessIndex(events: seq<EventRecord>): (r: int)
    ensures -1 <= r < |events|
    ensures r >= 0 ==> events[r].event.methodName == SuccessMethod
    ensures r >= 0 ==> forall k :: 0 <= k < r ==> events[k].event.methodName != SuccessMethod
    ensures r == -1 ==> forall k :: 0 <= k < |events| ==> events[k].event.methodName != SuccessMethod
  {
    if events == [] then -1
    else if events[0].event.methodName == SuccessMethod then 0
    else
      var k := FindSuccessIndex(events[1..]);
      if k < 0 then -1 else k + 1
  }

  function WrapExtrinsic(block: SubstrateBlock, idx: nat): WrappedExtrinsic
    requires idx < |block.extrinsics|
  {
    var events := EventsOf(block.events, idx);
    WrappedExtrinsic(idx, block.extrinsics[idx], events, FindSuccessIndex(events) > -1)
  }

  /** wrapExtrinsics: one wrapper per extrinsic, in block order. */
  function WrapExtrinsics(block: SubstrateBlock): (r: seq<WrappedExtrinsic>)
    ensures |r| == |block.extrinsics|
    ensures forall i :: 0 <= i < |r| ==>
              r[i].idx == i && r[i].extrinsic == block.extrinsics[i] && r[i].events == EventsOf(block.events, i)
    ensures forall i :: 0 <= i < |r| ==>
              (r[i].success <==>
                 exists k :: 0 <= k < |r[i].events| && r[i].events[k].event.methodName == SuccessMethod)
  {
    seq(|block.extrinsics|, i requires 0 <= i < |block.extrinsics| => WrapExtrinsic(block, i))
  }

  /** The wrappers partition the extrinsic-applied events: an initialization or finalization
      event belongs to no wrapper, no event belongs to two, and an event applied during
      extrinsic `i` belongs to wrapper `i`. */
  lemma WrappersPartitionEvents(block: SubstrateBlock, e: EventRecord)
    ensures var ws := WrapExtrinsics(block);
            !e.phase.ApplyExtrinsic? ==> forall i :: 0 <= i < |ws| ==> e !in ws[i].events
    ensures var ws := WrapExtrinsics(block);
            forall i, j :: 0 <= i < |ws| && 0 <= j < |ws| && e in ws[i].events && e in ws[j].events ==> i == j
    ensures var ws := WrapExtrinsics(block);
            e in block.events && e.phase.ApplyExtrinsic? && e.phase.index < |ws| ==> e in ws[e.phase.index].events
  {
    forall i | 0 <= i < |block.extrinsics|
      ensures e in EventsOf(block.events, i) <==> e in block.events && AppliedIn(e, i)
    {
      EventsOfMembership(block.events, i, e);
    }
  }

  // ---- Classification of one event ----

  /** Which specialised handler an event is routed to, besides its generic record. */
  datatype Detector = NativeTransfer | Outbound | Inbound | NoDetector

  function DetectorFor(e: ChainEvent): Detector {
    if e.section == "balances" && e.methodName == "Transfer" then NativeTransfer
    else if e.section == "octopusBridge" && e.methodName in OutboundMethods then Outbound
    else if e.section == "octopusBridge" && e.methodName in InboundMethods then Inbound
    else NoDetector
  }

  /** The records extracted from a run of events. */
  datatype Extracted = Extracted(
    events: seq<EventEntity>,
    systemTransfers: seq<SystemTokenTransfer>,
    outbound: seq<AppchainToNearTransfer>,
    inbound: seq<NearToAppchainTransfer>)
  {
    function Append(other: Extracted): Extracted {
      Extracted(events + other.events, systemTransfers + other.systemTransfers,
                outbound + other.outbound, inbound + other.inbound)
    }
  }

  /** One step of the `forEach` over an extrinsic's events: the event numbered `idx`. */
  function ExtractOne(block: SubstrateBlock, evt: EventRecord, extrinsicId: string, idx: nat)
    : (r: Decoded<Extracted>)
    ensures DetectorFor(evt.event) == NoDetector ==> r.Ok?
    ensures DetectorFor(evt.event) == NativeTransfer ==>
              (r.Ok? <==> HandleSystemTokenTransfer(block, evt, extrinsicId, idx).Ok?)
    ensures DetectorFor(evt.event) == Outbound ==> (r.Ok? <==> HandleAppchainToNearTransfer(block, evt, extrinsicId).Ok?)
    ensures DetectorFor(evt.event) == Inbound ==> (r.Ok? <==> HandleNearToAppchainTransfer(block, evt, extrinsicId).Ok?)
    ensures r.Ok? ==> r.value.events == [HandleEvent(block, evt, extrinsicId, idx)]
    ensures r.Ok? ==> r.value.systemTransfers ==
                        if DetectorFor(evt.event) == NativeTransfer
                        then [HandleSystemTokenTransfer(block, evt, extrinsicId, idx).value] else []
    ensures r.Ok? ==> r.value.outbound ==
                        if DetectorFor(evt.event) == Outbound
                        then [HandleAppchainToNearTransfer(block, evt, extrinsicId).value] else []
    ensures r.Ok? ==> r.value.inbound ==
                        if DetectorFor(evt.event) == Inbound
                        then [HandleNearToAppchainTransfer(block, evt, extrinsicId).value] else []
  {
    var ev := HandleEvent(block, evt, extrinsicId, idx);
    match DetectorFor(evt.event)
    case NativeTransfer =>
      var t :- HandleSystemTokenTransfer(block, evt, extrinsicId, idx);
      Ok(Extracted([ev], [t], [], []))
    case Outbound =>
      var t :- HandleAppchainToNearTransfer(block, evt, extrinsicId);
      Ok(Extracted([ev], [], [t], []))
    case Inbound =>
      var t :- HandleNearToAppchainTransfer(block, evt, extrinsicId);
      Ok(Extracted([ev], [], [], [t]))
    case NoDetector =>
      Ok(Extracted([ev], [], [], []))
  }

  /** The outcome of each event's step, the k-th numbered `start + k`. */
  function Steps(block: SubstrateBlock, events: seq<EventRecord>, extrinsicId: string, start: nat)
    : (r: seq<Decoded<Extracted>>)
    ensures |r| == |events|
    ensures forall k :: 0 <= k < |events| ==> r[k] == ExtractOne(block, events[k], extrinsicId, start + k)
  {
    seq(|events|, k requires 0 <= k < |events| => ExtractOne(block, events[k], extrinsicId, start + k))
  }

  /** The arrays the `forEach` fills: each step's records appended in turn; the first throw ends the run. */
  function Collect(steps: seq<Decoded<Extracted>>): Decoded<Extracted> {
    if steps == [] then Ok(Extracted([], [], [], []))
    else
      var prev :- Collect(steps[..|steps| - 1]);
      var last :- steps[|steps| - 1];
      Ok(prev.Append(last))
  }

  /** The whole `forEach` over an extrinsic's events, numbered from `start`. */
  function ExtractEvents(block: SubstrateBlock, events: seq<EventRecord>, extrinsicId: string, start: nat)
    : Decoded<Extracted>
  {
    Collect(Steps(block, events, extrinsicId, start))
  }

  /** Collecting succeeds exactly when every step succeeds. */
  lemma {:induction false} CollectOk(steps: seq<Decoded<Extracted>>)
    ensures Collect(steps).Ok? <==> forall k :: 0 <= k < |steps| ==> steps[k].Ok?
  {
    if steps != [] {
      var n := |steps| - 1;
      CollectOk(steps[..n]);
      assert forall k :: 0 <= k < n ==> steps[..n][k] == steps[k];
    }
  }

  /** A failed run fails with the error of its first failing step. */
  lemma {:induction false} CollectFirstError(steps: seq<Decoded<Extracted>>, e: DecodeError) returns (k: nat)
    requires Collect(steps) == Err(e)
    ensures k < |steps| && steps[k] == Err(e)
    ensures forall j :: 0 <= j < k ==> steps[j].Ok?
  {
    var n := |steps| - 1;
    if Collect(steps[..n]).Err? {
      k := CollectFirstError(steps[..n], e);
      assert forall j :: 0 <= j <= k ==> steps[..n][j] == steps[j];
    } else {
      CollectOk(steps[..n]);
      assert forall j :: 0 <= j < n ==> steps[..n][j] == steps[j];
      k := n;
    }
  }

  /** Once a prefix of the run has thrown, every longer prefix throws the same error. */
  lemma {:induction false} CollectErrorPersists(steps: seq<Decoded<Extracted>>, k: nat, j: nat)
    requires k <= j <= |steps|
    requires Collect(steps[..k]).Err?
    ensures Collect(steps[..j]) == Collect(steps[..k])
  {
    if j > k {
      CollectErrorPersists(steps, k, j - 1);
      assert steps[..j][..j - 1] == steps[..j - 1];
    }
  }

  /** One more step: a failing step ends the run with its error, a successful one appends its records. */
  lemma CollectStep(steps: seq<Decoded<Extracted>>, k: nat)
    requires k < |steps|
    ensures Collect(steps[..k + 1]) ==
              match Collect(steps[..k])
              case Err(e) => Err(e)
              case Ok(p) =>
                match steps[k]
                case Err(e) => Err(e)
                case Ok(x) => Ok(p.Append(x))
  {
    assert steps[..k + 1][..k] == steps[..k];
  }

  /** A successful step appends its records to those of the run so far. */
  lemma CollectPush(steps: seq<Decoded<Extracted>>, k: nat, acc: Extracted)
    requires k < |steps| && Collect(steps[..k]) == Ok(acc) && steps[k].Ok?
    ensures Collect(steps[..k + 1]) == Ok(acc.Append(steps[k].value))
  {
    CollectStep(steps, k);
  }

  /** The first failing step ends the whole run with its error. */
  lemma CollectStop(steps: seq<Decoded<Extracted>>, k: nat)
    requires k < |steps| && Collect(steps[..k]).Ok? && steps[k].Err?
    ensures Collect(steps) == Err(steps[k].error)
  {
    CollectStep(steps, k);
    CollectErrorPersists(steps, k + 1, |steps|);
    assert steps[..|steps|] == steps;
  }

  /** When each successful step emits exactly one event record, a successful run emits one
      record per step, in step order. */
  lemma {:induction false} CollectEvents(steps: seq<Decoded<Extracted>>, x: Extracted)
    requires Collect(steps) == Ok(x)
    requires forall k :: 0 <= k < |steps| && steps[k].Ok? ==> |steps[k].value.events| == 1
    ensures |x.events| == |steps|
    ensures forall k :: 0 <= k < |steps| ==> steps[k].Ok? && x.events[k] == steps[k].value.events[0]
  {
    if steps != [] {
      var n := |steps| - 1;
      var prev := Collect(steps[..n]).value;
      assert forall k :: 0 <= k < n ==> steps[..n][k] == steps[k];
      CollectEvents(steps[..n], prev);
    }
  }

  /** The run over a non-empty list is the run over all but its last event, then the last step. */
  lemma ExtractSnoc(block: SubstrateBlock, events: seq<EventRecord>, extrinsicId: string, start: nat)
    requires events != []
    ensures var n := |events| - 1;
            ExtractEvents(block, events, extrinsicId, start) ==
              match ExtractEvents(block, events[..n], extrinsicId, start)
              case Err(e) => Err(e)
              case Ok(p) =>
                match ExtractOne(block, events[n], extrinsicId, start + n)
                case Err(e) => Err(e)
                case Ok(o) => Ok(p.Append(o))
  {
    var n := |events| - 1;
    var s := Steps(block, events, extrinsicId, start);
    assert s[..n] == Steps(block, events[..n], extrinsicId, start);
  }

  /** The same, stated as the outcome and the records of the two parts. */
  lemma ExtractSnocParts(block: SubstrateBlock, events: seq<EventRecord>, extrinsicId: string, start: nat)
    requires events != []
    ensures var n := |events| - 1;
            var prev := ExtractEvents(block, events[..n], extrinsicId, start);
            var one := ExtractOne(block, events[n], extrinsicId, start + n);
            (ExtractEvents(block, events, extrinsicId, start).Ok? <==> prev.Ok? && one.Ok?) &&
            (ExtractEvents(block, events, extrinsicId, start).Ok? ==>
               ExtractEvents(block, events, extrinsicId, start).value == prev.value.Append(one.value))
  {
    ExtractSnoc(block, events, extrinsicId, start);
  }

  /** Extraction succeeds exactly when every event's own step succeeds. */
  lemma ExtractSucceeds(block: SubstrateBlock, events: seq<EventRecord>, extrinsicId: string, start: nat)
    ensures ExtractEvents(block, events, extrinsicId, start).Ok? <==>
            forall k :: 0 <= k < |events| ==> ExtractOne(block, events[k], extrinsicId, start + k).Ok?
  {
    CollectOk(Steps(block, events, extrinsicId, start));
  }

  /** A failing extraction throws the error of its first failing event. */
  lemma ExtractFirstError(block: SubstrateBlock, events: seq<EventRecord>, extrinsicId: string, start: nat,
                          e: DecodeError)
    requires ExtractEvents(block, events, extrinsicId, start) == Err(e)
    ensures exists k :: 0 <= k < |events| && ExtractOne(block, events[k], extrinsicId, start + k) == Err(e) &&
                        forall j :: 0 <= j < k ==> ExtractOne(block, events[j], extrinsicId, start + j).Ok?
  {
    var k := CollectFirstError(Steps(block, events, extrinsicId, start), e);
  }

  /** Exactly one event record per correlated event, the k-th numbered `start + k`. */
  lemma ExtractNumbering(block: SubstrateBlock, events: seq<EventRecord>, extrinsicId: string, start: nat, x: Extracted)
    requires ExtractEvents(block, events, extrinsicId, start) == Ok(x)
    ensures |x.events| == |events|
    ensures forall k :: 0 <= k < |events| ==> x.events[k] == HandleEvent(block, events[k], extrinsicId, start + k)
  {
    CollectEvents(Steps(block, events, extrinsicId, start), x);
  }

  /** How many events of a run are routed to detector `d`. */
  function CountRouted(events: seq<EventRecord>, d: Detector): nat {
    if events == [] then 0
    else CountRouted(events[..|events| - 1], d) + (if DetectorFor(events[|events| - 1].event) == d then 1 else 0)
  }

  /** Each `balances.Transfer` adds one native transfer, each outbound bridge method one
      outbound transfer, each inbound bridge method one inbound transfer; nothing else adds any. */
  lemma {:induction false} ExtractCounts(block: SubstrateBlock, events: seq<EventRecord>, extrinsicId: string,
                                         start: nat, x: Extracted)
    requires ExtractEvents(block, events, extrinsicId, start) == Ok(x)
    ensures |x.systemTransfers| == CountRouted(events, NativeTransfer)
    ensures |x.outbound| == CountRouted(events, Outbound)
    ensures |x.inbound| == CountRouted(events, Inbound)
  {
    if events != [] {
      var n := |events| - 1;
      ExtractSnoc(block, events, extrinsicId, start);
      var prev := ExtractEvents(block, events[..n], extrinsicId, start).value;
      ExtractCounts(block, events[..n], extrinsicId, start, prev);
    }
  }

  /** The decodes of the events of a run routed to detector `d`, in event order, the k-th
      event numbered `start + k`. */
  function RoutedDecodes<T>(events: seq<EventRecord>, d: Detector, start: nat,
                            decode: (EventRecord, nat) -> Decoded<T>): seq<Decoded<T>> {
    if events == [] then []
    else
      var n := |events| - 1;
      RoutedDecodes(events[..n], d, start, decode) +
      (if DetectorFor(events[n].event) == d then [decode(events[n], start + n)] else [])
  }

  /** Each detector's handler, applied to an event numbered k of the extrinsic `extrinsicId`. */
  function NativeDecoder(block: SubstrateBlock, extrinsicId: string): (EventRecord, nat) -> Decoded<SystemTokenTransfer> {
    (e: EventRecord, k: nat) => HandleSystemTokenTransfer(block, e, extrinsicId, k)
  }

  function OutboundDecoder(block: SubstrateBlock, extrinsicId: string): (EventRecord, nat) -> Decoded<AppchainToNearTransfer> {
    (e: EventRecord, k: nat) => HandleAppchainToNearTransfer(block, e, extrinsicId)
  }

  function InboundDecoder(block: SubstrateBlock, extrinsicId: string): (EventRecord, nat) -> Decoded<NearToAppchainTransfer> {
    (e: EventRecord, k: nat) => HandleNearToAppchainTransfer(block, e, extrinsicId)
  }

  /** The run's native, outbound and inbound transfers as their handlers decode them, or the
      first error among those decodes. */
  function NativeDecodes(block: SubstrateBlock, events: seq<EventRecord>, extrinsicId: string, start: nat)
    : Decoded<seq<SystemTokenTransfer>>
  {
    AllOk(RoutedDecodes(events, NativeTransfer, start, NativeDecoder(block, extrinsicId)))
  }

  function OutboundDecodes(block: SubstrateBlock, events: seq<EventRecord>, extrinsicId: string, start: nat)
    : Decoded<seq<AppchainToNearTransfer>>
  {
    AllOk(RoutedDecodes(events, Outbound, start, OutboundDecoder(block, extrinsicId)))
  }

  function InboundDecodes(block: SubstrateBlock, events: seq<EventRecord>, extrinsicId: string, start: nat)
    : Decoded<seq<NearToAppchainTransfer>>
  {
    AllOk(RoutedDecodes(events, Inbound, start, InboundDecoder(block, extrinsicId)))
  }

  /** Extraction succeeds exactly when every routed event decodes with its handler, and then its
      transfer lists are those decodes, in event order. */
  ghost predicate TransfersDecoded(block: SubstrateBlock, events: seq<EventRecord>, extrinsicId: string, start: nat) {
    var x := ExtractEvents(block, events, extrinsicId, start);
    var natives := NativeDecodes(block, events, extrinsicId, start);
    var outs := OutboundDecodes(block, events, extrinsicId, start);
    var ins := InboundDecodes(block, events, extrinsicId, start);
    (x.Ok? <==> natives.Ok? && outs.Ok? && ins.Ok?) &&
    (x.Ok? ==> natives == Ok(x.value.systemTransfers) && outs == Ok(x.value.outbound) && ins == Ok(x.value.inbound))
  }

  /** Every run's transfers are the decodes of its routed events. */
  lemma {:induction false} ExtractTransfers(block: SubstrateBlock, events: seq<EventRecord>, extrinsicId: string,
                                            start: nat)
    ensures ExtractEvents(block, events, extrinsicId, start).Ok? <==>
            NativeDecodes(block, events, extrinsicId, start).Ok? &&
            OutboundDecodes(block, events, extrinsicId, start).Ok? &&
            InboundDecodes(block, events, extrinsicId, start).Ok?
    ensures ExtractEvents(block, events, extrinsicId, start).Ok? ==>
            NativeDecodes(block, events, extrinsicId, start) ==
              Ok(ExtractEvents(block, events, extrinsicId, start).value.systemTransfers) &&
            OutboundDecodes(block, events, extrinsicId, start) ==
              Ok(ExtractEvents(block, events, extrinsicId, start).value.outbound) &&
            InboundDecodes(block, events, extrinsicId, start) ==
              Ok(ExtractEvents(block, events, extrinsicId, start).value.inbound)
  {
    TransfersDecodedAll(block, events, extrinsicId, start);
  }

  lemma {:induction false} TransfersDecodedAll(block: SubstrateBlock, events: seq<EventRecord>, extrinsicId: string,
                                               start: nat)
    ensures TransfersDecoded(block, events, extrinsicId, start)
  {
    if events != [] {
      var n := |events| - 1;
      TransfersDecodedAll(block, events[..n], extrinsicId, start);
      match DetectorFor(events[n].event)
      case NativeTransfer => TransfersDecodedNative(block, events, extrinsicId, start);
      case Outbound => TransfersDecodedOutbound(block, events, extrinsicId, start);
      case Inbound => TransfersDecodedInbound(block, events, extrinsicId, start);
      case NoDetector => TransfersDecodedPlain(block, events, extrinsicId, start);
    }
  }

  /** A `balances.Transfer` at the end of the run adds its decode to the native transfers. */
  lemma TransfersDecodedNative(block: SubstrateBlock, events: seq<EventRecord>, extrinsicId: string, start: nat)
    requires events != [] && DetectorFor(events[|events| - 1].event) == NativeTransfer
    requires TransfersDecoded(block, events[..|events| - 1], extrinsicId, start)
    ensures TransfersDecoded(block, events, extrinsicId, start)
  {
    var n := |events| - 1;
    var dn := NativeDecoder(block, extrinsicId);
    ExtractSnocParts(block, events, extrinsicId, start);
    assert RoutedDecodes(events, Outbound, start, OutboundDecoder(block, extrinsicId)) ==
           RoutedDecodes(events[..n], Outbound, start, OutboundDecoder(block, extrinsicId));
    assert RoutedDecodes(events, Inbound, start, InboundDecoder(block, extrinsicId)) ==
           RoutedDecodes(events[..n], Inbound, start, InboundDecoder(block, extrinsicId));
    AllOkSnoc(RoutedDecodes(events[..n], NativeTransfer, start, dn), dn(events[n], start + n));
    EmptyAppends(block, events, extrinsicId, start);
  }

  /** An outbound bridge event at the end of the run adds its decode to the outbound transfers. */
  lemma TransfersDecodedOutbound(block: SubstrateBlock, events: seq<EventRecord>, extrinsicId: string, start: nat)
    requires events != [] && DetectorFor(events[|events| - 1].event) == Outbound
    requires TransfersDecoded(block, events[..|events| - 1], extrinsicId, start)
    ensures TransfersDecoded(block, events, extrinsicId, start)
  {
    var n := |events| - 1;
    var dout := OutboundDecoder(block, extrinsicId);
    ExtractSnocParts(block, events, extrinsicId, start);
    assert RoutedDecodes(events, NativeTransfer, start, NativeDecoder(block, extrinsicId)) ==
           RoutedDecodes(events[..n], NativeTransfer, start, NativeDecoder(block, extrinsicId));
    assert RoutedDecodes(events, Inbound, start, InboundDecoder(block, extrinsicId)) ==
           RoutedDecodes(events[..n], Inbound, start, InboundDecoder(block, extrinsicId));
    AllOkSnoc(RoutedDecodes(events[..n], Outbound, start, dout), dout(events[n], start + n));
    EmptyAppends(block, events, extrinsicId, start);
  }

  /** An inbound bridge event at the end of the run adds its decode to the inbound transfers. */
  lemma TransfersDecodedInbound(block: SubstrateBlock, events: seq<EventRecord>, extrinsicId: string, start: nat)
    requires events != [] && DetectorFor(events[|events| - 1].event) == Inbound
    requires TransfersDecoded(block, events[..|events| - 1], extrinsicId, start)
    ensures TransfersDecoded(block, events, extrinsicId, start)
  {
    var n := |events| - 1;
    var din := InboundDecoder(block, extrinsicId);
    ExtractSnocParts(block, events, extrinsicId, start);
    assert RoutedDecodes(events, NativeTransfer, start, NativeDecoder(block, extrinsicId)) ==
           RoutedDecodes(events[..n], NativeTransfer, start, NativeDecoder(block, extrinsicId));
    assert RoutedDecodes(events, Outbound, start, OutboundDecoder(block, extrinsicId)) ==
           RoutedDecodes(events[..n], Outbound, start, OutboundDecoder(block, extrinsicId));
    AllOkSnoc(RoutedDecodes(events[..n], Inbound, start, din), din(events[n], start + n));
    EmptyAppends(block, events, extrinsicId, start);
  }

  /** Any other event at the end of the run adds no transfer and never throws. */
  lemma TransfersDecodedPlain(block: SubstrateBlock, events: seq<EventRecord>, extrinsicId: string, start: nat)
    requires events != [] && DetectorFor(events[|events| - 1].event) == NoDetector
    requires TransfersDecoded(block, events[..|events| - 1], extrinsicId, start)
    ensures TransfersDecoded(block, events, extrinsicId, start)
  {
    var n := |events| - 1;
    ExtractSnocParts(block, events, extrinsicId, start);
    assert RoutedDecodes(events, NativeTransfer, start, NativeDecoder(block, extrinsicId)) ==
           RoutedDecodes(events[..n], NativeTransfer, start, NativeDecoder(block, extrinsicId));
    assert RoutedDecodes(events, Outbound, start, OutboundDecoder(block, extrinsicId)) ==
           RoutedDecodes(events[..n], Outbound, start, OutboundDecoder(block, extrinsicId));
    assert RoutedDecodes(events, Inbound, start, InboundDecoder(block, extrinsicId)) ==
           RoutedDecodes(events[..n], Inbound, start, InboundDecoder(block, extrinsicId));
    EmptyAppends(block, events, extrinsicId, start);
  }

  /** Appending no transfers leaves the prefix's lists as they are. */
  lemma EmptyAppends(block: SubstrateBlock, events: seq<EventRecord>, extrinsicId: string, start: nat)
    requires events != []
    ensures var prev := ExtractEvents(block, events[..|events| - 1], extrinsicId, start);
            prev.Ok? ==> prev.value.systemTransfers + [] == prev.value.systemTransfers &&
                         prev.value.outbound + [] == prev.value.outbound &&
                         prev.value.inbound + [] == prev.value.inbound
  {
  }

  /** Every record extracted for an extrinsic carries that extrinsic's id. */
  lemma {:induction false} ExtractCarriesExtrinsicId(block: SubstrateBlock, events: seq<EventRecord>,
                                                     extrinsicId: string, start: nat, x: Extracted)
    requires ExtractEvents(block, events, extrinsicId, start) == Ok(x)
    ensures forall e :: e in x.events ==> e.extrinsicId == extrinsicId
    ensures forall t :: t in x.systemTransfers ==> t.extrinsicId == extrinsicId
    ensures forall t :: t in x.outbound ==> t.extrinsicId == extrinsicId
    ensures forall t :: t in x.inbound ==> t.extrinsicId == extrinsicId
  {
    if events != [] {
      var n := |events| - 1;
      ExtractSnoc(block, events, extrinsicId, start);
      var prev := ExtractEvents(block, events[..n], extrinsicId, start).value;
      ExtractCarriesExtrinsicId(block, events[..n], extrinsicId, start, prev);
    }
  }

  // ---- Touched accounts ----

  /** A JavaScript property key: `obj[undefined]` writes the key "undefined". */
  function PropertyKey(id: Option<string>): string {
    match id
    case Some(s) => s
    case None => "undefined"
  }

  function TransferAccounts(ts: seq<SystemTokenTransfer>): set<string> {
    if ts == [] then {}
    else TransferAccounts(ts[..|ts| - 1]) + {ts[|ts| - 1].fromId, ts[|ts| - 1].toId}
  }

  function SenderAccounts(ts: seq<AppchainToNearTransfer>): set<string> {
    if ts == [] then {} else SenderAccounts(ts[..|ts| - 1]) + {PropertyKey(ts[|ts| - 1].senderId)}
  }

  function ReceiverAccounts(ts: seq<NearToAppchainTransfer>): set<string> {
    if ts == [] then {} else ReceiverAccounts(ts[..|ts| - 1]) + {PropertyKey(ts[|ts| - 1].receiverId)}
  }

  /** The native transfers touch exactly their senders and recipients. */
  lemma {:induction false} TransferAccountsMembers(ts: seq<SystemTokenTransfer>, a: string)
    ensures a in TransferAccounts(ts) <==> exists j :: 0 <= j < |ts| && (ts[j].fromId == a || ts[j].toId == a)
  {
    if ts != [] {
      var n := |ts| - 1;
      TransferAccountsMembers(ts[..n], a);
      if a in TransferAccounts(ts[..n]) {
        var j :| 0 <= j < n && (ts[..n][j].fromId == a || ts[..n][j].toId == a);
        assert ts[j] == ts[..n][j];
      }
      if exists j :: 0 <= j < |ts| && (ts[j].fromId == a || ts[j].toId == a) {
        var j :| 0 <= j < |ts| && (ts[j].fromId == a || ts[j].toId == a);
        if j < n {
          assert ts[..n][j] == ts[j];
        }
      }
    }
  }

  /** The outbound transfers touch exactly their local senders. */
  lemma {:induction false} SenderAccountsMembers(ts: seq<AppchainToNearTransfer>, a: string)
    ensures a in SenderAccounts(ts) <==> exists j :: 0 <= j < |ts| && PropertyKey(ts[j].senderId) == a
  {
    if ts != [] {
      var n := |ts| - 1;
      SenderAccountsMembers(ts[..n], a);
      if a in SenderAccounts(ts[..n]) {
        var j :| 0 <= j < n && PropertyKey(ts[..n][j].senderId) == a;
        assert ts[j] == ts[..n][j];
      }
      if exists j :: 0 <= j < |ts| && PropertyKey(ts[j].senderId) == a {
        var j :| 0 <= j < |ts| && PropertyKey(ts[j].senderId) == a;
        if j < n {
          assert ts[..n][j] == ts[j];
        }
      }
    }
  }

  /** The inbound transfers touch exactly their local receivers. */
  lemma {:induction false} ReceiverAccountsMembers(ts: seq<NearToAppchainTransfer>, a: string)
    ensures a in ReceiverAccounts(ts) <==> exists j :: 0 <= j < |ts| && PropertyKey(ts[j].receiverId) == a
  {
    if ts != [] {
      var n := |ts| - 1;
      ReceiverAccountsMembers(ts[..n], a);
      if a in ReceiverAccounts(ts[..n]) {
        var j :| 0 <= j < n && PropertyKey(ts[..n][j].receiverId) == a;
        assert ts[j] == ts[..n][j];
      }
      if exists j :: 0 <= j < |ts| && PropertyKey(ts[j].receiverId) == a {
        var j :| 0 <= j < |ts| && PropertyKey(ts[j].receiverId) == a;
        if j < n {
          assert ts[..n][j] == ts[j];
        }
      }
    }
  }

  /** The signer and every local participant of the extracted transfers. */
  function TouchedAccounts(signerId: Option<string>, x: Extracted): set<string> {
    {PropertyKey(signerId)} + TransferAccounts(x.systemTransfers) + SenderAccounts(x.outbound) +
    ReceiverAccounts(x.inbound)
  }

  /** A map from each key to `null`. */
  function NullMap(keys: set<string>): AccountIdMap {
    map k | k in keys :: None
  }

  // ---- handleExtrinsic ----

  datatype ExtrinsicOutput = ExtrinsicOutput(
    extrinsic: ExtrinsicEntity,
    calls: seq<CallEntity>,
    events: seq<EventEntity>,
    systemTransfers: seq<SystemTokenTransfer>,
    outbound: seq<AppchainToNearTransfer>,
    inbound: seq<NearToAppchainTransfer>,
    accountIdMap: AccountIdMap)

  /** The extrinsic record, with id `"{blockNumber}-{idx}"`. */
  function NewExtrinsic(block: SubstrateBlock, w: WrappedExtrinsic, idx: nat): (r: ExtrinsicEntity)
    ensures r.isSuccess == w.success && r.signerId == w.extrinsic.signer && r.blockId == block.hash
    ensures r.timestamp == block.timestamp
    ensures r.hash == w.extrinsic.hash && r.section == w.extrinsic.section && r.methodName == w.extrinsic.methodName
    ensures r.args == w.extrinsic.args && r.signature == w.extrinsic.signature && r.isSigned == w.extrinsic.isSigned
    ensures r.nonce == w.extrinsic.nonce && r.tip == w.extrinsic.tip
  {
    var x := w.extrinsic;
    // `BigInt(nonce.toString()) || BigInt(0)`: the `||` only maps 0n to 0n
    ExtrinsicEntity(RecordId(block.number, idx), x.hash, x.methodName, x.section, x.args, x.signer, x.nonce,
                    block.timestamp, x.signature, x.tip, x.isSigned, w.success, block.hash)
  }

  /** What handleExtrinsic returns, or the error it throws. */
  function ExtrinsicOutputOf(block: SubstrateBlock, w: WrappedExtrinsic, idx: nat, startEvtIdx: nat,
                             handleCalls: (ExtrinsicEntity, WrappedExtrinsic) -> seq<CallEntity>)
    : Decoded<ExtrinsicOutput>
  {
    var newExtrinsic := NewExtrinsic(block, w, idx);
    var x :- ExtractEvents(block, w.events, newExtrinsic.id, startEvtIdx);
    Ok(ExtrinsicOutput(newExtrinsic, handleCalls(newExtrinsic, w), x.events, x.systemTransfers, x.outbound,
                       x.inbound, NullMap(TouchedAccounts(newExtrinsic.signerId, x))))
  }

  /** handleExtrinsic succeeds exactly when every correlated event decodes; its extrinsic is
      `"{blockNumber}-{idx}"`, its k-th event `"{blockNumber}-{startEvtIdx + k}"`, every event record points at
      the extrinsic, and the account map holds the signer's key, every value `null`. */
  lemma ExtrinsicOutputFacts(block: SubstrateBlock, w: WrappedExtrinsic, idx: nat, startEvtIdx: nat,
                             handleCalls: (ExtrinsicEntity, WrappedExtrinsic) -> seq<CallEntity>)
    ensures ExtrinsicOutputOf(block, w, idx, startEvtIdx, handleCalls).Ok? <==>
            ExtractEvents(block, w.events, RecordId(block.number, idx), startEvtIdx).Ok?
    ensures var r := ExtrinsicOutputOf(block, w, idx, startEvtIdx, handleCalls);
            r.Ok? ==> r.value.extrinsic.id == RecordId(block.number, idx)
    ensures var r := ExtrinsicOutputOf(block, w, idx, startEvtIdx, handleCalls);
            r.Ok? ==> |r.value.events| == |w.events| &&
                      forall k :: 0 <= k < |w.events| ==>
                        r.value.events[k].id == RecordId(block.number, startEvtIdx + k)
    ensures var r := ExtrinsicOutputOf(block, w, idx, startEvtIdx, handleCalls);
            r.Ok? ==> forall e :: e in r.value.events ==> e.extrinsicId == r.value.extrinsic.id
    ensures var r := ExtrinsicOutputOf(block, w, idx, startEvtIdx, handleCalls);
            r.Ok? ==> PropertyKey(w.extrinsic.signer) in r.value.accountIdMap &&
                      forall a :: a in r.value.accountIdMap ==> r.value.accountIdMap[a] == None
  {
    var newExtrinsic := NewExtrinsic(block, w, idx);
    var ex := ExtractEvents(block, w.events, newExtrinsic.id, startEvtIdx);
    if ex.Ok? {
      ExtractNumbering(block, w.events, newExtrinsic.id, startEvtIdx, ex.value);
      ExtractCarriesExtrinsicId(block, w.events, newExtrinsic.id, startEvtIdx, ex.value);
      forall k | 0 <= k < |w.events|
        ensures ex.value.events[k].id == RecordId(block.number, startEvtIdx + k)
      {
        assert ex.value.events[k] == HandleEvent(block, w.events[k], newExtrinsic.id, startEvtIdx + k);
      }
    }
  }

  /** The account ids an extrinsic touches, each mapped to `null`: its signer, then the parties
      of its native transfers, outbound senders and inbound receivers. */
  method CollectAccountIds(signerId: Option<string>, transfers: seq<SystemTokenTransfer>,
                           outbound: seq<AppchainToNearTransfer>, inbound: seq<NearToAppchainTransfer>)
    returns (accountIdMap: AccountIdMap)
    ensures accountIdMap == NullMap(TouchedAccounts(signerId, Extracted([], transfers, outbound, inbound)))
  {
    accountIdMap := map[PropertyKey(signerId) := None];
    for j := 0 to |transfers|
      invariant accountIdMap == NullMap({PropertyKey(signerId)} +
                                        TransferAccounts(transfers[..j]))
    {
      assert transfers[..j + 1][..j] == transfers[..j];
      var t := transfers[j];
      accountIdMap := accountIdMap[t.fromId := None];
      accountIdMap := accountIdMap[t.toId := None];
    }
    assert transfers[..|transfers|] == transfers;
    ghost var keys := {PropertyKey(signerId)} + TransferAccounts(transfers);
    for j := 0 to |outbound|
      invariant accountIdMap == NullMap(keys + SenderAccounts(outbound[..j]))
    {
      assert outbound[..j + 1][..j] == outbound[..j];
      accountIdMap := accountIdMap[PropertyKey(outbound[j].senderId) := None];
    }
    assert outbound[..|outbound|] == outbound;
    keys := keys + SenderAccounts(outbound);
    for j := 0 to |inbound|
      invariant accountIdMap == NullMap(keys + ReceiverAccounts(inbound[..j]))
    {
      assert inbound[..j + 1][..j] == inbound[..j];
      accountIdMap := accountIdMap[PropertyKey(inbound[j].receiverId) := None];
    }
    assert inbound[..|inbound|] == inbound;
  }

  /** The `forEach` callback for one event: its generic record, then whichever specialised
      records its section and method call for. */
  method ClassifyEvent(block: SubstrateBlock, evt: EventRecord, extrinsicId: string, idx: nat)
    returns (r: Decoded<Extracted>)
    ensures r == ExtractOne(block, evt, extrinsicId, idx)
  {
    var pushed := Extracted([HandleEvent(block, evt, extrinsicId, idx)], [], [], []);
    if evt.event.section == "balances" && evt.event.methodName == "Transfer" {
      var t := HandleSystemTokenTransfer(block, evt, extrinsicId, idx);
      if t.Err? {
        return Err(t.error);
      }
      pushed := pushed.(systemTransfers := [t.value]);
    }
    if evt.event.section == "octopusBridge" {
      if evt.event.methodName in OutboundMethods {
        var t := HandleAppchainToNearTransfer(block, evt, extrinsicId);
        if t.Err? {
          return Err(t.error);
        }
        pushed := pushed.(outbound := [t.value]);
      }
      if evt.event.methodName in InboundMethods {
        var t := HandleNearToAppchainTransfer(block, evt, extrinsicId);
        if t.Err? {
          return Err(t.error);
        }
        pushed := pushed.(inbound := [t.value]);
      }
    }
    r := Ok(pushed);
  }

  /** The `forEach` over an extrinsic's events: pushes each event's records in turn; the first
      throw aborts the run. */
  method ExtractEventsLoop(block: SubstrateBlock, evts: seq<EventRecord>, extrinsicId: string, startEvtIdx: nat)
    returns (r: Decoded<Extracted>)
    ensures r == ExtractEvents(block, evts, extrinsicId, startEvtIdx)
  {
    ghost var steps := Steps(block, evts, extrinsicId, startEvtIdx);
    var newEvents: seq<EventEntity> := [];
    var newSystemTokenTransfers: seq<SystemTokenTransfer> := [];
    var newAppchainToNearTransfers: seq<AppchainToNearTransfer> := [];
    var newNearToAppchainTransfers: seq<NearToAppchainTransfer> := [];
    for k := 0 to |evts|
      invariant Collect(steps[..k]) ==
                Ok(Extracted(newEvents, newSystemTokenTransfers, newAppchainToNearTransfers,
                             newNearToAppchainTransfers))
    {
      var pushed := ClassifyEvent(block, evts[k], extrinsicId, startEvtIdx + k);
      assert pushed == steps[k];
      if pushed.Err? {
        CollectStop(steps, k);
        return Err(pushed.error);
      }
      CollectPush(steps, k, Extracted(newEvents, newSystemTokenTransfers, newAppchainToNearTransfers,
                                      newNearToAppchainTransfers));
      newEvents := newEvents + pushed.value.events;
      newSystemTokenTransfers := newSystemTokenTransfers + pushed.value.systemTransfers;
      newAppchainToNearTransfers := newAppchainToNearTransfers + pushed.value.outbound;
      newNearToAppchainTransfers := newNearToAppchainTransfers + pushed.value.inbound;
    }
    assert steps[..|steps|] == steps;
    r := Ok(Extracted(newEvents, newSystemTokenTransfers, newAppchainToNearTransfers, newNearToAppchainTransfers));
  }

  /** handleExtrinsic: builds the extrinsic record and its calls, runs the `forEach` over its
      events, then writes the touched account ids into a fresh map. */
  method HandleExtrinsic(block: SubstrateBlock, extrinsic: WrappedExtrinsic, idx: nat, startEvtIdx: nat,
                         handleCalls: (ExtrinsicEntity, WrappedExtrinsic) -> seq<CallEntity>)
    returns (r: Decoded<ExtrinsicOutput>)
    ensures r == ExtrinsicOutputOf(block, extrinsic, idx, startEvtIdx, handleCalls)
  {
    var extrinsicId := RecordId(block.number, idx);
    var newExtrinsic := NewExtrinsic(block, extrinsic, idx);
    var newCalls := handleCalls(newExtrinsic, extrinsic);
    var pushed := ExtractEventsLoop(block, extrinsic.events, extrinsicId, startEvtIdx);
    if pushed.Err? {
      return Err(pushed.error);
    }
    var x := pushed.value;
    var accountIdMap := CollectAccountIds(newExtrinsic.signerId, x.systemTransfers, x.outbound, x.inbound);
    r := Ok(ExtrinsicOutput(newExtrinsic, newCalls, x.events, x.systemTransfers, x.outbound, x.inbound,
                            accountIdMap));
  }
}
