/** The reader thread end to end: chunks reassembled, whole messages forwarded, subscribers joining at any moment. */
module Delivery {
  import opened Order
  import opened Protocol
  import opened Fanout
  import opened LastValue
  import Reassembly
  import ClientStream

  /** What the daemon sends: a message, or one chunk of a transfer. */
  datatype Incoming = Message(message: Protocol.Message) | Piece(chunk: Reassembly.Chunk)

  /** Which incoming item a forwarded message came from: a chunk, by its position among the chunks, or none. */
  datatype Origin = Direct | FromChunk(k: nat)

  /** The connection, the reader's transfers, and for the statements the chunks read and each forward's origin. */
  datatype State = State(
    run: ClientStream.Run,
    transfers: Reassembly.Transfers,
    chunks: seq<Reassembly.Chunk>,
    origins: seq<Origin>)

  /** The reader handles an incoming item between forwards; every other step is one of the connection's. */
  datatype Step = Receive(item: Incoming) | Other(action: ClientStream.Action)

  const START := State(
    ClientStream.Run(ClientStream.CONNECTED, ClientStream.History([], map[], map[])), map[], [], [])

  predicate Enabled(s: State, step: Step) {
    match step
    case Receive(_) => s.run.state.phase.Reading?
    case Other(a) => !a.Insert? && ClientStream.Enabled(s.run.state, a)
  }

  ghost function Stepped(r: ClientStream.Run, a: ClientStream.Action): ClientStream.Run
    requires ClientStream.Enabled(r.state, a)
  {
    ClientStream.Run(ClientStream.Next(r.state, a), ClientStream.Observed(r.state, r.history, a))
  }

  ghost function Forwarded(s: State, m: Protocol.Message, origin: Origin): State
    requires s.run.state.phase.Reading?
  {
    s.(run := Stepped(s.run, ClientStream.Insert(m)), origins := s.origins + [origin])
  }

  ghost function Next(s: State, step: Step): State
    requires Enabled(s, step)
  {
    match step
    case Other(a) => s.(run := Stepped(s.run, a))
    case Receive(Message(m)) => Forwarded(s, m, Direct)
    case Receive(Piece(c)) =>
      var whole := Reassembly.Delivered(Reassembly.Opened(s.transfers, c), c);
      var read := s.(transfers := Reassembly.Ingest(s.transfers, c), chunks := s.chunks + [c]);
      if whole.Some? then Forwarded(read, whole.value, FromChunk(|s.chunks|)) else read
  }

  /** The state after `k` attempted steps of an interleaving; a step that is not enabled waits. */
  ghost function After(steps: seq<Step>, k: nat): State
    requires k <= |steps|
  {
    if k == 0 then START
    else
      var s := After(steps, k - 1);
      if Enabled(s, steps[k - 1]) then Next(s, steps[k - 1]) else s
  }

  // ----- invariant -----

  lemma {:induction false} RunPrefix(a: seq<Reassembly.Chunk>, b: seq<Reassembly.Chunk>, k: nat)
    requires k <= |a|
    ensures Reassembly.Run(map[], a + b, k) == Reassembly.Run(map[], a, k)
  {
    hide Reassembly.Ingest;
    if k > 0 { RunPrefix(a, b, k - 1); }
  }

  lemma EmittedPrefix(a: seq<Reassembly.Chunk>, b: seq<Reassembly.Chunk>, k: nat)
    requires k < |a|
    ensures Reassembly.Emitted(map[], a + b, k) == Reassembly.Emitted(map[], a, k)
  {
    hide Reassembly.Run, Reassembly.Delivered, Reassembly.Opened;
    RunPrefix(a, b, k);
  }

  lemma {:induction false} ArrivedPrefix(a: seq<Reassembly.Chunk>, b: seq<Reassembly.Chunk>, id: int, k: nat)
    requires k <= |a|
    ensures Reassembly.Arrived(a + b, id, k) == Reassembly.Arrived(a, id, k)
  {
    if k > 0 { ArrivedPrefix(a, b, id, k - 1); }
  }

  /** Forward `p` was made by chunk `k`, and it is what that chunk completed. */
  ghost predicate CameFrom(s: State, p: nat, k: nat)
    requires |s.origins| == |s.run.history.log|
  {
    && p < |s.origins| && s.origins[p] == FromChunk(k)
    && k < |s.chunks| && Reassembly.Emitted(map[], s.chunks, k) == Some(s.run.history.log[p])
  }

  /** Every forward of a chunk is that chunk's completed message, and no chunk is forwarded twice. */
  ghost predicate Reads(s: State) {
    && |s.origins| == |s.run.history.log|
    && s.transfers == Reassembly.Run(map[], s.chunks, |s.chunks|)
    && (forall p {:trigger s.origins[p]} ::
          0 <= p < |s.origins| && s.origins[p].FromChunk? ==> CameFrom(s, p, s.origins[p].k))
    && (forall p, q :: 0 <= p < q < |s.origins| && s.origins[p].FromChunk? ==> s.origins[p] != s.origins[q])
    && (forall id :: id in s.run.history.joined ==> s.run.history.joined[id] <= |s.run.history.log|)
  }

  /** Besides, whatever a chunk completed has been forwarded. */
  ghost predicate Accounted(s: State) {
    && Reads(s)
    && (forall k {:trigger Reassembly.Emitted(map[], s.chunks, k)} ::
          0 <= k < |s.chunks| && Reassembly.Emitted(map[], s.chunks, k).Some? ==> FromChunk(k) in s.origins)
  }

  ghost predicate Inv(s: State) {
    ClientStream.Inv(s.run.state, s.run.history) && Accounted(s)
  }

  lemma OtherStepIsAccounted(s: State, a: ClientStream.Action)
    requires Accounted(s) && Enabled(s, Other(a))
    ensures Accounted(Next(s, Other(a)))
  {
    hide Reassembly.Emitted, Reassembly.Run, ClientStream.Next;
    var s' := Next(s, Other(a));
    assert s'.run.history.log == s.run.history.log;
    forall p | 0 <= p < |s'.origins| && s'.origins[p].FromChunk? ensures CameFrom(s', p, s'.origins[p].k) {
      assert CameFrom(s, p, s.origins[p].k);
    }
  }

  lemma ForwardIsAccounted(s: State, m: Protocol.Message, origin: Origin)
    requires s.run.state.phase.Reading? && Reads(s)
    requires origin.FromChunk? ==> origin.k + 1 == |s.chunks| && FromChunk(origin.k) !in s.origins
    requires origin.FromChunk? ==> Reassembly.Emitted(map[], s.chunks, origin.k) == Some(m)
    requires forall k {:trigger Reassembly.Emitted(map[], s.chunks, k)} ::
      0 <= k < |s.chunks| && Reassembly.Emitted(map[], s.chunks, k).Some? ==> FromChunk(k) in s.origins + [origin]
    ensures Accounted(Forwarded(s, m, origin))
  {
    hide Reassembly.Emitted, Reassembly.Run, ClientStream.Next;
    var s' := Forwarded(s, m, origin);
    assert s'.run.history.log == s.run.history.log + [m];
    forall p | 0 <= p < |s'.origins| && s'.origins[p].FromChunk? ensures CameFrom(s', p, s'.origins[p].k) {
      if p < |s.origins| { assert CameFrom(s, p, s.origins[p].k); }
    }
  }

  /** Reading a chunk before anything is forwarded. */
  ghost function Read(s: State, c: Reassembly.Chunk): State {
    s.(transfers := Reassembly.Ingest(s.transfers, c), chunks := s.chunks + [c])
  }

  lemma ChunkIsRead(s: State, c: Reassembly.Chunk)
    requires Accounted(s)
    ensures Reads(Read(s, c))
    ensures
      Reassembly.Emitted(map[], s.chunks + [c], |s.chunks|)
      == Reassembly.Delivered(Reassembly.Opened(s.transfers, c), c)
    ensures FromChunk(|s.chunks|) !in s.origins
    ensures
      forall k :: 0 <= k < |s.chunks| && Reassembly.Emitted(map[], s.chunks + [c], k).Some? ==>
        FromChunk(k) in s.origins
  {
    hide Reassembly.Delivered, Reassembly.Opened, Reassembly.Ingest;
    var s' := Read(s, c);
    RunPrefix(s.chunks, [c], |s.chunks|);
    assert s'.chunks[|s.chunks|] == c;
    hide Reassembly.Run;
    forall p | 0 <= p < |s'.origins| && s'.origins[p].FromChunk? ensures CameFrom(s', p, s'.origins[p].k) {
      assert CameFrom(s, p, s.origins[p].k);
      EmittedPrefix(s.chunks, [c], s.origins[p].k);
    }
    forall p | 0 <= p < |s.origins| ensures s.origins[p] != FromChunk(|s.chunks|) {
      assert s.origins[p].FromChunk? ==> CameFrom(s, p, s.origins[p].k);
    }
    forall k | 0 <= k < |s.chunks| && Reassembly.Emitted(map[], s'.chunks, k).Some? ensures FromChunk(k) in s.origins {
      EmittedPrefix(s.chunks, [c], k);
    }
  }

  lemma ReceiveIsAccounted(s: State, item: Incoming)
    requires Accounted(s) && Enabled(s, Receive(item))
    ensures Accounted(Next(s, Receive(item)))
  {
    hide Reassembly.Emitted, Reassembly.Run, Reassembly.Delivered, Reassembly.Opened, Reassembly.Ingest;
    match item {
      case Message(m) => ForwardIsAccounted(s, m, Direct);
      case Piece(c) =>
        ChunkIsRead(s, c);
        var whole := Reassembly.Delivered(Reassembly.Opened(s.transfers, c), c);
        if whole.Some? { ForwardIsAccounted(Read(s, c), whole.value, FromChunk(|s.chunks|)); }
    }
  }

  lemma StepKeepsInv(s: State, step: Step)
    requires Inv(s) && Enabled(s, step)
    ensures Inv(Next(s, step))
  {
    hide Accounted, ClientStream.Inv, ClientStream.Next, ClientStream.Observed, Reassembly.Delivered, Reassembly.Opened;
    match step {
      case Other(a) =>
        OtherStepIsAccounted(s, a);
        ClientStream.StepKeepsInv(s.run.state, s.run.history, a);
      case Receive(item) =>
        ReceiveIsAccounted(s, item);
        forall m
          ensures
            var next := Stepped(s.run, ClientStream.Insert(m));
            ClientStream.Inv(next.state, next.history)
        {
          ClientStream.StepKeepsInv(s.run.state, s.run.history, ClientStream.Insert(m));
        }
    }
  }

  lemma {:induction false} Reachable(steps: seq<Step>, k: nat)
    requires k <= |steps|
    ensures Inv(After(steps, k))
  {
    hide Inv, Next;
    if k > 0 {
      Reachable(steps, k - 1);
      var s := After(steps, k - 1);
      if Enabled(s, steps[k - 1]) { StepKeepsInv(s, steps[k - 1]); }
    } else {
      StartIsSound();
    }
  }

  lemma StartIsSound()
    ensures Inv(START)
  {
    ClientStream.StartIsSound();
  }

  /** A whole message is forwarded as it is; a chunk forwards what it completes, or nothing. */
  lemma ReceivedIsForwarded(steps: seq<Step>, k: nat)
    requires k < |steps| && steps[k].Receive? && After(steps, k).run.state.phase.Reading?
    ensures
      var s, s' := After(steps, k), After(steps, k + 1);
      match steps[k].item
      case Message(m) => s'.run.history.log == s.run.history.log + [m] && s'.chunks == s.chunks
      case Piece(c) =>
        && s'.chunks == s.chunks + [c]
        && var whole := Reassembly.Emitted(map[], s.chunks + [c], |s.chunks|);
           s'.run.history.log == s.run.history.log + if whole.Some? then [whole.value] else []
  {
    hide Reassembly.Emitted, Reassembly.Delivered, Reassembly.Opened, Reassembly.Ingest;
    Reachable(steps, k);
    var s := After(steps, k);
    assert After(steps, k + 1) == Next(s, steps[k]);
    if steps[k].item.Piece? { ChunkIsRead(s, steps[k].item.chunk); }
  }

  // ----- every run is a run of the connection -----

  /** The connection's actions in the first `k` steps: a forward for each message, and for each chunk that completes. */
  ghost function Actions(steps: seq<Step>, k: nat): seq<ClientStream.Action>
    requires k <= |steps|
  {
    if k == 0 then []
    else
      var before, s := Actions(steps, k - 1), After(steps, k - 1);
      match steps[k - 1]
      case Other(a) => if a.Insert? then before else before + [a]
      case Receive(Message(m)) => before + [ClientStream.Insert(m)]
      case Receive(Piece(c)) =>
        var whole := Reassembly.Emitted(map[], s.chunks + [c], |s.chunks|);
        if whole.Some? && s.run.state.phase.Reading? then before + [ClientStream.Insert(whole.value)] else before
  }

  lemma {:induction false} ConnectionPrefix(
    a: seq<ClientStream.Action>, b: seq<ClientStream.Action>, k: nat)
    requires k <= |a|
    ensures ClientStream.After(a + b, k) == ClientStream.After(a, k)
  {
    hide ClientStream.Next;
    if k > 0 { ConnectionPrefix(a, b, k - 1); }
  }

  lemma OneMoreAction(before: seq<ClientStream.Action>, a: ClientStream.Action)
    ensures
      var r := ClientStream.After(before, |before|);
      ClientStream.After(before + [a], |before| + 1)
      == if ClientStream.Enabled(r.state, a) then Stepped(r, a) else r
  {
    hide ClientStream.Next;
    ConnectionPrefix(before, [a], |before|);
  }

  /**
   * Seen from its subscribers, a connection fed with chunks is one fed with the messages they complete: whatever
   * holds of all runs of the connection holds here.
   */
  lemma {:induction false} RunsAreConnectionRuns(steps: seq<Step>, k: nat)
    requires k <= |steps|
    ensures After(steps, k).run == ClientStream.After(Actions(steps, k), |Actions(steps, k)|)
  {
    hide ClientStream.Next, ClientStream.Inv, ClientStream.Observed;
    hide Reassembly.Emitted, Reassembly.Delivered, Reassembly.Opened, Reassembly.Ingest;
    if k > 0 {
      RunsAreConnectionRuns(steps, k - 1);
      Reachable(steps, k - 1);
      var before, s := Actions(steps, k - 1), After(steps, k - 1);
      match steps[k - 1] {
        case Other(a) => OneMoreAction(before, a);
        case Receive(Message(m)) => OneMoreAction(before, ClientStream.Insert(m));
        case Receive(Piece(c)) =>
          ChunkIsRead(s, c);
          var whole := Reassembly.Emitted(map[], s.chunks + [c], |s.chunks|);
          if whole.Some? { OneMoreAction(before, ClientStream.Insert(whole.value)); }
      }
    }
  }

  // ----- what a subscriber gets of a transfer -----

  /** The record only grows, and when a subscriber joined stays as it was. */
  ghost predicate Extends(s: State, t: State) {
    && s.chunks <= t.chunks && s.origins <= t.origins && s.run.history.log <= t.run.history.log
    && forall id :: id in s.run.history.joined ==>
         id in t.run.history.joined && t.run.history.joined[id] == s.run.history.joined[id]
  }

  lemma StepExtends(s: State, step: Step)
    requires Inv(s) && Enabled(s, step)
    ensures Extends(s, Next(s, step))
  {
    hide Reassembly.Delivered, Reassembly.Opened, Reassembly.Ingest, Accounted, ClientStream.Next;
    assert forall id :: id in s.run.history.joined ==> id in s.run.state.channels;
  }

  lemma {:induction false} RunExtends(steps: seq<Step>, j: nat, k: nat)
    requires j <= k <= |steps|
    ensures Extends(After(steps, j), After(steps, k))
  {
    hide Inv, Next;
    if j < k {
      RunExtends(steps, j, k - 1);
      Reachable(steps, k - 1);
      var s := After(steps, k - 1);
      if Enabled(s, steps[k - 1]) { StepExtends(s, steps[k - 1]); }
    }
  }

  predicate FromTransfer(s: State, p: nat, tid: int) {
    && p < |s.origins| && s.origins[p].FromChunk?
    && s.origins[p].k < |s.chunks| && s.chunks[s.origins[p].k].transfer == tid
  }

  /** The transfer was forwarded once, whole, as the `p`-th message. */
  ghost predicate ForwardedOnce(s: State, tid: int, whole: Protocol.Message, p: nat) {
    && p < |s.run.history.log| && s.run.history.log[p] == whole
    && forall q :: 0 <= q < |s.origins| ==> (FromTransfer(s, q, tid) <==> q == p)
  }

  /** A complete undisturbed transfer is forwarded exactly once. */
  lemma TransferIsForwardedOnce(
    s: State, tid: int, series: Reassembly.BulkSeries, payload: seq<seq<Item>>) returns (p: nat)
    requires Accounted(s)
    requires 0 < |payload| < Reassembly.U32_VALUES && Reassembly.Sends(s.chunks, tid, series, payload)
    requires Reassembly.Undisturbed(map[], s.chunks, tid)
    requires Reassembly.Arrived(s.chunks, tid, |s.chunks|) == Reassembly.Below(|payload|)
    ensures ForwardedOnce(s, tid, SeriesUpdated(series, Reassembly.Concatenated(payload)), p)
    ensures
      p < |s.origins| && s.origins[p].FromChunk? && s.origins[p].k < |s.chunks|
      && Reassembly.Arrived(s.chunks, tid, s.origins[p].k + 1) == Reassembly.Below(|payload|)
  {
    hide Reassembly.Emitted, Reassembly.Run, Reassembly.Undisturbed, Reassembly.Sends, Reassembly.Concatenated;
    var last := Reassembly.DeliveredExactlyOnce(map[], s.chunks, tid, series, payload);
    Reassembly.DeliveredOnLastMissingChunk(map[], s.chunks, tid, series, payload, last);
    assert FromChunk(last) in s.origins;
    p :| 0 <= p < |s.origins| && s.origins[p] == FromChunk(last);
    assert CameFrom(s, p, last);
    forall q | 0 <= q < |s.origins| ensures FromTransfer(s, q, tid) <==> q == p {
      if FromTransfer(s, q, tid) { assert CameFrom(s, q, s.origins[q].k); }
    }
  }

  /** A forward present in an earlier state completed its transfer by then. */
  lemma ForwardedByThen(s: State, t: State, tid: int, all: set<int>, p: nat)
    requires Reads(s) && s.chunks <= t.chunks && s.origins <= t.origins
    requires p < |s.origins| && FromTransfer(t, p, tid)
    requires Reassembly.Arrived(t.chunks, tid, t.origins[p].k + 1) == all
    ensures all <= Reassembly.Arrived(s.chunks, tid, |s.chunks|)
  {
    hide Reassembly.Emitted, Reassembly.Run, Reassembly.Arrived;
    var k := t.origins[p].k;
    assert s.origins[p] == t.origins[p];
    assert CameFrom(s, p, k);
    var rest := t.chunks[|s.chunks|..];
    assert t.chunks == s.chunks + rest;
    ArrivedPrefix(s.chunks, rest, tid, k + 1);
    Reassembly.ArrivedMonotone(s.chunks, k + 1, |s.chunks|, tid);
  }

  /**
   * In every interleaving, a complete undisturbed transfer reaches each live subscriber that was registered before
   * the transfer was complete: its whole message is forwarded exactly once, as message `p`, and that forward is one
   * element of what the subscriber received live, after its replay, in the order of the forwards.
   */
  lemma TransferReachesSubscribersOnce(
    steps: seq<Step>, j: nat, k: nat, id: int, tid: int, series: Reassembly.BulkSeries, payload: seq<seq<Item>>)
    returns (p: nat)
    requires j <= k <= |steps| && After(steps, k).run.state.phase.Reading?
    requires id in After(steps, j).run.history.joined && ClientStream.LiveSubscriber(After(steps, k).run, id)
    requires
      Reassembly.Arrived(After(steps, j).chunks, tid, |After(steps, j).chunks|) != Reassembly.Below(|payload|)
    requires
      0 < |payload| < Reassembly.U32_VALUES && Reassembly.Sends(After(steps, k).chunks, tid, series, payload)
    requires Reassembly.Undisturbed(map[], After(steps, k).chunks, tid)
    requires
      Reassembly.Arrived(After(steps, k).chunks, tid, |After(steps, k).chunks|) == Reassembly.Below(|payload|)
    ensures ForwardedOnce(After(steps, k), tid, SeriesUpdated(series, Reassembly.Concatenated(payload)), p)
    ensures ReceivedLive(After(steps, k).run, id, p)
  {
    hide After, Reassembly.Arrived, Reassembly.Sends, Reassembly.Undisturbed, Reassembly.Concatenated,
      ClientStream.Inv, ForwardedOnce;
    var s, t := After(steps, j), After(steps, k);
    Reachable(steps, j);
    Reachable(steps, k);
    RunExtends(steps, j, k);
    p := TransferIsForwardedOnce(t, tid, series, payload);
    if p < |s.origins| {
      IsFromTransfer(t, tid, SeriesUpdated(series, Reassembly.Concatenated(payload)), p);
      ForwardedByThen(s, t, tid, Reassembly.Below(|payload|), p);
      ArrivedSoFar(s, t, tid, series, payload);
      assert false;
    }
    ClientStream.RegisteredGotEverything(t.run.state, t.run.history, id);
    LaterForwardIsLive(t.run, id, p);
  }

  lemma IsFromTransfer(s: State, tid: int, whole: Protocol.Message, p: nat)
    requires ForwardedOnce(s, tid, whole, p) && p < |s.origins|
    ensures FromTransfer(s, p, tid)
  {}

  lemma ArrivedSoFar(s: State, t: State, tid: int, series: Reassembly.BulkSeries, payload: seq<seq<Item>>)
    requires s.chunks <= t.chunks
    requires Reassembly.Arrived(t.chunks, tid, |t.chunks|) == Reassembly.Below(|payload|)
    ensures Reassembly.Arrived(s.chunks, tid, |s.chunks|) <= Reassembly.Below(|payload|)
  {
    hide Reassembly.Arrived;
    var rest := t.chunks[|s.chunks|..];
    assert t.chunks == s.chunks + rest;
    ArrivedPrefix(s.chunks, rest, tid, |s.chunks|);
    Reassembly.ArrivedMonotone(t.chunks, |s.chunks|, |t.chunks|, tid);
  }

  /**
   * The subscriber's stream is its replay followed by the forwards from `start` on, one element each; forward `p`
   * is among these and not in the replay.
   */
  ghost predicate ReceivedLive(r: ClientStream.Run, id: int, p: nat) {
    && id in r.state.channels && id in r.history.joined && id in r.history.start
    && var received, joined, start := r.state.channels[id].received, r.history.joined[id], r.history.start[id];
       && ClientStream.GotEverythingSince(received, r.history.log, joined, start)
       && start <= joined <= p < |r.history.log|
       && |received| == |Replay(CacheOf(r.history.log[..joined]))| + |r.history.log| - start
       && received[|Replay(CacheOf(r.history.log[..joined]))| + p - start] == r.history.log[p]
  }

  lemma LaterForwardIsLive(r: ClientStream.Run, id: int, p: nat)
    requires id in r.state.channels && id in r.history.joined && id in r.history.start
    requires
      ClientStream.GotEverythingSince(
        r.state.channels[id].received, r.history.log, r.history.joined[id], r.history.start[id])
    requires r.history.joined[id] <= p < |r.history.log|
    ensures ReceivedLive(r, id, p)
  {
    hide Replay, CacheOf;
  }

  // ----- the reader's handling of one chunk -----

  /** Reassembles and, when a transfer is complete, forwards its message in the two halves of a forward. */
  method HandleChunk(reader: Reassembly.Reader, inner: ClientStream.ClientInner, c: Reassembly.Chunk)
    requires inner.phase.Reading?
    modifies reader, inner
    ensures reader.transfers == Reassembly.Ingest(old(reader.transfers), c)
    ensures
      var whole := Reassembly.Delivered(Reassembly.Opened(old(reader.transfers), c), c);
      if whole.None? then inner.View() == old(inner.View())
      else
        var inserted := ClientStream.Next(old(inner.View()), ClientStream.Insert(whole.value));
        inner.View() == ClientStream.Next(inserted, ClientStream.FanOut)
  {
    hide Reassembly.Ingest, Reassembly.Delivered, Reassembly.Opened;
    var parts := reader.IngestChunk(c);
    if parts.Some? {
      var message := reader.Assembled(parts.value.0, parts.value.1);
      inner.RememberLatest(message);
      inner.SendToSubscribers(message);
    }
  }
}
