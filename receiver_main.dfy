// The receiver test program (receiver/main.c): the pipeline and the two
// incoming sources it configures, the switch to PLAYING, and the loop that
// reads the bus until an error or the end of the stream.

module ReceiverMain {
  import opened Wrappers
  import opened Ports
  import opened GstGraph
  import opened ReceiverNames
  import opened Receiver

  /** The pipeline configuration main builds (receiver/main.c:15-18): NTP clock server and a 10 s latency. */
  const PipelineSettings: PipelineConfig := PipelineConfig("45.159.204.28", 123, 10000)

  /** The first incoming source (receiver/main.c:32-36): sessions 0 and 1, ports 5000 to 5005. */
  const FirstSource: ReceiverConfig := ReceiverConfig(0, 1, "192.168.1.44", PortsFrom(5000))

  /** The second incoming source (receiver/main.c:40-44): sessions 2 and 3, ports 6000 to 6005. */
  const SecondSource: ReceiverConfig := ReceiverConfig(2, 3, "127.0.0.1", PortsFrom(6000))

  /** The four rtpbin session ids main hands out. */
  function SessionIds(): seq<nat>
  {
    [FirstSource.videoId, FirstSource.audioId, SecondSource.videoId, SecondSource.audioId]
  }

  /** The pipeline latency main asks for is ten seconds, in nanoseconds. */
  lemma PipelineLatency()
    ensures LatencyNs(PipelineSettings.latency) == 10 * 1_000_000_000
  {
  }

  /**
   * The two sources never collide: each call gets two different ids, the four
   * ids are pairwise distinct, the two port blocks share no port, and the four
   * appsinks get four different names.
   */
  lemma SourcesDisjoint()
    ensures FirstSource.videoId != FirstSource.audioId && SecondSource.videoId != SecondSource.audioId
    ensures forall i, j :: 0 <= i < j < |SessionIds()| ==> SessionIds()[i] != SessionIds()[j]
    ensures forall i, j :: 0 <= i < NbPorts && 0 <= j < NbPorts ==> FirstSource.ports[i] != SecondSource.ports[j]
    ensures VideoSinkName(FirstSource.videoId) != VideoSinkName(SecondSource.videoId)
    ensures AudioSinkName(FirstSource.audioId) != AudioSinkName(SecondSource.audioId)
    ensures VideoSinkName(FirstSource.videoId) != AudioSinkName(SecondSource.audioId)
    ensures VideoSinkName(SecondSource.videoId) != AudioSinkName(FirstSource.audioId)
  {
    PortsFromDisjoint(5000, 6000);
    SinkNamesInjective(FirstSource.videoId, SecondSource.videoId);
    SinkNamesInjective(FirstSource.audioId, SecondSource.audioId);
    SinkNamesInjective(FirstSource.videoId, SecondSource.audioId);
    SinkNamesInjective(SecondSource.videoId, FirstSource.audioId);
  }

  /** What main writes for one message it takes off the bus. */
  datatype Report =
    | ErrorReported
    | EndOfStream
    | PipelineStateChanged(from: ElementState, to: ElementState)
    | Unexpected

  /** The message types main asks the bus for (receiver/main.c:69-70); the bus drops every other one. */
  predicate Wanted(kind: MessageType)
  {
    kind == StateChanged || kind == Error || kind == Eos
  }

  /** The message types that end the loop. */
  predicate Terminal(kind: MessageType)
  {
    kind == Error || kind == Eos
  }

  /**
   * The switch on one popped message (receiver/main.c:78-106): errors and end
   * of stream are reported, a state change only when the pipeline itself
   * changed, anything else is unexpected.
   */
  function Handle(m: Message): (r: Option<Report>)
    ensures r == Some(Unexpected) <==> !Wanted(m.kind)
    ensures r.Some? && r != Some(Unexpected) ==> (r.value.ErrorReported? <==> m.kind == Error)
    ensures r.None? <==> m.kind == StateChanged && !m.fromPipeline
  {
    match m.kind
    case Error => Some(ErrorReported)
    case Eos => Some(EndOfStream)
    case StateChanged => if m.fromPipeline then Some(PipelineStateChanged(m.oldState, m.newState)) else None
    case _ => Some(Unexpected)
  }

  /** The reports for the wanted messages of `bus`, in order. */
  function Reports(bus: seq<Message>): seq<Report>
  {
    if bus == [] then []
    else
      var rest := Reports(bus[1..]);
      if !Wanted(bus[0].kind) then rest
      else match Handle(bus[0])
        case Some(r) => [r] + rest
        case None => rest
  }

  /** Index of the first message that ends the loop, if any. */
  function FirstTerminal(bus: seq<Message>): (r: Option<nat>)
    ensures r.Some? ==> r.value < |bus| && Terminal(bus[r.value].kind)
    ensures r.Some? ==> forall j :: 0 <= j < r.value ==> !Terminal(bus[j].kind)
    ensures r.None? ==> forall j :: 0 <= j < |bus| ==> !Terminal(bus[j].kind)
  {
    if bus == [] then None
    else if Terminal(bus[0].kind) then Some(0)
    else match FirstTerminal(bus[1..])
      case Some(k) => Some(k + 1)
      case None => None
  }

  /** The messages the loop consumes from `bus`: up to and including the first error or end of stream. */
  function Consumed(bus: seq<Message>): (c: seq<Message>)
    ensures c <= bus
  {
    match FirstTerminal(bus)
    case Some(k) => bus[..k + 1]
    case None => bus
  }

  /** Since the bus only hands out wanted messages, main never reports an unexpected one. */
  lemma {:induction false} NoUnexpectedReport(bus: seq<Message>)
    ensures Unexpected !in Reports(bus)
  {
    if bus != [] {
      NoUnexpectedReport(bus[1..]);
    }
  }

  /** Reports of a concatenation are the concatenated reports. */
  lemma {:induction false} ReportsAppend(a: seq<Message>, b: seq<Message>)
    ensures Reports(a + b) == Reports(a) + Reports(b)
  {
    if a == [] {
      assert a + b == b;
    } else {
      assert (a + b)[1..] == a[1..] + b;
      ReportsAppend(a[1..], b);
    }
  }

  /** Only the last message consumed ends the loop, and it is the only error or end-of-stream report. */
  lemma {:induction false} ReportsBeforeTerminal(bus: seq<Message>)
    requires forall j :: 0 <= j < |bus| ==> !Terminal(bus[j].kind)
    ensures forall r :: r in Reports(bus) ==> r.PipelineStateChanged?
  {
    if bus != [] {
      ReportsBeforeTerminal(bus[1..]);
    }
  }

  /**
   * When the bus carries an error or end of stream, the last report is the
   * one for the first such message and every earlier report is a pipeline
   * state change.
   */
  lemma ConsumedReports(bus: seq<Message>, k: nat)
    requires FirstTerminal(bus) == Some(k)
    ensures |Reports(Consumed(bus))| > 0
    ensures Reports(Consumed(bus))[|Reports(Consumed(bus))| - 1] == (if bus[k].kind == Error then ErrorReported else EndOfStream)
    ensures forall i :: 0 <= i < |Reports(Consumed(bus))| - 1 ==> Reports(Consumed(bus))[i].PipelineStateChanged?
  {
    var c := Consumed(bus);
    assert c == bus[..k] + [bus[k]];
    ReportsAppend(bus[..k], [bus[k]]);
    ReportsBeforeTerminal(bus[..k]);
    assert [bus[k]][1..] == [];
  }

  /**
   * The bus loop of receiver/main.c:64-109. `bus` is the sequence of messages
   * posted on the pipeline's bus. The loop pops the wanted messages one at a
   * time and stops after the first error or end of stream; `terminated` is
   * false when the messages run out first, where the program would go on
   * waiting for the next message.
   */
  method BusLoop(bus: seq<Message>) returns (reports: seq<Report>, consumed: nat, terminated: bool)
    ensures consumed <= |bus| && bus[..consumed] == Consumed(bus)
    ensures terminated <==> FirstTerminal(bus).Some?
    ensures terminated ==> Terminal(bus[consumed - 1].kind)
    ensures reports == Reports(bus[..consumed])
  {
    reports := [];
    consumed := 0;
    var terminate := false;
    while !terminate && consumed < |bus|
      invariant consumed <= |bus|
      invariant reports == Reports(bus[..consumed])
      invariant forall j :: 0 <= j < consumed - 1 ==> !Terminal(bus[j].kind)
      invariant !terminate ==> forall j :: 0 <= j < consumed ==> !Terminal(bus[j].kind)
      invariant terminate ==> 0 < consumed && Terminal(bus[consumed - 1].kind)
      decreases |bus| - consumed, !terminate
    {
      var msg := bus[consumed];
      ReportsAppend(bus[..consumed], [msg]);
      assert bus[..consumed + 1] == bus[..consumed] + [msg];
      assert [msg][1..] == [];
      consumed := consumed + 1;
      if Wanted(msg.kind) {
        match msg.kind {
          case Error =>
            reports := reports + [ErrorReported];
            terminate := true;
          case Eos =>
            reports := reports + [EndOfStream];
            terminate := true;
          case StateChanged =>
            if msg.fromPipeline {
              reports := reports + [PipelineStateChanged(msg.oldState, msg.newState)];
            }
          case _ =>
            reports := reports + [Unexpected];
        }
      }
    }
    terminated := terminate;
    match FirstTerminal(bus) {
      case Some(k) =>
        if !terminated {
          assert false;
        }
        assert k == consumed - 1;
      case None =>
        assert !terminated;
    }
  }

  /** How main ends: failure to start, success after the bus loop, or still waiting on the bus. */
  datatype Exit = ExitFailure | ExitSuccess | Waiting

  /**
   * The part of main after the sources are added (receiver/main.c:48-111):
   * a refused switch to PLAYING ends the program with EXIT_FAILURE before the
   * bus is read; otherwise the bus loop runs and the program ends with
   * EXIT_SUCCESS once it stops. `playing` is the outcome of the state change.
   */
  method Play(pipe: Pipe, playing: bool, bus: seq<Message>) returns (exit: Exit, reports: seq<Report>)
    modifies pipe
    ensures unchanged(pipe`g, pipe`latency, pipe`calls)
    ensures pipe.state == (if playing then Playing else old(pipe.state))
    ensures !playing ==> exit == ExitFailure && reports == []
    ensures playing ==> exit == (if FirstTerminal(bus).Some? then ExitSuccess else Waiting)
    ensures playing ==> reports == Reports(Consumed(bus)) && Unexpected !in reports
  {
    var changed := pipe.SetPipelineState(Playing, playing);
    if !changed {
      return ExitFailure, [];
    }
    var consumed, terminated;
    reports, consumed, terminated := BusLoop(bus);
    NoUnexpectedReport(bus[..consumed]);
    exit := if terminated then ExitSuccess else Waiting;
  }
}
