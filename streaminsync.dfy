/**
 * streaminsync.c: the OBS source that feeds one endpoint of the shared
 * receiving pipeline. The endpoint toggles a session of the receiver on and
 * off (add_endpoint, remove_endpoint), the pipeline's bus watch schedules a
 * restart, and the appsink callbacks turn samples into OBS frames.
 */
module Streaminsync {
  import opened Wrappers
  import opened Ports
  import opened GstGraph
  import opened ReceiverNames
  import opened ReceiverSession
  import opened ReceiverTeardown
  import opened ReceiverSetup
  import opened Receiver
  import opened RestartPolicy
  import opened ObsMapping

  /** A "source_id" setting for which source_id * 2 + 1 is still a session id. */
  type SourceId = x: nat | x < 0x4000_0000

  /** The OBS settings the endpoint reads (streaminsync.c:171, 276, 363, 375, 378, 412, 440). */
  datatype ObsSettings = ObsSettings(
    sourceId: SourceId, clientIp: string, port: int,
    useTimestampsVideo: bool, useTimestampsAudio: bool, blockVideo: bool, blockAudio: bool)

  /** The endpoint's video and audio session ids (streaminsync.c:363-364). */
  function EndpointIds(sourceId: SourceId): (ids: (Id, Id))
  {
    (sourceId * 2, sourceId * 2 + 1)
  }

  /**
   * The video id is even and the audio id the next odd number, so each id
   * names its source and distinct sources never share an id.
   */
  lemma EndpointIdsDisjoint(a: SourceId, b: SourceId)
    ensures EndpointIds(a).0 != EndpointIds(a).1
    ensures EndpointIds(a).0 / 2 == a && EndpointIds(a).1 / 2 == a
    ensures EndpointIds(a).0 % 2 == 0 && EndpointIds(a).1 % 2 == 1
    ensures a != b ==> {EndpointIds(a).0, EndpointIds(a).1} !! {EndpointIds(b).0, EndpointIds(b).1}
  {
  }

  /** The receiver configuration add_endpoint builds from the settings (streaminsync.c:373-382). */
  function ConfigOf(settings: ObsSettings): ReceiverConfig
  {
    ReceiverConfig(EndpointIds(settings.sourceId).0, EndpointIds(settings.sourceId).1, settings.clientIp, PortsFrom(settings.port))
  }

  /** The loop of streaminsync.c:379-382: config->ports[ii] = port + ii. */
  method FillPorts(port: int) returns (ports: PortBlock)
    ensures ports == PortsFrom(port)
  {
    var a := new int[NbPorts];
    for ii := 0 to NbPorts
      invariant forall j :: 0 <= j < ii ==> a[j] == port + j
    {
      a[ii] := port + ii;
    }
    ports := a[..];
  }

  /** The restart policy of this bus watch: the flags are commented out, so both restart, after 2000 ms. */
  const SourcePolicy: Policy := Policy(true, true, 2000)

  /** global_data_t, without its thread, loop and lock: the shared pipeline and its pending restart timer. */
  class GlobalData {
    var pipe: Pipe?
    var timeout: Option<Timer>

    constructor (pipe: Pipe?)
      ensures this.pipe == pipe && timeout == None
    {
      this.pipe := pipe;
      timeout := None;
    }

    /**
     * bus_callback (streaminsync.c:106-154): ERROR and EOS set the pipeline to
     * NULL and schedule a restart unless one is pending; WARNING and the rest
     * change nothing.
     */
    method BusCallback(msg: Message)
      requires pipe != null
      modifies this, pipe
      ensures pipe == old(pipe) && unchanged(pipe`g, pipe`latency, pipe`calls)
      ensures pipe.state == if Ends(msg.kind) then Null else old(pipe.state)
      ensures timeout == After(old(timeout), React(SourcePolicy, msg.kind, old(timeout)))
    {
      match msg.kind {
        case Error =>
          Restart(msg.kind);
        case Eos =>
          Restart(msg.kind);
        case _ =>
      }
    }

    /** The ERROR/EOS branch, shared by the fallthrough. */
    method Restart(kind: MessageType)
      requires pipe != null && Ends(kind)
      modifies this, pipe
      ensures pipe == old(pipe) && unchanged(pipe`g, pipe`latency, pipe`calls)
      ensures pipe.state == Null
      ensures timeout == After(old(timeout), React(SourcePolicy, kind, old(timeout)))
    {
      var _ := pipe.SetPipelineState(Null, true);
      if timeout == None {
        timeout := Some(Timer(SourcePolicy.intervalMs));
      }
    }

    /** timeout_destroy (streaminsync.c:56-63): the fired timer is destroyed and the field cleared. */
    method TimeoutDestroy()
      requires timeout.Some?
      modifies this
      ensures pipe == old(pipe) && timeout == None
    {
      timeout := None;
    }
  }

  /**
   * add_incoming_source returns a session: rtpbin is there, every element is
   * made, both chains link, and the two ids are distinct and free on rtpbin.
   */
  ghost predicate Startable(g: Graph, config: ReceiverConfig, made: seq<bool>, videoNegotiable: nat, audioNegotiable: nat)
  {
    && |made| == 16 && config.videoId != config.audioId
    && g.ChildNamed("rtpbin").Some? && AllMade(made) && videoNegotiable >= 4 && audioNegotiable >= 4
    && SlotsFree(g, g.ChildNamed("rtpbin").value, config.videoId, config.audioId)
  }

  /** The session `data` of `config` is installed in `g` on top of `g0`, its elements set to PLAYING. */
  ghost predicate Started(g0: Graph, g: Graph, config: ReceiverConfig, data: SourceData)
    reads data, data.video, data.audio
  {
    && g0.ChildNamed("rtpbin").Some?
    && data.config == config && data.Wired()
    && data.video.source == None && data.audio.source == None
    && Installed(g0, g, g0.ChildNamed("rtpbin").value, data.AsSession(), data.video, data.audio)
    && g.states == AllSet(g0.states, data.elems.SourceElems(), Playing)
  }

  /**
   * The part of add_endpoint after the configuration is built
   * (streaminsync.c:384-450): add the session, set it to PLAYING, then the
   * two appsink blocks. Both appsinks are found and linked, so neither is
   * removed and `started` (the full-success path) holds.
   */
  method StartSession(pipe: Pipe, config: ReceiverConfig, bins: SinkBins, made: seq<bool>,
                      videoNegotiable: nat, audioNegotiable: nat) returns (data: SourceData, started: bool)
    requires pipe.Valid() && Startable(pipe.g, config, made, videoNegotiable, audioNegotiable)
    modifies pipe
    ensures pipe.Valid() && unchanged(pipe`latency, pipe`state)
    ensures fresh(data) && data.pipe == pipe && started
    ensures Started(old(pipe.g), pipe.g, config, data)
    ensures pipe.calls == old(pipe.calls) + StateCalls(data.elems.SourceElems(), Playing)
  {
    data := AddAndPlay(pipe, config, bins, made, videoNegotiable, audioNegotiable);
    started := CheckSinks(pipe, data.elems, config);
  }

  /**
   * The part of add_endpoint after the configuration is built, with the NULL
   * check in front of set_source_to: a session that does not build changes
   * no state and logs nothing; one that builds is started as by StartSession.
   */
  method TryStartSession(pipe: Pipe, config: ReceiverConfig, bins: SinkBins, made: seq<bool>,
                         videoNegotiable: nat, audioNegotiable: nat) returns (data: SourceData?, started: bool)
    requires pipe.Valid() && |made| == 16 && config.videoId != config.audioId
    requires pipe.g.ChildNamed("rtpbin").Some? ==>
               SlotsFree(pipe.g, pipe.g.ChildNamed("rtpbin").value, config.videoId, config.audioId)
    modifies pipe
    ensures pipe.Valid() && unchanged(pipe`latency, pipe`state)
    ensures data != null <==> Startable(old(pipe.g), config, made, videoNegotiable, audioNegotiable)
    ensures started <==> data != null
    ensures data == null ==> unchanged(pipe`calls) && pipe.g.states == old(pipe.g.states)
    ensures data != null ==>
      && fresh(data) && data.pipe == pipe && Started(old(pipe.g), pipe.g, config, data)
      && pipe.calls == old(pipe.calls) + StateCalls(data.elems.SourceElems(), Playing)
  {
    ghost var g0 := pipe.g;
    data := AddIncomingSource(pipe, config, bins, made, videoNegotiable, audioNegotiable);
    started := false;
    if data != null {
      ghost var g1 := pipe.g;
      SetSourceTo(data, Playing);
      StatesKeepSinks(g1, pipe.g, data.elems, config);
      StatesKeepInstalled(g0, g1, pipe.g, g0.ChildNamed("rtpbin").value, data.AsSession(), data.video, data.audio);
      started := CheckSinks(pipe, data.elems, config);
    }
  }

  /** add_incoming_source followed by set_source_to(PLAYING) (streaminsync.c:384-385). */
  method AddAndPlay(pipe: Pipe, config: ReceiverConfig, bins: SinkBins, made: seq<bool>,
                    videoNegotiable: nat, audioNegotiable: nat) returns (data: SourceData)
    requires pipe.Valid() && Startable(pipe.g, config, made, videoNegotiable, audioNegotiable)
    modifies pipe
    ensures pipe.Valid() && unchanged(pipe`latency, pipe`state)
    ensures fresh(data) && data.pipe == pipe
    ensures Started(old(pipe.g), pipe.g, config, data) && SinksReady(pipe.g, data.elems, config)
    ensures pipe.calls == old(pipe.calls) + StateCalls(data.elems.SourceElems(), Playing)
  {
    ghost var g0 := pipe.g;
    var d := AddIncomingSource(pipe, config, bins, made, videoNegotiable, audioNegotiable);
    data := d;
    ghost var g1 := pipe.g;
    SetSourceTo(data, Playing);
    StatesKeepSinks(g1, pipe.g, data.elems, config);
    StatesKeepInstalled(g0, g1, pipe.g, g0.ChildNamed("rtpbin").value, data.AsSession(), data.video, data.audio);
  }

  /**
   * add_incoming_source returns NULL when one element cannot be made, and
   * add_endpoint as written then hands that NULL to set_source_to
   * (streaminsync.c:384-385), which dereferences it. Such a session is not
   * Startable, so AddEndpoint's requires excludes this input, which the
   * program reaches.
   */
  lemma NullSessionExcluded(g: Graph, config: ReceiverConfig, videoNegotiable: nat, audioNegotiable: nat)
    ensures var made := [false] + seq(15, _ => true);
      |made| == 16 && !AllMade(made) && !Startable(g, config, made, videoNegotiable, audioNegotiable)
  {
    var made := [false] + seq(15, _ => true);
    assert !made[0];
  }

  /**
   * The two appsink blocks of add_endpoint (streaminsync.c:396-450) on a
   * session whose appsinks are found and linked: nothing is removed and both
   * blocks complete.
   */
  method CheckSinks(pipe: Pipe, e: Elements, config: ReceiverConfig) returns (started: bool)
    requires pipe.Valid() && SinksReady(pipe.g, e, config)
    modifies pipe
    ensures pipe.Valid() && unchanged(pipe`g, pipe`latency, pipe`state, pipe`calls) && started
  {
    var videoFound := DropUnlinkedSink(pipe, VideoSinkName(config.videoId));
    started := false;
    if videoFound {
      var audioFound := DropUnlinkedSink(pipe, AudioSinkName(config.audioId));
      started := audioFound;
    }
  }

  /** Setting element states keeps the appsinks found by name and linked. */
  lemma StatesKeepSinks(g1: Graph, g2: Graph, e: Elements, config: ReceiverConfig)
    requires g1.Valid() && g2 == g1.(states := g2.states) && SinksReady(g1, e, config)
    ensures g2.Valid() && SinksReady(g2, e, config)
  {
    assert g2.HasChildNamed(e.vsink, VideoSinkName(config.videoId));
    assert g2.HasChildNamed(e.asink, AudioSinkName(config.audioId));
    assert g1.IsLinked(Pad(e.vsink, "sink")) && g1.IsLinked(Pad(e.asink, "sink"));
  }

  /** Setting element states keeps an installed session installed. */
  lemma StatesKeepInstalled(g0: Graph, g1: Graph, g2: Graph, r: ElementId, s: Session, vt: object, at: object)
    requires Installed(g0, g1, r, s, vt, at) && g2 == g1.(states := g2.states)
    ensures Installed(g0, g2, r, s, vt, at)
  {
  }

  /**
   * One appsink block of add_endpoint (streaminsync.c:397-420, 424-449): look
   * the appsink up by name and, when found, remove it from the bin if its sink
   * pad has no peer. `found` is false when the lookup returned NULL.
   */
  method DropUnlinkedSink(pipe: Pipe, name: string) returns (found: bool)
    requires pipe.Valid()
    modifies pipe
    ensures pipe.Valid() && unchanged(pipe`latency, pipe`state)
    ensures found <==> old(pipe.g).ChildNamed(name).Some?
    ensures var sink := old(pipe.g).ChildNamed(name);
      if found && !old(pipe.g).IsLinked(Pad(sink.value, "sink"))
      then pipe.g == old(pipe.g).Removed(sink.value) && pipe.calls == old(pipe.calls) + [ElementRemoved(sink.value)]
      else pipe.g == old(pipe.g) && pipe.calls == old(pipe.calls)
  {
    var sink := pipe.GetByName(name);
    found := sink.Some?;
    if found && !pipe.g.IsLinked(Pad(sink.value, "sink")) {
      pipe.Remove(sink.value);
    }
  }

  /** What video_new_sample reads from the sample's caps. */
  datatype VideoInfo = VideoInfo(format: GstVideoFormat, range: GstColorRange, matrix: GstColorMatrix, width: nat, height: nat)

  /**
   * The obs_source_frame handed to OBS, with the range and colour space
   * passed to video_format_get_parameters.
   */
  datatype VideoFrame = VideoFrame(
    timestamp: int, width: nat, height: nat, format: ObsVideoFormat,
    fullRange: bool, range: ObsRange, colorspace: ObsColorspace)

  /** What audio_new_sample reads from the sample's caps: format, channels, rate and bytes per frame. */
  datatype AudioInfo = AudioInfo(format: GstAudioFormat, channels: int, rate: nat, bpf: nat)

  /**
   * The obs_source_audio handed to OBS. The timestamp is the buffer PTS when
   * it is used, and None where the source computes it in floating point.
   */
  datatype AudioData = AudioData(frames: nat, samplesPerSec: nat, speakers: Speakers, format: ObsAudioFormat, timestamp: Option<int>)

  /** data_t: one OBS source and the session it holds, if any. */
  class Endpoint {
    var sourceData: SourceData?
    var settings: ObsSettings
    var frameCount: int
    var audioCount: int
    const parent: GlobalData

    constructor (parent: GlobalData, settings: ObsSettings)
      ensures this.parent == parent && this.settings == settings
      ensures sourceData == null && frameCount == 0 && audioCount == 0
    {
      this.parent := parent;
      this.settings := settings;
      sourceData := null;
      frameCount := 0;
      audioCount := 0;
    }

    /**
     * add_endpoint (streaminsync.c:361-454). With a session already held it
     * changes nothing. Otherwise it adds the session of its two ids, sets its
     * elements to PLAYING, finds both appsinks by name and removes one whose
     * sink pad has no peer, then resets both counters. set_source_to runs
     * before the NULL check, so the session must build.
     */
    method AddEndpoint(bins: SinkBins, made: seq<bool>, videoNegotiable: nat, audioNegotiable: nat)
      requires parent.pipe != null && parent.pipe.Valid() && |made| == 16
      requires sourceData == null ==> Startable(parent.pipe.g, ConfigOf(settings), made, videoNegotiable, audioNegotiable)
      modifies this, parent.pipe
      ensures parent.pipe == old(parent.pipe) && parent.pipe.Valid() && settings == old(settings)
      ensures unchanged(parent.pipe`latency, parent.pipe`state)
      ensures old(sourceData) != null ==>
        && sourceData == old(sourceData) && unchanged(parent.pipe`g, parent.pipe`calls)
        && frameCount == old(frameCount) && audioCount == old(audioCount)
      ensures old(sourceData) == null ==>
        && sourceData != null && fresh(sourceData) && sourceData.pipe == parent.pipe
        && Started(old(parent.pipe.g), parent.pipe.g, ConfigOf(settings), sourceData)
        && parent.pipe.calls == old(parent.pipe.calls) + StateCalls(sourceData.elems.SourceElems(), Playing)
        && frameCount == 0 && audioCount == 0
    {
      if sourceData != null {
        return;
      }
      Attach(bins, made, videoNegotiable, audioNegotiable);
    }

    /** add_endpoint past its guard (streaminsync.c:372-453). */
    method Attach(bins: SinkBins, made: seq<bool>, videoNegotiable: nat, audioNegotiable: nat)
      requires parent.pipe != null && parent.pipe.Valid()
      requires Startable(parent.pipe.g, ConfigOf(settings), made, videoNegotiable, audioNegotiable)
      modifies this, parent.pipe
      ensures parent.pipe == old(parent.pipe) && parent.pipe.Valid() && settings == old(settings)
      ensures unchanged(parent.pipe`latency, parent.pipe`state)
      ensures sourceData != null && fresh(sourceData) && sourceData.pipe == parent.pipe
      ensures Started(old(parent.pipe.g), parent.pipe.g, ConfigOf(settings), sourceData)
      ensures parent.pipe.calls == old(parent.pipe.calls) + StateCalls(sourceData.elems.SourceElems(), Playing)
      ensures frameCount == 0 && audioCount == 0
    {
      var videoId := EndpointIds(settings.sourceId).0;
      var audioId := EndpointIds(settings.sourceId).1;
      var ports := FillPorts(settings.port);
      var config := ReceiverConfig(videoId, audioId, settings.clientIp, ports);
      var data, started := StartSession(parent.pipe, config, bins, made, videoNegotiable, audioNegotiable);
      sourceData := data;
      if started {
        frameCount := 0;
        audioCount := 0;
      }
    }

    /**
     * add_endpoint with the NULL check of streaminsync.c:387 moved in front
     * of set_source_to: a session that does not build leaves source_data
     * NULL, sets nothing to PLAYING and keeps the counters; one that builds
     * is started as by Attach.
     */
    method AddEndpointChecked(bins: SinkBins, made: seq<bool>, videoNegotiable: nat, audioNegotiable: nat)
      requires parent.pipe != null && parent.pipe.Valid() && |made| == 16
      requires sourceData == null && parent.pipe.g.ChildNamed("rtpbin").Some? ==>
        SlotsFree(parent.pipe.g, parent.pipe.g.ChildNamed("rtpbin").value, EndpointIds(settings.sourceId).0, EndpointIds(settings.sourceId).1)
      modifies this, parent.pipe
      ensures parent.pipe == old(parent.pipe) && parent.pipe.Valid() && settings == old(settings)
      ensures unchanged(parent.pipe`latency, parent.pipe`state)
      ensures old(sourceData) != null ==>
        && sourceData == old(sourceData) && unchanged(parent.pipe`g, parent.pipe`calls)
        && frameCount == old(frameCount) && audioCount == old(audioCount)
      ensures old(sourceData) == null ==>
        (sourceData != null <==> Startable(old(parent.pipe.g), ConfigOf(settings), made, videoNegotiable, audioNegotiable))
      ensures old(sourceData) == null && sourceData == null ==>
        && unchanged(parent.pipe`calls) && parent.pipe.g.states == old(parent.pipe.g.states)
        && frameCount == old(frameCount) && audioCount == old(audioCount)
      ensures old(sourceData) == null && sourceData != null ==>
        && fresh(sourceData) && sourceData.pipe == parent.pipe
        && Started(old(parent.pipe.g), parent.pipe.g, ConfigOf(settings), sourceData)
        && parent.pipe.calls == old(parent.pipe.calls) + StateCalls(sourceData.elems.SourceElems(), Playing)
        && frameCount == 0 && audioCount == 0
    {
      if sourceData != null {
        return;
      }
      EndpointIdsDisjoint(settings.sourceId, settings.sourceId);
      var videoId := EndpointIds(settings.sourceId).0;
      var audioId := EndpointIds(settings.sourceId).1;
      var ports := FillPorts(settings.port);
      var config := ReceiverConfig(videoId, audioId, settings.clientIp, ports);
      var data, started := TryStartSession(parent.pipe, config, bins, made, videoNegotiable, audioNegotiable);
      sourceData := data;
      if started {
        frameCount := 0;
        audioCount := 0;
      }
    }

    /**
     * remove_endpoint (streaminsync.c:456-469): without a session nothing
     * changes; otherwise the session is torn down and forgotten.
     */
    method RemoveEndpoint()
      requires sourceData != null ==> sourceData.pipe.Valid() && sourceData.Wired()
      modifies this, if sourceData != null then {sourceData.pipe} else {}
      ensures settings == old(settings) && frameCount == old(frameCount) && audioCount == old(audioCount)
      ensures sourceData == null
      ensures old(sourceData) != null ==>
        var d := old(sourceData);
        && d.pipe.Valid() && unchanged(d.pipe`latency, d.pipe`state)
        && d.pipe.g == Teardown(old(d.pipe.g), old(d.pipe.g).ChildNamed("rtpbin"), d.AsSession(), d.video.source, d.audio.source)
        && d.pipe.calls == old(d.pipe.calls) + TeardownCalls(old(d.pipe.g).ChildNamed("rtpbin"), d.AsSession(), d.video.source, d.audio.source)
    {
      if sourceData == null {
        return;
      }
      RemoveIncomingSource(sourceData);
      sourceData := null;
    }

    /**
     * video_new_sample (streaminsync.c:156-255): the frame's timestamp is the
     * buffer PTS when "use_timestamps_video" is set, otherwise the frame
     * counter, which is then incremented; format, range and colour space
     * follow the mapping tables.
     */
    method VideoNewSample(info: VideoInfo, pts: int) returns (frame: VideoFrame)
      modifies this
      ensures unchanged(this`sourceData, this`settings, this`audioCount)
      ensures frame.timestamp == (if settings.useTimestampsVideo then pts else old(frameCount))
      ensures frameCount == (if settings.useTimestampsVideo then old(frameCount) else old(frameCount) + 1)
      ensures frame.width == info.width && frame.height == info.height
      ensures frame.format == VideoFormat(info.format) && frame.colorspace == Colorspace(info.matrix)
      ensures (frame.range, frame.fullRange) == ColorRange(info.range)
    {
      var timestamp: int;
      if settings.useTimestampsVideo {
        timestamp := pts;
      } else {
        timestamp := frameCount;
        frameCount := frameCount + 1;
      }
      var range := ColorRange(info.range);
      frame := VideoFrame(timestamp, info.width, info.height, VideoFormat(info.format), range.1, range.0, Colorspace(info.matrix));
    }

    /**
     * audio_new_sample (streaminsync.c:257-338): whole frames in the buffer,
     * the rate, the layout and sample format from the tables; without
     * "use_timestamps_audio" the audio counter is incremented.
     */
    method AudioNewSample(info: AudioInfo, size: nat, pts: int) returns (audio: AudioData)
      requires info.bpf > 0
      modifies this
      ensures unchanged(this`sourceData, this`settings, this`frameCount)
      ensures audio.frames == AudioFrames(size, info.bpf) && audio.samplesPerSec == info.rate
      ensures audio.speakers == SpeakerLayout(info.channels) && audio.format == AudioFormat(info.format)
      ensures audio.timestamp == (if settings.useTimestampsAudio then Some(pts) else None)
      ensures audioCount == (if settings.useTimestampsAudio then old(audioCount) else old(audioCount) + 1)
    {
      var timestamp: Option<int>;
      if settings.useTimestampsAudio {
        timestamp := Some(pts);
      } else {
        timestamp := None;
        audioCount := audioCount + 1;
      }
      audio := AudioData(AudioFrames(size, info.bpf), info.rate, SpeakerLayout(info.channels), AudioFormat(info.format), timestamp);
    }
  }
}
