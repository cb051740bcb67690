/**
 * receiver/receiver.c: building the receiving pipeline, adding an incoming
 * session (sixteen elements, six rtpbin request pads, two "pad-added"
 * handlers), the "pad-added" callback, and removing a session again.
 */
module Receiver {
  import opened Wrappers
  import opened DecimalText
  import opened Ports
  import opened GstGraph
  import opened ReceiverNames
  import opened ReceiverSession
  import opened ReceiverTeardown
  import opened ReceiverSetup

  /** A C gint. */
  type Gint = x: int | -0x8000_0000 <= x < 0x8000_0000

  /** A session id: a gint used as an unsigned rtpbin session number. */
  type Id = x: nat | x < 0x8000_0000

  /** pipeline_config_t (receiver.h:14-19). */
  datatype PipelineConfig = PipelineConfig(clockIp: string, clockPort: Gint, latency: Gint)

  /** receiver_config_t (receiver.h:21-34): the two session ids, the RTCP destination and six ports. */
  datatype ReceiverConfig = ReceiverConfig(videoId: Id, audioId: Id, dest: string, ports: PortBlock)

  /** The factory names held by vsink_bin and asink_bin, which are defined outside receiver.c. */
  datatype SinkBins = SinkBins(video: string, audio: string)

  const GstMsecond: nat := 1_000_000

  /**
   * config->latency * GST_MSECOND: a signed 64-bit product (it cannot
   * overflow for a gint) handed to an unsigned 64-bit GstClockTime.
   */
  function LatencyNs(ms: Gint): (ns: nat)
    ensures ns < ULongModulus
    ensures 0 <= ms ==> ns == ms * GstMsecond
    ensures ms < 0 ==> ns == ULongModulus + ms * GstMsecond
  {
    (ms * GstMsecond) % ULongModulus
  }

  /** The factory of the element holding ports[i]: udpsrc for the ports it receives on, udpsink for the one it sends to. */
  function PortFactory(d: Direction): string
  {
    if d == Receive then "udpsrc" else "udpsink"
  }

  /**
   * create_streaminsync_pipeline (receiver.c:76-100): a pipeline with the
   * configured latency holding one child, "rtpbin". `rtpbinMade` is whether
   * the rtpbin factory produced an element.
   */
  method CreateStreaminsyncPipeline(config: PipelineConfig, rtpbinMade: bool) returns (pipe: Pipe)
    ensures fresh(pipe) && pipe.Valid() && pipe.calls == []
    ensures pipe.latency == LatencyNs(config.latency) && pipe.state == Null
    ensures pipe.g.links == {} && pipe.g.requested == {} && pipe.g.handlers == map[]
    ensures rtpbinMade ==> pipe.g.elements == {0} && pipe.g.factory == map[0 := "rtpbin"] && pipe.g.ChildNamed("rtpbin") == Some(0)
    ensures !rtpbinMade ==> pipe.g.elements == {} && pipe.g.ChildNamed("rtpbin") == None
  {
    pipe := new Pipe(LatencyNs(config.latency));
    var rtpbin := pipe.Make("rtpbin", Some("rtpbin"), rtpbinMade);
    if rtpbin.Some? {
      var added := pipe.Add(rtpbin.value);
      assert pipe.g.HasChildNamed(0, "rtpbin");
    }
  }

  /** Every factory call of a session produced an element. */
  predicate AllMade(made: seq<bool>)
  {
    forall i :: 0 <= i < |made| ==> made[i]
  }

  /** A udpsrc or udpsink on `port`, sending to `host` when one is given (receiver.c:117-128, 142-150, 152-162, 176-183). */
  method MakeUdp(pipe: Pipe, factory: string, port: int, host: Option<string>, made: bool) returns (e: Option<ElementId>)
    requires pipe.Valid()
    modifies pipe
    ensures pipe.Valid() && unchanged(pipe`latency, pipe`state, pipe`calls)
    ensures SameTopology(old(pipe.g), pipe.g) && e.Some? == made
    ensures !made ==> pipe.g == old(pipe.g)
    ensures made ==>
      var b := old(pipe.g.nextId);
      && e == Some(b) && pipe.g.nextId == b + 1
      && pipe.g.factory == old(pipe.g.factory)[b := factory] && pipe.g.names == old(pipe.g.names)
      && pipe.g.ports == old(pipe.g.ports)[b := port]
      && pipe.g.hosts == if host.Some? then old(pipe.g.hosts)[b := host.value] else old(pipe.g.hosts)
  {
    e := pipe.Make(factory, None, made);
    pipe.SetPort(e, port);
    if host.Some? {
      pipe.SetHost(e, host.value);
    }
  }

  /** Four unnamed elements made one after the other from the factories of `chain`. */
  method MakeChain(pipe: Pipe, chain: seq<string>, made: seq<bool>) returns (es: seq<Option<ElementId>>)
    requires pipe.Valid() && |chain| == 4 && |made| == 4
    modifies pipe
    ensures pipe.Valid() && unchanged(pipe`latency, pipe`state, pipe`calls)
    ensures SameTopology(old(pipe.g), pipe.g) && old(pipe.g.nextId) <= pipe.g.nextId
    ensures pipe.g.names == old(pipe.g.names) && pipe.g.ports == old(pipe.g.ports) && pipe.g.hosts == old(pipe.g.hosts)
    ensures |es| == 4 && forall i :: 0 <= i < 4 ==> (es[i].Some? <==> made[i])
    ensures AllMade(made) ==>
      var b := old(pipe.g.nextId);
      && es == [Some(b), Some(b + 1), Some(b + 2), Some(b + 3)]
      && pipe.g.nextId == b + 4
      && pipe.g.factory == old(pipe.g.factory)[b := chain[0]][b + 1 := chain[1]][b + 2 := chain[2]][b + 3 := chain[3]]
  {
    var first := pipe.Make(chain[0], None, made[0]);
    var second := pipe.Make(chain[1], None, made[1]);
    var third := pipe.Make(chain[2], None, made[2]);
    var fourth := pipe.Make(chain[3], None, made[3]);
    es := [first, second, third, fourth];
  }

  /**
   * The decoding elements of one media kind (receiver.c:130-140 for video,
   * 164-174 for audio): the four elements of `chain`, then the sink made from
   * `sinkFactory` and named `sinkName`.
   */
  method MakeDecoder(pipe: Pipe, chain: seq<string>, sinkFactory: string, sinkName: string, made: seq<bool>)
    returns (es: seq<Option<ElementId>>)
    requires pipe.Valid() && |chain| == 4 && |made| == 5
    modifies pipe
    ensures pipe.Valid() && unchanged(pipe`latency, pipe`state, pipe`calls)
    ensures SameTopology(old(pipe.g), pipe.g) && old(pipe.g.nextId) <= pipe.g.nextId
    ensures pipe.g.ports == old(pipe.g.ports) && pipe.g.hosts == old(pipe.g.hosts)
    ensures |es| == 5 && forall i :: 0 <= i < 5 ==> (es[i].Some? <==> made[i])
    ensures AllMade(made) ==>
      var b := old(pipe.g.nextId);
      && es == [Some(b), Some(b + 1), Some(b + 2), Some(b + 3), Some(b + 4)]
      && pipe.g.nextId == b + 5
      && pipe.g.factory == old(pipe.g.factory)[b := chain[0]][b + 1 := chain[1]][b + 2 := chain[2]][b + 3 := chain[3]]
                             [b + 4 := sinkFactory]
      && pipe.g.names == old(pipe.g.names)[b + 4 := sinkName]
  {
    var elements := MakeChain(pipe, chain, made[..4]);
    var sink := pipe.Make(sinkFactory, Some(sinkName), made[4]);
    es := elements + [sink];
  }

  /** The factories of one media kind's eight elements, stored from id `b` on. */
  function MediaFactories(f: map<ElementId, string>, b: nat, chain: seq<string>, sinkFactory: string): map<ElementId, string>
    requires |chain| == 4
  {
    f[b := "udpsrc"][b + 1 := chain[0]][b + 2 := chain[1]][b + 3 := chain[2]][b + 4 := chain[3]]
     [b + 5 := sinkFactory][b + 6 := "udpsrc"][b + 7 := "udpsink"]
  }

  /** The three ports of one media kind, on its RTP udpsrc, RTCP udpsrc and RTCP udpsink. */
  function MediaPorts(p: map<ElementId, int>, b: nat, ports: seq<int>): map<ElementId, int>
    requires |ports| == 3
  {
    p[b := ports[0]][b + 6 := ports[1]][b + 7 := ports[2]]
  }

  /**
   * The eight elements of one media kind in creation order (receiver.c:117-150
   * for video, 152-183 for audio): the RTP udpsrc on ports[0], the decoding
   * elements and the sink, the RTCP udpsrc on ports[1], and the RTCP udpsink
   * sending to `dest` on ports[2]. `made[i]` is whether the i-th factory call
   * produced an element; property setters on a NULL element do nothing.
   */
  method MakeMedia(pipe: Pipe, chain: seq<string>, sinkFactory: string, sinkName: string,
                   ports: seq<int>, dest: string, made: seq<bool>)
    returns (es: seq<Option<ElementId>>)
    requires pipe.Valid() && |chain| == 4 && |ports| == 3 && |made| == 8
    modifies pipe
    ensures pipe.Valid() && unchanged(pipe`latency, pipe`state, pipe`calls)
    ensures SameTopology(old(pipe.g), pipe.g) && old(pipe.g.nextId) <= pipe.g.nextId
    ensures |es| == 8 && forall i :: 0 <= i < 8 ==> (es[i].Some? <==> made[i])
    ensures AllMade(made) ==>
      var b := old(pipe.g.nextId);
      && es == [Some(b), Some(b + 1), Some(b + 2), Some(b + 3), Some(b + 4), Some(b + 5), Some(b + 6), Some(b + 7)]
      && pipe.g.nextId == b + 8
      && pipe.g.factory == MediaFactories(old(pipe.g.factory), b, chain, sinkFactory)
      && pipe.g.names == old(pipe.g.names)[b + 5 := sinkName]
      && pipe.g.ports == MediaPorts(old(pipe.g.ports), b, ports)
      && pipe.g.hosts == old(pipe.g.hosts)[b + 7 := dest]
  {
    var rtp := MakeRtp(pipe, chain, sinkFactory, sinkName, ports[0], made[..6]);
    var rtcp := MakeRtcp(pipe, ports[1], ports[2], dest, made[6], made[7]);
    es := rtp + rtcp;
    assert AllMade(made) ==> AllMade(made[..6]) by {
      if AllMade(made) {
        forall i | 0 <= i < 6
          ensures made[..6][i]
        {
          assert made[..6][i] == made[i];
        }
      }
    }
  }

  /**
   * The RTP half of one media kind (receiver.c:117-140 for video, 152-174 for
   * audio): the udpsrc on `port`, then the decoding elements and the sink.
   */
  method MakeRtp(pipe: Pipe, chain: seq<string>, sinkFactory: string, sinkName: string, port: int, made: seq<bool>)
    returns (es: seq<Option<ElementId>>)
    requires pipe.Valid() && |chain| == 4 && |made| == 6
    modifies pipe
    ensures pipe.Valid() && unchanged(pipe`latency, pipe`state, pipe`calls)
    ensures SameTopology(old(pipe.g), pipe.g) && old(pipe.g.nextId) <= pipe.g.nextId
    ensures pipe.g.hosts == old(pipe.g.hosts)
    ensures |es| == 6 && forall i :: 0 <= i < 6 ==> (es[i].Some? <==> made[i])
    ensures AllMade(made) ==>
      var b := old(pipe.g.nextId);
      && es == [Some(b), Some(b + 1), Some(b + 2), Some(b + 3), Some(b + 4), Some(b + 5)]
      && pipe.g.nextId == b + 6
      && pipe.g.factory == old(pipe.g.factory)[b := "udpsrc"][b + 1 := chain[0]][b + 2 := chain[1]][b + 3 := chain[2]]
                             [b + 4 := chain[3]][b + 5 := sinkFactory]
      && pipe.g.names == old(pipe.g.names)[b + 5 := sinkName]
      && pipe.g.ports == old(pipe.g.ports)[b := port]
  {
    var rtpSrc := MakeUdp(pipe, "udpsrc", port, None, made[0]);
    var decoder := MakeDecoder(pipe, chain, sinkFactory, sinkName, made[1..]);
    es := [rtpSrc] + decoder;
    assert AllMade(made) ==> AllMade(made[1..]) by {
      if AllMade(made) {
        forall i | 0 <= i < 5
          ensures made[1..][i]
        {
          assert made[1..][i] == made[i + 1];
        }
      }
    }
  }

  /**
   * The RTCP half of one media kind (receiver.c:142-150 for video, 176-183 for
   * audio): the udpsrc on `srcPort`, then the udpsink sending to `dest` on
   * `sinkPort`.
   */
  method MakeRtcp(pipe: Pipe, srcPort: int, sinkPort: int, dest: string, srcMade: bool, sinkMade: bool)
    returns (es: seq<Option<ElementId>>)
    requires pipe.Valid()
    modifies pipe
    ensures pipe.Valid() && unchanged(pipe`latency, pipe`state, pipe`calls)
    ensures SameTopology(old(pipe.g), pipe.g) && old(pipe.g.nextId) <= pipe.g.nextId
    ensures pipe.g.names == old(pipe.g.names)
    ensures |es| == 2 && es[0].Some? == srcMade && es[1].Some? == sinkMade
    ensures srcMade && sinkMade ==>
      var b := old(pipe.g.nextId);
      && es == [Some(b), Some(b + 1)]
      && pipe.g.nextId == b + 2
      && pipe.g.factory == old(pipe.g.factory)[b := "udpsrc"][b + 1 := "udpsink"]
      && pipe.g.ports == old(pipe.g.ports)[b := srcPort][b + 1 := sinkPort]
      && pipe.g.hosts == old(pipe.g.hosts)[b + 1 := dest]
  {
    var rtcpSrc := MakeUdp(pipe, "udpsrc", srcPort, None, srcMade);
    var rtcpSink := MakeUdp(pipe, "udpsink", sinkPort, Some(dest), sinkMade);
    es := [rtcpSrc, rtcpSink];
  }

  /** The decoding chains of the two media kinds: H.264 video and Opus audio (receiver.c:130-133, 164-167). */
  const VideoChainFactories: seq<string> := ["rtph264depay", "h264parse", "avdec_h264", "videoconvert"]
  const AudioChainFactories: seq<string> := ["rtpopusdepay", "opusdec", "audioconvert", "audioresample"]

  /** The factories of one media kind's eight elements, in creation order. */
  function MediaSeq(chain: seq<string>, sinkFactory: string): (f: seq<string>)
    requires |chain| == 4
    ensures |f| == 8
  {
    ["udpsrc", chain[0], chain[1], chain[2], chain[3], sinkFactory, "udpsrc", "udpsink"]
  }

  /** The factory of each session element, in creation order. */
  function SessionFactories(bins: SinkBins): (f: seq<string>)
    ensures |f| == 16
  {
    MediaSeq(VideoChainFactories, bins.video) + MediaSeq(AudioChainFactories, bins.audio)
  }

  /** The pipeline once all sixteen factory calls produced an element and their properties are set. */
  function WithElements(g: Graph, config: ReceiverConfig, bins: SinkBins): Graph
  {
    var b := g.nextId;
    g.(factory := MediaFactories(MediaFactories(g.factory, b, VideoChainFactories, bins.video), b + 8, AudioChainFactories, bins.audio),
       names := g.names[b + 5 := VideoSinkName(config.videoId)][b + 8 + 5 := AudioSinkName(config.audioId)],
       ports := MediaPorts(MediaPorts(g.ports, b, config.ports[..3]), b + 8, config.ports[3..]),
       hosts := g.hosts[b + 7 := config.dest][b + 8 + 7 := config.dest],
       nextId := b + 16)
  }

  /**
   * The sixteen factory calls of add_incoming_source with their property
   * settings (receiver.c:117-183). The session exists only when every call
   * produced an element; its elements then carry consecutive ids. Elements
   * are only created: the bin, the links, the pads and the handlers stay.
   */
  method CreateElements(pipe: Pipe, config: ReceiverConfig, bins: SinkBins, made: seq<bool>) returns (e: Option<Elements>)
    requires pipe.Valid() && |made| == 16
    modifies pipe
    ensures pipe.Valid() && unchanged(pipe`latency, pipe`state, pipe`calls)
    ensures SameTopology(old(pipe.g), pipe.g) && old(pipe.g.nextId) <= pipe.g.nextId
    ensures e.Some? <==> AllMade(made)
    ensures e.Some? ==> e.value == ElementsFrom(old(pipe.g.nextId)) && pipe.g == WithElements(old(pipe.g), config, bins)
  {
    ghost var b := pipe.g.nextId;
    var video := MakeMedia(pipe, VideoChainFactories, bins.video, VideoSinkName(config.videoId),
                           config.ports[..3], config.dest, made[..8]);
    var audio := MakeMedia(pipe, AudioChainFactories, bins.audio, AudioSinkName(config.audioId),
                           config.ports[3..], config.dest, made[8..]);
    AllMadeSplit(made);
    if (forall i | 0 <= i < 8 :: video[i].Some?) && (forall i | 0 <= i < 8 :: audio[i].Some?) {
      e := Some(Elements(video[0].value, video[1].value, video[2].value, video[3].value, video[4].value, video[5].value,
                         video[6].value, video[7].value, audio[0].value, audio[1].value, audio[2].value, audio[3].value,
                         audio[4].value, audio[5].value, audio[6].value, audio[7].value));
      assert AllMade(made[..8]) && AllMade(made[8..]);
      assert e.value == ElementsFrom(b);
    } else {
      e := None;
    }
  }

  lemma AllMadeSplit(made: seq<bool>)
    requires |made| == 16
    ensures AllMade(made) <==> AllMade(made[..8]) && AllMade(made[8..])
  {
    if AllMade(made[..8]) && AllMade(made[8..]) {
      forall i | 0 <= i < 16
        ensures made[i]
      {
        if i < 8 { assert made[..8][i] == made[i]; } else { assert made[8..][i - 8] == made[i]; }
      }
    }
  }

  /** The factory stored at id `x` by one media kind's stores, or the one it had before. */
  lemma MediaFactoriesAt(f: map<ElementId, string>, b: nat, chain: seq<string>, sinkFactory: string, x: ElementId)
    requires |chain| == 4
    ensures var m := MediaFactories(f, b, chain, sinkFactory);
      && (b <= x < b + 8 ==> x in m && m[x] == MediaSeq(chain, sinkFactory)[x - b])
      && (!(b <= x < b + 8) ==> (x in m <==> x in f) && (x in f ==> m[x] == f[x]))
  {
  }

  /** The i-th of the sixteen stores holds the i-th session factory. */
  lemma SessionFactoryAt(f: map<ElementId, string>, b: nat, bins: SinkBins, i: nat)
    requires i < 16
    ensures var m := MediaFactories(MediaFactories(f, b, VideoChainFactories, bins.video), b + 8, AudioChainFactories, bins.audio);
      b + i in m && m[b + i] == SessionFactories(bins)[i]
  {
    MediaFactoriesAt(f, b, VideoChainFactories, bins.video, b + i);
    MediaFactoriesAt(MediaFactories(f, b, VideoChainFactories, bins.video), b + 8, AudioChainFactories, bins.audio, b + i);
  }

  /** After the sixteen factory calls, the session's elements carry their factories in creation order (receiver.c:117-183). */
  lemma WithElementsFactories(g: Graph, config: ReceiverConfig, bins: SinkBins)
    ensures var r := WithElements(g, config, bins);
            var e := ElementsFrom(g.nextId);
      forall i :: 0 <= i < 16 ==> e.Created()[i] in r.factory && r.factory[e.Created()[i]] == SessionFactories(bins)[i]
  {
    var b := g.nextId;
    var e := ElementsFrom(b);
    var m := WithElements(g, config, bins).factory;
    assert m == MediaFactories(MediaFactories(g.factory, b, VideoChainFactories, bins.video), b + 8, AudioChainFactories, bins.audio);
    forall i | 0 <= i < 16
      ensures e.Created()[i] in m && m[e.Created()[i]] == SessionFactories(bins)[i]
    {
      assert e.Created()[i] == b + i;
      SessionFactoryAt(g.factory, b, bins, i);
    }
  }

  /** The udpsrc and udpsink elements carry the six configured ports in order (receiver.c:125-126, 143, 146, 160-161, 177, 180). */
  lemma WithElementsPorts(g: Graph, config: ReceiverConfig, bins: SinkBins)
    ensures var r := WithElements(g, config, bins);
            var e := ElementsFrom(g.nextId);
      forall i :: 0 <= i < 6 ==> e.PortElement(i) in r.ports && r.ports[e.PortElement(i)] == config.ports[i]
  {
    var b := g.nextId;
    var e := ElementsFrom(b);
    assert forall i :: 0 <= i < 6 ==> e.PortElement(i) == [b, b + 6, b + 7, b + 8, b + 14, b + 15][i];
  }

  /** The two sinks carry their names and both RTCP udpsinks the destination (receiver.c:135-136, 146-147, 169-170, 180-181). */
  lemma WithElementsNames(g: Graph, config: ReceiverConfig, bins: SinkBins)
    ensures var r := WithElements(g, config, bins);
            var e := ElementsFrom(g.nextId);
      && e.vsink in r.names && r.names[e.vsink] == VideoSinkName(config.videoId)
      && e.asink in r.names && r.names[e.asink] == AudioSinkName(config.audioId)
      && e.vudpsink in r.hosts && r.hosts[e.vudpsink] == config.dest
      && e.audpsink in r.hosts && r.hosts[e.audpsink] == config.dest
  {
  }

  /** gst_bin_add_many of the sixteen elements (receiver.c:193-212): with fresh names, all of them join the bin. */
  method AddSessionElements(pipe: Pipe, e: Elements)
    requires pipe.Valid() && e.Distinct()
    requires forall x :: x in e.Members() ==> x in pipe.g.factory && x !in pipe.g.elements
    requires NamesFresh(pipe.g, e.Members())
    modifies pipe
    ensures pipe.Valid() && unchanged(pipe`latency, pipe`state, pipe`calls)
    ensures pipe.g == old(pipe.g).(elements := old(pipe.g.elements) + e.Members())
  {
    var order := e.AddOrder();
    OrdersAgree(e);
    assert (set i | 0 <= i < |order| :: order[i]) == e.Members() by {
      assert forall i :: 0 <= i < |order| ==> order[i] in e.Members();
      forall x | x in e.Members() ensures exists i :: 0 <= i < |order| && order[i] == x {
        var i :| 0 <= i < |order| && order[i] == x;
      }
    }
    AddOrderDistinct(e);
    AddedAllNamesFresh(pipe.g, order);
    pipe.AddMany(order);
  }

  /**
   * gst_element_link_many of the video chain and, only if that succeeded, of
   * the audio chain (receiver.c:213-219). `videoNegotiable` and
   * `audioNegotiable` count the consecutive pairs of each chain whose caps
   * agree. Success needs all four pairs of both chains; on failure nothing is
   * undone: the links made so far stay.
   */
  method LinkChains(pipe: Pipe, e: Elements, videoNegotiable: nat, audioNegotiable: nat) returns (ok: bool)
    requires pipe.Valid() && e.Distinct()
    requires e.Members() <= pipe.g.elements && Untouched(pipe.g.links, e.Members())
    modifies pipe
    ensures pipe.Valid() && unchanged(pipe`latency, pipe`state, pipe`calls)
    ensures pipe.g == old(pipe.g).(links := pipe.g.links)
    ensures ok == (videoNegotiable >= 4 && audioNegotiable >= 4)
    ensures old(pipe.g.links) <= pipe.g.links
    ensures pipe.g.links - old(pipe.g.links) <= ChainLinks(e.VideoChain()) + ChainLinks(e.AudioChain())
    ensures ok ==> pipe.g.links == old(pipe.g.links) + ChainLinks(e.VideoChain()) + ChainLinks(e.AudioChain())
  {
    ghost var g1 := pipe.g;
    ChainsApart(e);
    UntouchedChainFree(g1, e.VideoChain());
    LinkedManyFresh(g1, e.VideoChain(), videoNegotiable);
    ok := pipe.LinkMany(e.VideoChain(), videoNegotiable);
    if ok {
      ghost var g2 := pipe.g;
      forall l | l in g2.links
        ensures l.src.owner !in e.AudioChain() && l.sink.owner !in e.AudioChain()
      {
        if l !in g1.links {
          var i :| 0 <= i < 4 && l == PadLink(Pad(e.VideoChain()[i], "src"), Pad(e.VideoChain()[i + 1], "sink"));
        }
      }
      UntouchedChainFree(g2, e.AudioChain());
      LinkedManyFresh(g2, e.AudioChain(), audioNegotiable);
      ok := pipe.LinkMany(e.AudioChain(), audioNegotiable);
    }
  }

  /** The add order lists sixteen different elements. */
  lemma AddOrderDistinct(e: Elements)
    requires e.Distinct()
    ensures forall i, j :: 0 <= i < j < 16 ==> e.AddOrder()[i] != e.AddOrder()[j]
  {
    var c := e.Created();
    var a := e.AddOrder();
    var perm := [0, 1, 2, 3, 4, 6, 7, 5, 8, 9, 10, 11, 12, 14, 15, 13];
    assert forall i :: 0 <= i < 16 ==> a[i] == c[perm[i]];
    forall i, j | 0 <= i < j < 16
      ensures a[i] != a[j]
    {
      CreatedApart(e, perm[i], perm[j]);
    }
  }

  /** Two different creation positions hold different elements. */
  lemma CreatedApart(e: Elements, i: nat, j: nat)
    requires e.Distinct() && i < 16 && j < 16 && i != j
    ensures e.Created()[i] != e.Created()[j]
  {
    if j < i {
      assert e.Created()[j] != e.Created()[i];
    }
  }

  /** The two chains are made of different elements of the session, each chain of distinct ones. */
  lemma ChainsApart(e: Elements)
    requires e.Distinct()
    ensures forall i, j :: 0 <= i < j < 5 ==> e.VideoChain()[i] != e.VideoChain()[j] && e.AudioChain()[i] != e.AudioChain()[j]
    ensures forall i, j :: 0 <= i < 5 && 0 <= j < 5 ==> e.VideoChain()[i] != e.AudioChain()[j]
    ensures forall i :: 0 <= i < 5 ==> e.VideoChain()[i] in e.Members() && e.AudioChain()[i] in e.Members()
  {
    var c := e.Created();
    assert forall i :: 0 <= i < 5 ==> e.VideoChain()[i] == c[i + 1] && e.AudioChain()[i] == c[i + 9];
    forall i, j | 0 <= i < 5 && 0 <= j < 5
      ensures e.VideoChain()[i] != e.AudioChain()[j]
      ensures i < j ==> e.VideoChain()[i] != e.VideoChain()[j] && e.AudioChain()[i] != e.AudioChain()[j]
    {
      CreatedApart(e, i + 1, j + 9);
      if i < j {
        CreatedApart(e, i + 1, j + 1);
        CreatedApart(e, i + 9, j + 9);
      }
    }
  }

  /** cb_new_pad_t: the session id a binding accepts, the depayloader sink pad, and the source last linked to it. */
  class PadBinding {
    const id: Id
    const sink: Pad
    var source: Option<Pad>

    constructor (id: Id, sink: Pad)
      ensures this.id == id && this.sink == sink && source == None
    {
      this.id := id;
      this.sink := sink;
      source := None;
    }
  }

  /**
   * cb_new_pad (receiver.c:42-74). A new pad of rtpbin named
   * "recv_rtp_src_<id>_<ssrc>_<pt>" with the binding's id is recorded as the
   * binding's source and linked to its sink, after the sink is unlinked from
   * the previous source if it was linked. Any other pad is ignored.
   */
  method CbNewPad(pipe: Pipe, element: ElementId, pad: Pad, data: PadBinding)
    requires pipe.Valid()
    modifies pipe, data
    ensures pipe.Valid() && unchanged(pipe`latency, pipe`state)
    ensures ScanPadId(pad.name) != Some(data.id) ==>
              pipe.g == old(pipe.g) && pipe.calls == old(pipe.calls) && data.source == old(data.source)
    ensures ScanPadId(pad.name) == Some(data.id) ==>
              && data.source == Some(pad)
              && pipe.g == Rebound(old(pipe.g), old(data.source), pad, data.sink)
              && pipe.calls == old(pipe.calls) +
                   if old(pipe.g).IsLinked(data.sink) && old(data.source).Some?
                   then [PadsUnlinked(old(data.source).value, data.sink)] else []
  {
    var id := ScanPadId(pad.name);
    if id == Some(data.id) {
      if pipe.g.IsLinked(data.sink) && data.source.Some? {
        var unlinked := pipe.Unlink(data.source.value, data.sink);
      }
      data.source := Some(pad);
      var linked := pipe.Link(pad, data.sink);
    }
  }

  /** link_pads (receiver.c:3-23) for the pad named after `kind` and `id`. */
  method LinkPads(pipe: Pipe, rtpbin: ElementId, kind: RequestKind, id: Id, staticPadFrom: ElementId, padType: string)
    returns (requested: Option<Pad>)
    requires pipe.Valid() && rtpbin in pipe.g.elements
    modifies pipe
    ensures pipe.Valid() && unchanged(pipe`latency, pipe`state, pipe`calls)
    ensures var w := Wire(Pad(rtpbin, RequestPadName(kind, id)), staticPadFrom, padType);
      && pipe.g == WiredOne(old(pipe.g), w)
      && requested == if w.requested in old(pipe.g.requested) then None else Some(w.requested)
  {
    var padName := RequestPadName(kind, id);
    var staticPad := Pad(staticPadFrom, padType);
    requested := pipe.RequestPad(rtpbin, padName);
    if requested.Some? {
      var linked;
      if padType == "src" {
        linked := pipe.Link(staticPad, requested.value);
      } else {
        linked := pipe.Link(requested.value, staticPad);
      }
    }
  }

  /**
   * The six link_pads calls of receiver.c:222-228: for video, then audio, the
   * RTP receive pad, the RTCP receive pad and the RTCP send pad. On free pads
   * every request pad is handed out and returned, and every wire is linked.
   */
  method LinkSessionPads(pipe: Pipe, rtpbin: ElementId, e: Elements, videoId: Id, audioId: Id) returns (pads: seq<Pad>)
    requires pipe.Valid() && rtpbin in pipe.g.elements
    requires PadsApart(SessionWires(rtpbin, e, videoId, audioId))
    requires WiresFree(pipe.g, SessionWires(rtpbin, e, videoId, audioId))
    modifies pipe
    ensures pipe.Valid() && unchanged(pipe`latency, pipe`state, pipe`calls)
    ensures pipe.g == WiredAll(old(pipe.g), SessionWires(rtpbin, e, videoId, audioId))
    ensures pads == RequestedOf(SessionWires(rtpbin, e, videoId, audioId))
  {
    ghost var g0 := pipe.g;
    ghost var vws := MediaWires(rtpbin, videoId, e.vudpsrc, e.vudpsrc1, e.vudpsink);
    ghost var aws := MediaWires(rtpbin, audioId, e.audpsrc, e.audpsrc1, e.audpsink);
    ghost var ws := vws + aws;
    Halves(vws, aws);
    var video := LinkMediaWires(pipe, rtpbin, videoId, e.vudpsrc, e.vudpsrc1, e.vudpsink, g0, ws, 0);
    var audio := LinkMediaWires(pipe, rtpbin, audioId, e.audpsrc, e.audpsrc1, e.audpsink, g0, ws, 3);
    pads := video + audio;
    RequestedSix(ws, video, audio);
  }

  lemma RequestedSix(ws: seq<Wire>, video: seq<Pad>, audio: seq<Pad>)
    requires |ws| == 6
    requires video == [ws[0].requested, ws[1].requested, ws[2].requested]
    requires audio == [ws[3].requested, ws[4].requested, ws[5].requested]
    ensures video + audio == RequestedOf(ws)
  {
  }

  /** The prefixes and the two halves of a concatenation. */
  lemma Halves<T>(a: seq<T>, b: seq<T>)
    ensures (a + b)[..0] == [] && (a + b)[..|a| + |b|] == a + b
    ensures (a + b)[0..|a|] == a && (a + b)[|a|..|a| + |b|] == b
  {
  }

  /** The three link_pads calls of one media kind, the k-th to the (k+2)-th of a run of apart and free wires. */
  method LinkMediaWires(pipe: Pipe, rtpbin: ElementId, id: Id, rtpFrom: ElementId, rtcpFrom: ElementId, sendFrom: ElementId,
                        ghost g0: Graph, ghost ws: seq<Wire>, ghost k: nat)
    returns (pads: seq<Pad>)
    requires pipe.Valid() && rtpbin in pipe.g.elements
    requires PadsApart(ws) && WiresFree(g0, ws) && k + 3 <= |ws|
    requires ws[k..k + 3] == MediaWires(rtpbin, id, rtpFrom, rtcpFrom, sendFrom)
    requires pipe.g == WiredAll(g0, ws[..k])
    modifies pipe
    ensures pipe.Valid() && unchanged(pipe`latency, pipe`state, pipe`calls)
    ensures pipe.g == WiredAll(g0, ws[..k + 3]) && pads == [ws[k].requested, ws[k + 1].requested, ws[k + 2].requested]
    ensures pipe.g.elements == old(pipe.g.elements)
  {
    assert ws[k] == ws[k..k + 3][0] && ws[k + 1] == ws[k..k + 3][1] && ws[k + 2] == ws[k..k + 3][2];
    var rtp := LinkWire(pipe, rtpbin, RecvRtpSink, id, rtpFrom, "src", g0, ws, k);
    var rtcp := LinkWire(pipe, rtpbin, RecvRtcpSink, id, rtcpFrom, "src", g0, ws, k + 1);
    var send := LinkWire(pipe, rtpbin, SendRtcpSrc, id, sendFrom, "sink", g0, ws, k + 2);
    pads := [rtp, rtcp, send];
  }

  /** The k-th of a run of link_pads calls on apart and free wires: its pad is handed out and returned. */
  method LinkWire(pipe: Pipe, rtpbin: ElementId, kind: RequestKind, id: Id, staticPadFrom: ElementId, padType: string,
                  ghost g0: Graph, ghost ws: seq<Wire>, ghost k: nat)
    returns (pad: Pad)
    requires pipe.Valid() && rtpbin in pipe.g.elements
    requires PadsApart(ws) && WiresFree(g0, ws) && k < |ws|
    requires ws[k] == Wire(Pad(rtpbin, RequestPadName(kind, id)), staticPadFrom, padType)
    requires pipe.g == WiredAll(g0, ws[..k])
    modifies pipe
    ensures pipe.Valid() && unchanged(pipe`latency, pipe`state, pipe`calls)
    ensures pipe.g == WiredAll(g0, ws[..k + 1]) && pad == ws[k].requested
    ensures pipe.g.elements == old(pipe.g.elements)
  {
    WiredPrefixFresh(g0, ws, k);
    var requested := LinkPads(pipe, rtpbin, kind, id, staticPadFrom, padType);
    pad := requested.value;
  }

  /** unlink_release_and_unref (receiver.c:25-41); `rtpbin` is None when it was not found. */
  method UnlinkReleaseAndUnref(pipe: Pipe, rtpbin: Option<ElementId>, requestedPad: Pad, staticPadFrom: ElementId, padType: string)
    requires pipe.Valid()
    modifies pipe
    ensures pipe.Valid() && unchanged(pipe`latency, pipe`state)
    ensures pipe.g == UnlinkReleased(old(pipe.g), rtpbin, Wire(requestedPad, staticPadFrom, padType))
    ensures pipe.calls == old(pipe.calls) + UnlinkReleaseCalls(rtpbin, Wire(requestedPad, staticPadFrom, padType))
  {
    var staticPad := Pad(staticPadFrom, padType);
    var unlinked;
    if padType == "src" {
      unlinked := pipe.Unlink(staticPad, requestedPad);
    } else {
      unlinked := pipe.Unlink(requestedPad, staticPad);
    }
    pipe.Release(rtpbin, requestedPad);
  }

  /** The elements of a NULL-terminated variadic list, up to the terminator. */
  function UpToNull(list: seq<Option<ElementId>>): (es: seq<ElementId>)
    requires None in list
    ensures |es| < |list| && list[|es|] == None
    ensures forall i :: 0 <= i < |es| ==> list[i] == Some(es[i])
    decreases |list|
  {
    if list[0].None? then []
    else
      assert None in list[1..];
      [list[0].value] + UpToNull(list[1..])
  }

  /** The variadic argument list `es..., NULL`. */
  function Terminated(es: seq<ElementId>): (list: seq<Option<ElementId>>)
    ensures None in list
  {
    assert (seq(|es|, i requires 0 <= i < |es| => Some(es[i])) + [None])[|es|] == None;
    seq(|es|, i requires 0 <= i < |es| => Some(es[i])) + [None]
  }

  /** Passing `es..., NULL` hands over exactly `es`. */
  lemma UpToNullTerminated(es: seq<ElementId>)
    ensures UpToNull(Terminated(es)) == es
  {
  }

  /**
   * set_state_many (receiver.c:252-266): set `st` on each element of the list
   * up to its NULL terminator, in order.
   */
  method SetStateMany(pipe: Pipe, st: ElementState, list: seq<Option<ElementId>>)
    requires pipe.Valid() && None in list
    modifies pipe
    ensures pipe.Valid() && unchanged(pipe`latency, pipe`state)
    ensures pipe.g == old(pipe.g).(states := AllSet(old(pipe.g.states), UpToNull(list), st))
    ensures pipe.calls == old(pipe.calls) + StateCalls(UpToNull(list), st)
  {
    ghost var es := UpToNull(list);
    var i := 0;
    while list[i].Some?
      invariant 0 <= i <= |es|
      invariant pipe.Valid() && unchanged(pipe`latency, pipe`state)
      invariant pipe.g == old(pipe.g).(states := AllSet(old(pipe.g.states), es[..i], st))
      invariant pipe.calls == old(pipe.calls) + StateCalls(es[..i], st)
      decreases |es| - i
    {
      assert es[..i + 1][..i] == es[..i];
      assert StateCalls(es[..i + 1], st) == StateCalls(es[..i], st) + [StateSet(es[i], st)];
      pipe.SetState(list[i], st);
      i := i + 1;
    }
    assert es[..i] == es;
  }

  /**
   * source_data_t (receiver.h): the session's pipeline and configuration, its
   * sixteen elements, the six request pads, the two bindings handed to
   * cb_new_pad and the two handler ids.
   */
  class SourceData {
    const pipe: Pipe
    const config: ReceiverConfig
    const elems: Elements
    const vRecvRtpSink: Pad
    const vRecvRtcpSink: Pad
    const vSendRtcpSrc: Pad
    const aRecvRtpSink: Pad
    const aRecvRtcpSink: Pad
    const aSendRtcpSrc: Pad
    const video: PadBinding
    const audio: PadBinding
    var videoHandler: HandlerId
    var audioHandler: HandlerId

    /** The bindings watch the depayloaders' sink pads for the configured ids (receiver.c:230-242). */
    constructor (pipe: Pipe, config: ReceiverConfig, elems: Elements, pads: seq<Pad>)
      requires |pads| == 6
      ensures this.pipe == pipe && this.config == config && this.elems == elems
      ensures [vRecvRtpSink, vRecvRtcpSink, vSendRtcpSrc, aRecvRtpSink, aRecvRtcpSink, aSendRtcpSrc] == pads
      ensures fresh(video) && fresh(audio) && Wired()
      ensures video.source == None && audio.source == None
      ensures videoHandler == 0 && audioHandler == 0
    {
      this.pipe := pipe;
      this.config := config;
      this.elems := elems;
      vRecvRtpSink := pads[0];
      vRecvRtcpSink := pads[1];
      vSendRtcpSrc := pads[2];
      aRecvRtpSink := pads[3];
      aRecvRtcpSink := pads[4];
      aSendRtcpSrc := pads[5];
      video := new PadBinding(config.videoId, Pad(elems.vdepay, "sink"));
      audio := new PadBinding(config.audioId, Pad(elems.adepay, "sink"));
      videoHandler := 0;
      audioHandler := 0;
    }

    /** The bindings are two objects watching this session's depayloader sinks for its ids. */
    ghost predicate Wired()
    {
      && video != audio
      && video.sink == Pad(elems.vdepay, "sink") && audio.sink == Pad(elems.adepay, "sink")
      && video.id == config.videoId && audio.id == config.audioId
    }

    /** The session as a value. */
    function AsSession(): Session
      reads this
    {
      ReceiverSession.Session(elems, vRecvRtpSink, vRecvRtcpSink, vSendRtcpSrc, aRecvRtpSink, aRecvRtcpSink, aSendRtcpSrc,
              videoHandler, audioHandler)
    }
  }

  /** set_source_to (receiver.c:284-287): every session element, in SOURCE_ELEMS order, gets `st`. */
  method SetSourceTo(data: SourceData, st: ElementState)
    requires data.pipe.Valid()
    modifies data.pipe
    ensures data.pipe.Valid() && unchanged(data.pipe`latency, data.pipe`state)
    ensures data.pipe.g == old(data.pipe.g).(states := AllSet(old(data.pipe.g.states), data.elems.SourceElems(), st))
    ensures data.pipe.calls == old(data.pipe.calls) + StateCalls(data.elems.SourceElems(), st)
  {
    UpToNullTerminated(data.elems.SourceElems());
    SetStateMany(data.pipe, st, Terminated(data.elems.SourceElems()));
  }

  /** The six unlink_release_and_unref calls one after the other. */
  lemma ReleasedSix(g: Graph, rtpbin: Option<ElementId>, ws: seq<Wire>)
    requires |ws| == 6
    ensures ReleasedWires(g, rtpbin, ws)
         == UnlinkReleased(UnlinkReleased(UnlinkReleased(UnlinkReleased(UnlinkReleased(UnlinkReleased(
              g, rtpbin, ws[0]), rtpbin, ws[1]), rtpbin, ws[2]), rtpbin, ws[3]), rtpbin, ws[4]), rtpbin, ws[5])
  {
    assert ws[..5][..4] == ws[..4] && ws[..4][..3] == ws[..3] && ws[..3][..2] == ws[..2];
    assert ws[..2][..1] == ws[..1] && ws[..1][..0] == [];
    assert ReleasedWires(g, rtpbin, ws[..1]) == UnlinkReleased(g, rtpbin, ws[0]);
    assert ReleasedWires(g, rtpbin, ws[..2]) == UnlinkReleased(ReleasedWires(g, rtpbin, ws[..1]), rtpbin, ws[1]);
    assert ReleasedWires(g, rtpbin, ws[..3]) == UnlinkReleased(ReleasedWires(g, rtpbin, ws[..2]), rtpbin, ws[2]);
    assert ReleasedWires(g, rtpbin, ws[..4]) == UnlinkReleased(ReleasedWires(g, rtpbin, ws[..3]), rtpbin, ws[3]);
    assert ReleasedWires(g, rtpbin, ws[..5]) == UnlinkReleased(ReleasedWires(g, rtpbin, ws[..4]), rtpbin, ws[4]);
  }

  lemma ReleaseCallsSix(rtpbin: Option<ElementId>, ws: seq<Wire>)
    requires |ws| == 6
    ensures ReleaseCalls(rtpbin, ws)
         == (UnlinkReleaseCalls(rtpbin, ws[0]) + UnlinkReleaseCalls(rtpbin, ws[1]) + UnlinkReleaseCalls(rtpbin, ws[2]))
          + (UnlinkReleaseCalls(rtpbin, ws[3]) + UnlinkReleaseCalls(rtpbin, ws[4]) + UnlinkReleaseCalls(rtpbin, ws[5]))
  {
    assert ws[..5][..4] == ws[..4] && ws[..4][..3] == ws[..3] && ws[..3][..2] == ws[..2];
    assert ws[..2][..1] == ws[..1] && ws[..1][..0] == [];
    assert ReleaseCalls(rtpbin, ws[..1]) == UnlinkReleaseCalls(rtpbin, ws[0]);
    assert ReleaseCalls(rtpbin, ws[..2]) == ReleaseCalls(rtpbin, ws[..1]) + UnlinkReleaseCalls(rtpbin, ws[1]);
    assert ReleaseCalls(rtpbin, ws[..3]) == ReleaseCalls(rtpbin, ws[..2]) + UnlinkReleaseCalls(rtpbin, ws[2]);
    assert ReleaseCalls(rtpbin, ws[..4]) == ReleaseCalls(rtpbin, ws[..3]) + UnlinkReleaseCalls(rtpbin, ws[3]);
    assert ReleaseCalls(rtpbin, ws[..5]) == ReleaseCalls(rtpbin, ws[..4]) + UnlinkReleaseCalls(rtpbin, ws[4]);
  }

  /** receiver.c:302-315: drop the recorded sources, video then audio. */
  method DropRecordedSources(data: SourceData, rtpbin: Option<ElementId>)
    requires data.pipe.Valid() && data.Wired()
    modifies data.pipe
    ensures data.pipe.Valid() && unchanged(data.pipe`latency, data.pipe`state)
    ensures data.pipe.g == DroppedDynamic(DroppedDynamic(old(data.pipe.g), rtpbin, data.video.source, data.AsSession().VideoSink()),
                                          rtpbin, data.audio.source, data.AsSession().AudioSink())
    ensures data.pipe.calls == old(data.pipe.calls) + DynamicCalls(rtpbin, data.video.source, data.AsSession().VideoSink())
                                                    + DynamicCalls(rtpbin, data.audio.source, data.AsSession().AudioSink())
  {
    var pipe := data.pipe;
    if data.video.source.Some? {
      var unlinked := pipe.Unlink(data.video.source.value, data.video.sink);
      pipe.Release(rtpbin, data.video.sink);
    }
    if data.audio.source.Some? {
      var unlinked := pipe.Unlink(data.audio.source.value, data.audio.sink);
      pipe.Release(rtpbin, data.audio.sink);
    }
  }

  /** Three unlink_release_and_unref calls in a row: one media kind's wires. */
  method ReleaseMediaPads(pipe: Pipe, rtpbin: Option<ElementId>, w0: Wire, w1: Wire, w2: Wire)
    requires pipe.Valid()
    modifies pipe
    ensures pipe.Valid() && unchanged(pipe`latency, pipe`state)
    ensures pipe.g == UnlinkReleased(UnlinkReleased(UnlinkReleased(old(pipe.g), rtpbin, w0), rtpbin, w1), rtpbin, w2)
    ensures pipe.calls == old(pipe.calls) + (UnlinkReleaseCalls(rtpbin, w0) + UnlinkReleaseCalls(rtpbin, w1) + UnlinkReleaseCalls(rtpbin, w2))
  {
    UnlinkReleaseAndUnref(pipe, rtpbin, w0.requested, w0.staticFrom, w0.padType);
    UnlinkReleaseAndUnref(pipe, rtpbin, w1.requested, w1.staticFrom, w1.padType);
    UnlinkReleaseAndUnref(pipe, rtpbin, w2.requested, w2.staticFrom, w2.padType);
  }

  /** receiver.c:317-323: unlink and release the six request pads, video then audio. */
  method ReleaseRequestPads(data: SourceData, rtpbin: Option<ElementId>)
    requires data.pipe.Valid()
    modifies data.pipe
    ensures data.pipe.Valid() && unchanged(data.pipe`latency, data.pipe`state)
    ensures data.pipe.g == ReleasedWires(old(data.pipe.g), rtpbin, data.AsSession().Wires())
    ensures data.pipe.calls == old(data.pipe.calls) + ReleaseCalls(rtpbin, data.AsSession().Wires())
  {
    var pipe := data.pipe;
    ghost var ws := data.AsSession().Wires();
    ReleasedSix(pipe.g, rtpbin, ws);
    ReleaseCallsSix(rtpbin, ws);
    ghost var c0 := pipe.calls;
    ReleaseMediaPads(pipe, rtpbin, Wire(data.vRecvRtpSink, data.elems.vudpsrc, "src"),
                     Wire(data.vRecvRtcpSink, data.elems.vudpsrc1, "src"), Wire(data.vSendRtcpSrc, data.elems.vudpsink, "sink"));
    ghost var c1 := pipe.calls;
    ReleaseMediaPads(pipe, rtpbin, Wire(data.aRecvRtpSink, data.elems.audpsrc, "src"),
                     Wire(data.aRecvRtcpSink, data.elems.audpsrc1, "src"), Wire(data.aSendRtcpSrc, data.elems.audpsink, "sink"));
  }

  /** receiver.c:297-298: both handlers go, in video-then-audio order. */
  method DisconnectHandlers(pipe: Pipe, rtpbin: Option<ElementId>, vh: HandlerId, ah: HandlerId)
    requires pipe.Valid()
    modifies pipe
    ensures pipe.Valid() && unchanged(pipe`latency, pipe`state)
    ensures pipe.g == old(pipe.g).Disconnected(rtpbin, vh).Disconnected(rtpbin, ah)
    ensures pipe.calls == old(pipe.calls) + if rtpbin.Some? then [HandlerDisconnected(vh), HandlerDisconnected(ah)] else []
  {
    pipe.Disconnect(rtpbin, vh);
    pipe.Disconnect(rtpbin, ah);
  }

  /** receiver.c:297-300: disconnect both handlers and set every session element to NULL. */
  method QuiesceSession(data: SourceData, rtpbin: Option<ElementId>)
    requires data.pipe.Valid()
    modifies data.pipe
    ensures data.pipe.Valid() && unchanged(data.pipe`latency, data.pipe`state)
    ensures var g1 := old(data.pipe.g).Disconnected(rtpbin, data.videoHandler).Disconnected(rtpbin, data.audioHandler);
            data.pipe.g == g1.(states := AllSet(g1.states, data.elems.SourceElems(), Null))
    ensures data.pipe.calls == old(data.pipe.calls) + (DisconnectCalls(rtpbin, data.AsSession())
              + StateCalls(data.elems.SourceElems(), Null))
  {
    ghost var c0 := data.pipe.calls;
    ghost var d := DisconnectCalls(rtpbin, data.AsSession());
    DisconnectHandlers(data.pipe, rtpbin, data.videoHandler, data.audioHandler);
    SetSourceTo(data, Null);
    assert (c0 + d) + StateCalls(data.elems.SourceElems(), Null) == c0 + (d + StateCalls(data.elems.SourceElems(), Null));
  }

  /**
   * receiver.c:297-315: disconnect both handlers, set every session element
   * to NULL, and drop the recorded sources.
   */
  method DetachSession(data: SourceData, rtpbin: Option<ElementId>)
    requires data.pipe.Valid() && data.Wired()
    modifies data.pipe
    ensures data.pipe.Valid() && unchanged(data.pipe`latency, data.pipe`state)
    ensures data.pipe.g == Detached(old(data.pipe.g), rtpbin, data.AsSession(), data.video.source, data.audio.source)
    ensures data.pipe.calls == old(data.pipe.calls) + (DisconnectCalls(rtpbin, data.AsSession())
              + StateCalls(data.elems.SourceElems(), Null)
              + DynamicCalls(rtpbin, data.video.source, data.AsSession().VideoSink())
              + DynamicCalls(rtpbin, data.audio.source, data.AsSession().AudioSink()))
  {
    QuiesceSession(data, rtpbin);
    DropRecordedSources(data, rtpbin);
  }

  /**
   * remove_incoming_source (receiver.c:289-328). The graph afterwards is
   * Teardown of the graph before, for the rtpbin the lookup finds (possibly
   * none) and the sources the bindings recorded; the detaching calls are
   * TeardownCalls, in that order.
   */
  method RemoveIncomingSource(data: SourceData)
    requires data.pipe.Valid() && data.Wired()
    modifies data.pipe
    ensures data.pipe.Valid() && unchanged(data.pipe`latency, data.pipe`state)
    ensures data.pipe.g == Teardown(old(data.pipe.g), old(data.pipe.g).ChildNamed("rtpbin"), data.AsSession(),
                                    data.video.source, data.audio.source)
    ensures data.pipe.calls == old(data.pipe.calls) + TeardownCalls(old(data.pipe.g).ChildNamed("rtpbin"), data.AsSession(),
                                                                    data.video.source, data.audio.source)
  {
    var pipe := data.pipe;
    ghost var s := data.AsSession();
    ghost var c0 := pipe.calls;
    var rtpbin := pipe.GetByName("rtpbin");
    DetachSession(data, rtpbin);
    ghost var c1 := pipe.calls;
    ReleaseRequestPads(data, rtpbin);
    ghost var c2 := pipe.calls;
    pipe.RemoveMany(data.elems.SourceElems());
    AppendThree(c0, c1[|c0|..], c2[|c1|..], pipe.calls[|c2|..]);
  }

  /** Regrouping the calls of three consecutive steps. */
  lemma AppendThree<T>(c0: seq<T>, x: seq<T>, y: seq<T>, z: seq<T>)
    ensures ((c0 + x) + y) + z == c0 + ((x + y) + z)
  {
  }

  /** The sixteen elements from `base` on are exactly the ids base..base+15. */
  lemma MembersFrom(base: nat)
    ensures forall x :: x in ElementsFrom(base).Members() <==> base <= x < base + 16
  {
    var e := ElementsFrom(base);
    forall x | base <= x < base + 16
      ensures x in e.Members()
    {
      assert e.Created()[x - base] == x;
    }
  }

  /** The new ids are known to the pipeline but not children, and no link touches them. */
  lemma CreatedOutside(g0: Graph, config: ReceiverConfig, bins: SinkBins)
    requires g0.Valid()
    ensures var g := WithElements(g0, config, bins);
            var e := ElementsFrom(g0.nextId);
      && (forall x :: x in e.Members() ==> x in g.factory && x !in g.elements)
      && Untouched(g.links, e.Members())
  {
    var b := g0.nextId;
    var g := WithElements(g0, config, bins);
    var e := ElementsFrom(b);
    MembersFrom(b);
    WithElementsFactories(g0, config, bins);
    forall x | x in e.Members()
      ensures x in g.factory
    {
      assert e.Created()[x - b] == x;
    }
  }

  /** Only the two sinks are named, and by names no child carries. */
  lemma CreatedNamesFresh(g0: Graph, r: ElementId, config: ReceiverConfig, bins: SinkBins)
    requires g0.Valid()
    requires SlotsFree(g0, r, config.videoId, config.audioId)
    ensures NamesFresh(WithElements(g0, config, bins), ElementsFrom(g0.nextId).Members())
  {
    var b := g0.nextId;
    var g := WithElements(g0, config, bins);
    MembersFrom(b);
    SinkNamesInjective(config.videoId, config.audioId);
    assert forall x :: x in g0.names ==> x < b;
    SinkNamingFresh(g, g0.names, b, VideoSinkName(config.videoId), AudioSinkName(config.audioId), ElementsFrom(b).Members());
  }

  /** Naming two ids above every named one, by two names no child carries, keeps names unique among them. */
  lemma SinkNamingFresh(g: Graph, names: map<ElementId, string>, b: nat, v: string, a: string, s: set<ElementId>)
    requires g.names == names[b + 5 := v][b + 13 := a]
    requires forall x :: x in names ==> x < b
    requires forall x :: x in s ==> b <= x
    requires forall x :: x in g.elements && x in names ==> names[x] != v && names[x] != a
    requires v != a
    ensures NamesFresh(g, s)
  {
  }

  /** The ports of a session: every element a wire links statically, which no chain holds. */
  lemma WireElementsOffChains(e: Elements)
    requires e.Distinct()
    ensures forall i, j :: 0 <= i < 6 && 0 <= j < 5 ==> e.PortElement(i) != e.VideoChain()[j] && e.PortElement(i) != e.AudioChain()[j]
  {
    var c := e.Created();
    assert forall j :: 0 <= j < 5 ==> e.VideoChain()[j] == c[j + 1] && e.AudioChain()[j] == c[j + 9];
    assert forall i :: 0 <= i < 6 ==> e.PortElement(i) == c[[0, 6, 7, 8, 14, 15][i]];
    forall i, j | 0 <= i < 6 && 0 <= j < 5
      ensures e.PortElement(i) != e.VideoChain()[j] && e.PortElement(i) != e.AudioChain()[j]
    {
      CreatedApart(e, [0, 6, 7, 8, 14, 15][i], j + 1);
      CreatedApart(e, [0, 6, 7, 8, 14, 15][i], j + 9);
    }
  }

  /** A link of one of the session's chains touches only pads of chain elements. */
  lemma ChainLinkOwners(chain: seq<ElementId>, l: PadLink)
    requires l in ChainLinks(chain)
    ensures l.src.owner in chain && l.sink.owner in chain
  {
    var j :| 0 <= j < |chain| - 1 && l == PadLink(Pad(chain[j], "src"), Pad(chain[j + 1], "sink"));
  }

  /** Two pads off the chains, unlinked before, stay unlinked once the chains are linked. */
  lemma PadsOffChainsFree(g0: Graph, g: Graph, e: Elements, p: Pad, q: Pad)
    requires Untouched(g0.links, e.Members()) && !g0.IsLinked(p) && q.owner in e.Members()
    requires g.links == g0.links + ChainLinks(e.VideoChain()) + ChainLinks(e.AudioChain())
    requires p.owner !in e.VideoChain() && p.owner !in e.AudioChain()
    requires q.owner !in e.VideoChain() && q.owner !in e.AudioChain()
    ensures !g.IsLinked(p) && !g.IsLinked(q)
  {
    assert !g0.IsLinked(q) by {
      forall l | l in g0.links
        ensures !Touches(l, q)
      {
      }
    }
    PadOffChainsFree(g0, g, e, p);
    PadOffChainsFree(g0, g, e, q);
  }

  /** A pad off the chains, unlinked before, stays unlinked once the chains are linked. */
  lemma PadOffChainsFree(g0: Graph, g: Graph, e: Elements, p: Pad)
    requires !g0.IsLinked(p)
    requires g.links == g0.links + ChainLinks(e.VideoChain()) + ChainLinks(e.AudioChain())
    requires p.owner !in e.VideoChain() && p.owner !in e.AudioChain()
    ensures !g.IsLinked(p)
  {
    ChainAvoids(e.VideoChain(), p);
    ChainAvoids(e.AudioChain(), p);
  }

  /** No link of a chain touches a pad of an element off the chain. */
  lemma ChainAvoids(chain: seq<ElementId>, p: Pad)
    requires p.owner !in chain
    ensures forall l :: l in ChainLinks(chain) ==> !Touches(l, p)
  {
    forall l | l in ChainLinks(chain)
      ensures !Touches(l, p)
    {
      ChainLinkOwners(chain, l);
    }
  }

  /** The chains of consecutive ids are two runs of five. */
  lemma ChainsFrom(b: nat)
    ensures forall x :: x in ElementsFrom(b).VideoChain() <==> b + 1 <= x <= b + 5
    ensures forall x :: x in ElementsFrom(b).AudioChain() <==> b + 9 <= x <= b + 13
  {
    assert ElementsFrom(b).VideoChain() == [b + 1, b + 2, b + 3, b + 4, b + 5];
    assert ElementsFrom(b).AudioChain() == [b + 9, b + 10, b + 11, b + 12, b + 13];
  }

  /**
   * The state right after gst_element_link_many succeeded for both chains of
   * a session of consecutive ids from `b`: rtpbin `r` and the sixteen
   * elements are children, rtpbin has room for the two ids, and the only
   * links that touch the session are the chain links.
   */
  ghost predicate ChainsJustLinked(g0: Graph, g: Graph, r: ElementId, b: nat, videoId: nat, audioId: nat)
  {
    && (r < b || b + 16 <= r)
    && r in g.elements && (forall x :: b <= x < b + 16 ==> x in g.elements)
    && SlotsFree(g0, r, videoId, audioId) && Untouched(g0.links, ElementsFrom(b).Members())
    && g.requested == g0.requested
    && g.links == g0.links + ChainLinks(ElementsFrom(b).VideoChain()) + ChainLinks(ElementsFrom(b).AudioChain())
  }

  /** A wire whose pads are both children's, free, and whose request pad is not handed out. */
  ghost predicate WireFree(g: Graph, w: Wire)
  {
    && w.requested !in g.requested
    && w.requested.owner in g.elements && w.staticFrom in g.elements
    && !g.IsLinked(w.requested) && !g.IsLinked(w.StaticPad())
  }

  /** Each wire of a session of consecutive ids goes from an rtpbin pad of its ids to a port element. */
  lemma SessionWireShape(r: ElementId, b: nat, videoId: nat, audioId: nat, i: nat)
    requires i < 6
    ensures var w := SessionWires(r, ElementsFrom(b), videoId, audioId)[i];
      && w.requested in IdPads(r, videoId) + IdPads(r, audioId) && w.requested.owner == r
      && w.staticFrom in {b, b + 6, b + 7, b + 8, b + 14, b + 15}
  {
    var vs := MediaWires(r, videoId, b, b + 6, b + 7);
    var aw := MediaWires(r, audioId, b + 8, b + 14, b + 15);
    assert SessionWires(r, ElementsFrom(b), videoId, audioId) == vs + aw;
    if i < 3 {
      assert (vs + aw)[i] == vs[i];
    } else {
      assert (vs + aw)[i] == aw[i - 3];
    }
  }

  /** One wire, with its request pad on rtpbin and its static pad on a port element, is still free after the chains are linked. */
  lemma WireReady(g0: Graph, g: Graph, r: ElementId, b: nat, videoId: nat, audioId: nat, w: Wire)
    requires ChainsJustLinked(g0, g, r, b, videoId, audioId)
    requires w.requested in IdPads(r, videoId) + IdPads(r, audioId) && w.requested.owner == r
    requires w.staticFrom in {b, b + 6, b + 7, b + 8, b + 14, b + 15}
    ensures WireFree(g, w)
  {
    var e := ElementsFrom(b);
    MembersFrom(b);
    ChainsFrom(b);
    PadsOffChainsFree(g0, g, e, w.requested, w.StaticPad());
  }

  /**
   * Once the two chains are linked, the six wires of the session are free:
   * their request pads are neither handed out nor linked, and their static
   * pads are on port elements the chains do not touch.
   */
  lemma WiresReady(g0: Graph, g: Graph, r: ElementId, b: nat, videoId: nat, audioId: nat)
    requires ChainsJustLinked(g0, g, r, b, videoId, audioId)
    ensures WiresFree(g, SessionWires(r, ElementsFrom(b), videoId, audioId))
  {
    var ws := SessionWires(r, ElementsFrom(b), videoId, audioId);
    forall i | 0 <= i < 6
      ensures WireFree(g, ws[i])
    {
      SessionWireShape(r, b, videoId, audioId, i);
      WireReady(g0, g, r, b, videoId, audioId, ws[i]);
    }
  }

  /**
   * The graph add_incoming_source leaves on success, step by step: `gc` has
   * the sixteen elements of ids `b`.. in the bin and their two chains linked,
   * `gw` adds the six wires, and `g` the two handlers `vh` and `ah`.
   */
  ghost predicate AddSteps(g0: Graph, gc: Graph, gw: Graph, g: Graph, r: ElementId, videoId: nat, audioId: nat,
                           vh: HandlerId, ah: HandlerId, vtarget: object, atarget: object)
  {
    var e := ElementsFrom(g0.nextId);
    && gc.elements == g0.elements + e.Members() && gc.requested == g0.requested && gc.handlers == g0.handlers
    && gc.links == g0.links + ChainLinks(e.VideoChain()) + ChainLinks(e.AudioChain())
    && gw == WiredAll(gc, SessionWires(r, e, videoId, audioId))
    && g.elements == gw.elements && g.requested == gw.requested && g.links == gw.links
    && vh == g0.nextHandler && ah == vh + 1
    && g.handlers == g0.handlers[vh := Handler(r, vtarget)][ah := Handler(r, atarget)]
  }

  /** Before the elements are added: rtpbin and every linked pad belong to children, whose ids are all below `b`. */
  lemma BelowNext(g0: Graph, r: ElementId)
    requires g0.Valid() && r in g0.elements
    ensures r < g0.nextId
    ensures Untouched(g0.links, ElementsFrom(g0.nextId).Members())
    ensures ElementsFrom(g0.nextId).Members() !! g0.elements
    ensures forall l :: l in g0.links ==> l.src.owner < g0.nextId && l.sink.owner < g0.nextId
  {
    MembersFrom(g0.nextId);
  }

  /** The session's request pads and links are those of the six wires. */
  lemma SessionOfSets(r: ElementId, b: nat, videoId: nat, audioId: nat, vh: HandlerId, ah: HandlerId)
    ensures var s := SessionOf(r, ElementsFrom(b), videoId, audioId, vh, ah);
            var ws := SessionWires(r, ElementsFrom(b), videoId, audioId);
      && s.Wires() == ws
      && s.RequestPads() == (set w | w in ws :: w.requested) == IdPads(r, videoId) + IdPads(r, audioId)
      && s.RequestLinks() == (set w | w in ws :: w.Link())
  {
    SessionOfWires(r, ElementsFrom(b), videoId, audioId, vh, ah);
    SessionOfRequestPads(r, ElementsFrom(b), videoId, audioId, vh, ah);
  }

  /**
   * The pipeline add_incoming_source leaves on success has the session
   * installed: its elements, request pads and handlers added, and only links
   * that involve it.
   */
  lemma AddInstalls(g0: Graph, gc: Graph, gw: Graph, g: Graph, r: ElementId, videoId: nat, audioId: nat,
                    vh: HandlerId, ah: HandlerId, vtarget: object, atarget: object)
    requires g0.Valid() && r in g0.elements
    requires videoId != audioId && SlotsFree(g0, r, videoId, audioId)
    requires AddSteps(g0, gc, gw, g, r, videoId, audioId, vh, ah, vtarget, atarget)
    ensures Installed(g0, g, r, SessionOf(r, ElementsFrom(g0.nextId), videoId, audioId, vh, ah), vtarget, atarget)
  {
    var b := g0.nextId;
    var e := ElementsFrom(b);
    var s := SessionOf(r, e, videoId, audioId, vh, ah);
    var ws := SessionWires(r, e, videoId, audioId);
    BelowNext(g0, r);
    MembersFrom(b);
    ElementsFromDistinct(b);
    SessionOfApart(r, e, videoId, audioId, vh, ah);
    SessionOfSets(r, b, videoId, audioId, vh, ah);
    assert ChainsJustLinked(g0, gc, r, b, videoId, audioId);
    WiresReady(g0, gc, r, b, videoId, audioId);
    WiredAllFresh(gc, ws);
    SessionPadsOnBin(g0, r, b, videoId, audioId, vh, ah);
    SessionStatics(r, b, videoId, audioId, vh, ah);
    assert g.links == gc.links + s.RequestLinks();
    InstalledLinks(g0, gc, g, r, s);
  }

  /** The six request pads of a session belong to rtpbin and, with room for its ids, are free. */
  lemma SessionPadsOnBin(g0: Graph, r: ElementId, b: nat, videoId: nat, audioId: nat, vh: HandlerId, ah: HandlerId)
    requires SlotsFree(g0, r, videoId, audioId)
    ensures forall p :: p in SessionOf(r, ElementsFrom(b), videoId, audioId, vh, ah).RequestPads() ==>
      p.owner == r && !g0.IsLinked(p) && p !in g0.requested
  {
    var s := SessionOf(r, ElementsFrom(b), videoId, audioId, vh, ah);
    forall p | p in s.RequestPads()
      ensures p.owner == r && !g0.IsLinked(p) && p !in g0.requested
    {
      var w :| w in s.Wires() && p == w.requested;
      assert p in IdPads(r, videoId) + IdPads(r, audioId);
    }
  }

  /** Every static pad a session wires belongs to one of its elements. */
  lemma SessionStatics(r: ElementId, b: nat, videoId: nat, audioId: nat, vh: HandlerId, ah: HandlerId)
    ensures forall w :: w in SessionOf(r, ElementsFrom(b), videoId, audioId, vh, ah).Wires() ==> w.staticFrom in ElementsFrom(b).Members()
  {
    MembersFrom(b);
  }

  /** The links of the installed session: the old ones, the chain links and the wire links, each new one involving the session. */
  lemma InstalledLinks(g0: Graph, gc: Graph, g: Graph, r: ElementId, s: Session)
    requires g0.Valid() && r in g0.elements && r < g0.nextId
    requires s.elems == ElementsFrom(g0.nextId)
    requires forall p :: p in s.RequestPads() ==> p.owner == r && !g0.IsLinked(p)
    requires gc.links == g0.links + ChainLinks(s.elems.VideoChain()) + ChainLinks(s.elems.AudioChain())
    requires g.elements == g0.elements + s.elems.Members()
    requires g.links == gc.links + s.RequestLinks()
    requires forall w :: w in s.Wires() ==> w.staticFrom in s.elems.Members()
    ensures LinksInBin(g) && g0.links <= g.links
    ensures forall l :: l in g0.links ==> !s.Involves(l)
    ensures forall l :: l in g.links && l !in g0.links ==> s.Involves(l)
  {
    forall l | l in g.links
      ensures l.src.owner in g.elements && l.sink.owner in g.elements
      ensures l !in g0.links ==> s.Involves(l)
    {
      if l !in g0.links {
        NewLinkInvolves(g0, gc, g, r, s, l);
      }
    }
    forall l | l in g0.links
      ensures !s.Involves(l)
    {
      OldLinkApart(g0, r, s, l);
    }
  }

  /** A link the session adds is a chain link or a wire link: it involves the session and stays inside the bin. */
  lemma NewLinkInvolves(g0: Graph, gc: Graph, g: Graph, r: ElementId, s: Session, l: PadLink)
    requires r in g0.elements
    requires s.elems == ElementsFrom(g0.nextId)
    requires forall p :: p in s.RequestPads() ==> p.owner == r
    requires gc.links == g0.links + ChainLinks(s.elems.VideoChain()) + ChainLinks(s.elems.AudioChain())
    requires g.elements == g0.elements + s.elems.Members()
    requires g.links == gc.links + s.RequestLinks()
    requires forall w :: w in s.Wires() ==> w.staticFrom in s.elems.Members()
    requires l in g.links && l !in g0.links
    ensures s.Involves(l) && l.src.owner in g.elements && l.sink.owner in g.elements
  {
    if l in ChainLinks(s.elems.VideoChain()) {
      ChainLinkInBin(g0.nextId, s.elems.VideoChain(), l);
    } else if l in ChainLinks(s.elems.AudioChain()) {
      ChainLinkInBin(g0.nextId, s.elems.AudioChain(), l);
    } else {
      WireLinkInvolves(s, r, l);
    }
  }

  /** A wire link touches one of the session's request pads and joins its static pad's owner to the request pad's. */
  lemma WireLinkInvolves(s: Session, r: ElementId, l: PadLink)
    requires l in s.RequestLinks()
    requires forall p :: p in s.RequestPads() ==> p.owner == r
    requires forall w :: w in s.Wires() ==> w.staticFrom in s.elems.Members()
    ensures l.src in s.RequestPads() || l.sink in s.RequestPads()
    ensures l.src.owner == r || l.src.owner in s.elems.Members()
    ensures l.sink.owner == r || l.sink.owner in s.elems.Members()
  {
    var w :| w in s.Wires() && l == w.Link();
    assert w.requested in s.RequestPads();
  }

  /** A link of either chain joins two of the new elements. */
  lemma ChainLinkInBin(b: nat, chain: seq<ElementId>, l: PadLink)
    requires chain == ElementsFrom(b).VideoChain() || chain == ElementsFrom(b).AudioChain()
    requires l in ChainLinks(chain)
    ensures l.src.owner in ElementsFrom(b).Members() && l.sink.owner in ElementsFrom(b).Members()
  {
    MembersFrom(b);
    ChainsFrom(b);
    ChainLinkOwners(chain, l);
  }

  /** A link that was there before touches neither the new elements nor the free request pads. */
  lemma OldLinkApart(g0: Graph, r: ElementId, s: Session, l: PadLink)
    requires g0.Valid() && l in g0.links
    requires s.elems == ElementsFrom(g0.nextId)
    requires forall p :: p in s.RequestPads() ==> !g0.IsLinked(p)
    ensures !s.Involves(l)
  {
    MembersFrom(g0.nextId);
    assert Touches(l, l.src) && Touches(l, l.sink);
  }

  /**
   * add_incoming_source (receiver.c:102-250). Without a child named
   * "rtpbin" nothing happens. The sixteen factory calls come next; when one
   * of them fails nothing is added. Otherwise the elements join the bin and
   * the two chains are linked; a failed link leaves the elements and the
   * links made so far in place. Then the six request pads are linked, the two
   * bindings are set up on the depayloaders' sink pads, and two "pad-added"
   * handlers are connected on rtpbin. The session returned is then installed
   * on the pipeline, so that remove_incoming_source gives the pipeline back.
   * `made`, `videoNegotiable` and `audioNegotiable` stand for the outcomes of
   * the factory calls and of caps negotiation, as in CreateElements and
   * LinkChains.
   */
  method AddIncomingSource(pipe: Pipe, config: ReceiverConfig, bins: SinkBins, made: seq<bool>,
                           videoNegotiable: nat, audioNegotiable: nat) returns (data: SourceData?)
    requires pipe.Valid() && |made| == 16
    requires config.videoId != config.audioId
    requires pipe.g.ChildNamed("rtpbin").Some? ==>
               SlotsFree(pipe.g, pipe.g.ChildNamed("rtpbin").value, config.videoId, config.audioId)
    modifies pipe
    ensures pipe.Valid() && unchanged(pipe`latency, pipe`state, pipe`calls) && pipe.g.states == old(pipe.g.states)
    ensures data != null <==>
              old(pipe.g.ChildNamed("rtpbin")).Some? && AllMade(made) && videoNegotiable >= 4 && audioNegotiable >= 4
    ensures old(pipe.g.ChildNamed("rtpbin")).None? ==> pipe.g == old(pipe.g)
    ensures !AllMade(made) ==> SameTopology(old(pipe.g), pipe.g)
    ensures old(pipe.g.ChildNamed("rtpbin")).Some? && AllMade(made) ==>
              pipe.g.elements == old(pipe.g.elements) + ElementsFrom(old(pipe.g.nextId)).Members()
    ensures data != null ==>
              && fresh(data) && fresh(data.video) && fresh(data.audio)
              && data.pipe == pipe && data.config == config && data.elems == ElementsFrom(old(pipe.g.nextId))
              && data.Wired() && data.video.source == None && data.audio.source == None
              && Installed(old(pipe.g), pipe.g, old(pipe.g.ChildNamed("rtpbin")).value, data.AsSession(), data.video, data.audio)
              && SinksReady(pipe.g, data.elems, config)
  {
    ghost var g0 := pipe.g;
    var rtpbin := pipe.GetByName("rtpbin");
    if rtpbin.None? {
      return null;
    }
    var r := rtpbin.value;
    ghost var b := g0.nextId;
    var elems := CreateElements(pipe, config, bins, made);
    if elems.None? {
      return null;
    }
    var e := elems.value;
    CreatedOutside(g0, config, bins);
    CreatedNamesFresh(g0, r, config, bins);
    ElementsFromDistinct(b);
    BelowNext(g0, r);
    AddSessionElements(pipe, e);
    var linked := LinkChains(pipe, e, videoNegotiable, audioNegotiable);
    if !linked {
      return null;
    }
    data := WireSession(pipe, r, config, e, g0);
    SinksReadyFrom(g0, pipe.g, config, bins);
  }

  /** The two appsinks are the bin's children of their names, and their sink pads are linked. */
  ghost predicate SinksReady(g: Graph, e: Elements, config: ReceiverConfig)
  {
    && g.ChildNamed(VideoSinkName(config.videoId)) == Some(e.vsink)
    && g.ChildNamed(AudioSinkName(config.audioId)) == Some(e.asink)
    && g.IsLinked(Pad(e.vsink, "sink")) && g.IsLinked(Pad(e.asink, "sink"))
  }

  /**
   * Once the session's elements are children carrying the names the factory
   * calls gave them and both chains are linked, each appsink is found by its
   * name and its sink pad has a peer.
   */
  lemma SinksReadyFrom(g0: Graph, g: Graph, config: ReceiverConfig, bins: SinkBins)
    requires g.Valid() && g.names == WithElements(g0, config, bins).names
    requires ElementsFrom(g0.nextId).Members() <= g.elements
    requires ChainLinks(ElementsFrom(g0.nextId).VideoChain()) + ChainLinks(ElementsFrom(g0.nextId).AudioChain()) <= g.links
    ensures SinksReady(g, ElementsFrom(g0.nextId), config)
  {
    var e := ElementsFrom(g0.nextId);
    WithElementsNames(g0, config, bins);
    SinkFound(g, e.vsink, VideoSinkName(config.videoId));
    SinkFound(g, e.asink, AudioSinkName(config.audioId));
    ChainEndLinked(g, e.VideoChain());
    ChainEndLinked(g, e.AudioChain());
  }

  /** A child carrying name `n` is the one the bin returns for `n`. */
  lemma SinkFound(g: Graph, x: ElementId, n: string)
    requires g.Valid() && x in g.elements && x in g.names && g.names[x] == n
    ensures g.ChildNamed(n) == Some(x)
  {
    assert g.HasChildNamed(x, n);
  }

  /** Once a chain of five is linked, the sink pad of its last element has a peer. */
  lemma ChainEndLinked(g: Graph, chain: seq<ElementId>)
    requires |chain| == 5 && ChainLinks(chain) <= g.links
    ensures g.IsLinked(Pad(chain[4], "sink"))
  {
    var l := PadLink(Pad(chain[3], "src"), Pad(chain[4], "sink"));
    assert l in ChainLinks(chain);
    assert Touches(l, Pad(chain[4], "sink"));
  }

  /**
   * The tail of add_incoming_source once both chains are linked
   * (receiver.c:222-249): the six link_pads calls, the two bindings on the
   * depayloaders' sink pads, and the two "pad-added" handlers on rtpbin.
   */
  method WireSession(pipe: Pipe, r: ElementId, config: ReceiverConfig, e: Elements, ghost g0: Graph) returns (data: SourceData)
    requires pipe.Valid() && g0.Valid() && r in g0.elements
    requires config.videoId != config.audioId && SlotsFree(g0, r, config.videoId, config.audioId)
    requires e == ElementsFrom(g0.nextId)
    requires pipe.g.elements == g0.elements + e.Members() && pipe.g.requested == g0.requested
    requires pipe.g.handlers == g0.handlers && pipe.g.nextHandler == g0.nextHandler
    requires pipe.g.links == g0.links + ChainLinks(e.VideoChain()) + ChainLinks(e.AudioChain())
    modifies pipe
    ensures pipe.Valid() && unchanged(pipe`latency, pipe`state, pipe`calls)
    ensures fresh(data) && fresh(data.video) && fresh(data.audio)
    ensures data.pipe == pipe && data.config == config && data.elems == e
    ensures data.Wired() && data.video.source == None && data.audio.source == None
    ensures Installed(g0, pipe.g, r, data.AsSession(), data.video, data.audio)
    ensures pipe.g.names == old(pipe.g.names) && pipe.g.elements == old(pipe.g.elements) && old(pipe.g.links) <= pipe.g.links
    ensures pipe.g.states == old(pipe.g.states)
  {
    ghost var gc := pipe.g;
    SessionWiresReady(g0, gc, r, config.videoId, config.audioId);
    var pads := LinkSessionPads(pipe, r, e, config.videoId, config.audioId);
    ghost var gw := pipe.g;
    WiredAllFresh(gc, SessionWires(r, e, config.videoId, config.audioId));
    data := BindSession(pipe, r, config, e, pads);
    SessionFromPads(r, e, config.videoId, config.audioId, data.videoHandler, data.audioHandler, pads);
    AddInstalls(g0, gc, gw, pipe.g, r, config.videoId, config.audioId, data.videoHandler, data.audioHandler, data.video, data.audio);
  }

  /** After the chains are linked, the six wires of the session are apart and free. */
  lemma SessionWiresReady(g0: Graph, gc: Graph, r: ElementId, videoId: nat, audioId: nat)
    requires g0.Valid() && r in g0.elements
    requires videoId != audioId && SlotsFree(g0, r, videoId, audioId)
    requires gc.elements == g0.elements + ElementsFrom(g0.nextId).Members() && gc.requested == g0.requested
    requires gc.links == g0.links + ChainLinks(ElementsFrom(g0.nextId).VideoChain()) + ChainLinks(ElementsFrom(g0.nextId).AudioChain())
    ensures r in gc.elements
    ensures PadsApart(SessionWires(r, ElementsFrom(g0.nextId), videoId, audioId))
    ensures WiresFree(gc, SessionWires(r, ElementsFrom(g0.nextId), videoId, audioId))
  {
    var b := g0.nextId;
    var e := ElementsFrom(b);
    BelowNext(g0, r);
    MembersFrom(b);
    assert ChainsJustLinked(g0, gc, r, b, videoId, audioId);
    WiresReady(g0, gc, r, b, videoId, audioId);
    ElementsFromDistinct(b);
    SessionOfPadsApart(r, e, videoId, audioId, 0, 1);
    SessionOfWires(r, e, videoId, audioId, 0, 1);
  }

  /**
   * The bindings of receiver.c:237-242 on the depayloaders' sink pads, and
   * the two handlers connected on rtpbin with them as user data.
   */
  method BindSession(pipe: Pipe, r: ElementId, config: ReceiverConfig, e: Elements, pads: seq<Pad>) returns (data: SourceData)
    requires pipe.Valid() && |pads| == 6
    modifies pipe
    ensures pipe.Valid() && unchanged(pipe`latency, pipe`state, pipe`calls)
    ensures fresh(data) && fresh(data.video) && fresh(data.audio)
    ensures data.pipe == pipe && data.config == config && data.elems == e
    ensures data.Wired() && data.video.source == None && data.audio.source == None
    ensures data.AsSession() == Session(e, pads[0], pads[1], pads[2], pads[3], pads[4], pads[5], data.videoHandler, data.audioHandler)
    ensures data.videoHandler == old(pipe.g.nextHandler) && data.audioHandler == data.videoHandler + 1
    ensures pipe.g == old(pipe.g).(handlers := old(pipe.g.handlers)[data.videoHandler := Handler(r, data.video)]
                                                                  [data.audioHandler := Handler(r, data.audio)],
                                   nextHandler := data.audioHandler + 1)
  {
    data := new SourceData(pipe, config, e, pads);
    ConnectBindings(data, r);
  }

  /** The two g_signal_connect calls of receiver.c:244-245 and the handler ids they store. */
  method ConnectBindings(data: SourceData, r: ElementId)
    requires data.pipe.Valid()
    modifies data.pipe, data
    ensures data.pipe.Valid() && unchanged(data.pipe`latency, data.pipe`state, data.pipe`calls)
    ensures data.videoHandler == old(data.pipe.g.nextHandler) && data.audioHandler == data.videoHandler + 1
    ensures data.pipe.g == old(data.pipe.g).(handlers := old(data.pipe.g.handlers)[data.videoHandler := Handler(r, data.video)]
                                                                                [data.audioHandler := Handler(r, data.audio)],
                                             nextHandler := data.audioHandler + 1)
  {
    var vh := data.pipe.Connect(r, data.video);
    var ah := data.pipe.Connect(r, data.audio);
    data.videoHandler := vh;
    data.audioHandler := ah;
  }

  /** The session whose request pads are those link_pads returned, in order, is the session of the two ids. */
  lemma SessionFromPads(r: ElementId, e: Elements, videoId: nat, audioId: nat, vh: HandlerId, ah: HandlerId, pads: seq<Pad>)
    requires pads == RequestedOf(SessionWires(r, e, videoId, audioId))
    ensures Session(e, pads[0], pads[1], pads[2], pads[3], pads[4], pads[5], vh, ah) == SessionOf(r, e, videoId, audioId, vh, ah)
  {
  }
}
