/**
 * One incoming session of the receiver (source_data_t in receiver/receiver.c)
 * as a value: its sixteen elements, its six rtpbin request pads and the two
 * "pad-added" handler ids; and the teardown remove_incoming_source performs,
 * as a function of the pipeline graph and as the sequence of detaching calls
 * it makes.
 */
module ReceiverSession {
  import opened Wrappers
  import opened GstGraph

  /** The sixteen elements of a session. */
  datatype Elements = Elements(
    vudpsrc: ElementId, vdepay: ElementId, vparse: ElementId, vdec: ElementId, vconv: ElementId,
    vsink: ElementId, vudpsrc1: ElementId, vudpsink: ElementId,
    audpsrc: ElementId, adepay: ElementId, adec: ElementId, aconv: ElementId, aresample: ElementId,
    asink: ElementId, audpsrc1: ElementId, audpsink: ElementId)
  {
    /** The order in which add_incoming_source creates them (receiver.c:117-183). */
    function Created(): (s: seq<ElementId>)
      ensures |s| == 16
    {
      [vudpsrc, vdepay, vparse, vdec, vconv, vsink, vudpsrc1, vudpsink,
       audpsrc, adepay, adec, aconv, aresample, asink, audpsrc1, audpsink]
    }

    /** The order of the gst_bin_add_many call (receiver.c:193-212). */
    function AddOrder(): (s: seq<ElementId>)
      ensures |s| == 16
    {
      [vudpsrc, vdepay, vparse, vdec, vconv, vudpsrc1, vudpsink, vsink,
       audpsrc, adepay, adec, aconv, aresample, audpsrc1, audpsink, asink]
    }

    /** SOURCE_ELEMS, the order used to change state and to remove (receiver.c:268-283). */
    function SourceElems(): (s: seq<ElementId>)
      ensures |s| == 16
    {
      [vudpsrc, vdepay, vparse, vdec, vconv, vsink, vudpsrc1, vudpsink,
       audpsrc, adepay, adec, aconv, aresample, asink, audpsink, audpsrc1]
    }

    function Members(): set<ElementId>
    {
      set e | e in Created()
    }

    /** The static chains linked by gst_element_link_many (receiver.c:213-214). */
    function VideoChain(): seq<ElementId>
    {
      [vdepay, vparse, vdec, vconv, vsink]
    }

    function AudioChain(): seq<ElementId>
    {
      [adepay, adec, aconv, aresample, asink]
    }

    predicate Distinct()
    {
      forall i, j :: 0 <= i < j < 16 ==> Created()[i] != Created()[j]
    }

    /** The element configured with ports[i] (receiver.c:125-126, 143, 146, 161, 177, 180). */
    function PortElement(i: nat): ElementId
      requires i < 6
    {
      [vudpsrc, vudpsrc1, vudpsink, audpsrc, audpsrc1, audpsink][i]
    }
  }

  /** Sixteen consecutive ids, in creation order. */
  function ElementsFrom(base: nat): (e: Elements)
    ensures e.Created() == seq(16, i requires 0 <= i < 16 => base + i)
  {
    Elements(base, base + 1, base + 2, base + 3, base + 4, base + 5, base + 6, base + 7,
             base + 8, base + 9, base + 10, base + 11, base + 12, base + 13, base + 14, base + 15)
  }

  /** Consecutive ids are sixteen different elements. */
  lemma ElementsFromDistinct(base: nat)
    ensures ElementsFrom(base).Distinct()
  {
  }

  /** The three orders name the same sixteen elements: remove takes out exactly what add put in. */
  lemma OrdersAgree(e: Elements)
    ensures forall x :: x in e.AddOrder() <==> x in e.Created()
    ensures forall x :: x in e.SourceElems() <==> x in e.Created()
  {
  }

  /** One request pad with the static pad it is wired to: link_pads(rtpbin, format, id, from, type). */
  datatype Wire = Wire(requested: Pad, staticFrom: ElementId, padType: string)
  {
    function StaticPad(): Pad
    {
      Pad(staticFrom, padType)
    }

    /** Static to requested for a "src" static pad, requested to static otherwise (receiver.c:10-17, 28-35). */
    function Link(): PadLink
    {
      if padType == "src" then PadLink(StaticPad(), requested) else PadLink(requested, StaticPad())
    }
  }

  datatype Session = Session(
    elems: Elements,
    vRecvRtpSink: Pad, vRecvRtcpSink: Pad, vSendRtcpSrc: Pad,
    aRecvRtpSink: Pad, aRecvRtcpSink: Pad, aSendRtcpSrc: Pad,
    videoHandler: HandlerId, audioHandler: HandlerId)
  {
    function VideoSink(): Pad { Pad(elems.vdepay, "sink") }
    function AudioSink(): Pad { Pad(elems.adepay, "sink") }

    /** The six request pads in the order they are requested and released (receiver.c:222-228, 317-323). */
    function Wires(): (w: seq<Wire>)
      ensures |w| == 6
    {
      [Wire(vRecvRtpSink, elems.vudpsrc, "src"), Wire(vRecvRtcpSink, elems.vudpsrc1, "src"),
       Wire(vSendRtcpSrc, elems.vudpsink, "sink"),
       Wire(aRecvRtpSink, elems.audpsrc, "src"), Wire(aRecvRtcpSink, elems.audpsrc1, "src"),
       Wire(aSendRtcpSrc, elems.audpsink, "sink")]
    }

    function RequestPads(): set<Pad>
    {
      set w | w in Wires() :: w.requested
    }

    function RequestLinks(): set<PadLink>
    {
      set w | w in Wires() :: w.Link()
    }

    /** A link that involves the session: one end on a session element or on a session request pad. */
    predicate Involves(l: PadLink)
    {
      l.src.owner in elems.Members() || l.sink.owner in elems.Members()
      || l.src in RequestPads() || l.sink in RequestPads()
    }

    /** Sixteen distinct elements, none of them the rtpbin that owns the request pads. */
    ghost predicate WellFormed(rtpbin: ElementId)
    {
      && elems.Distinct()
      && rtpbin !in elems.Members()
      && (forall p :: p in RequestPads() ==> p.owner == rtpbin)
      && videoHandler != audioHandler
    }
  }

  /** The calls set_state_many makes on a NULL-free list. */
  function StateCalls(es: seq<ElementId>, st: ElementState): (c: seq<Call>)
    ensures |c| == |es| && forall i :: 0 <= i < |es| ==> c[i] == StateSet(es[i], st)
  {
    seq(|es|, i requires 0 <= i < |es| => StateSet(es[i], st))
  }

  /** unlink_release_and_unref: unlink in the wiring direction, then release the request pad. */
  function UnlinkReleased(g: Graph, rtpbin: Option<ElementId>, w: Wire): Graph
  {
    g.Unlinked(w.Link().src, w.Link().sink).Released(rtpbin, w.requested)
  }

  function UnlinkReleaseCalls(rtpbin: Option<ElementId>, w: Wire): seq<Call>
  {
    [PadsUnlinked(w.Link().src, w.Link().sink)] + if rtpbin.Some? then [PadReleased(w.requested)] else []
  }

  /** The six unlink_release_and_unref calls of receiver.c:317-323. */
  function ReleasedWires(g: Graph, rtpbin: Option<ElementId>, w: seq<Wire>): Graph
    decreases |w|
  {
    if w == [] then g else UnlinkReleased(ReleasedWires(g, rtpbin, w[..|w| - 1]), rtpbin, w[|w| - 1])
  }

  function ReleaseCalls(rtpbin: Option<ElementId>, w: seq<Wire>): seq<Call>
    decreases |w|
  {
    if w == [] then [] else ReleaseCalls(rtpbin, w[..|w| - 1]) + UnlinkReleaseCalls(rtpbin, w[|w| - 1])
  }

  /** receiver.c:302-315: for a media kind with a recorded source, unlink it and release the sink pad. */
  function DroppedDynamic(g: Graph, rtpbin: Option<ElementId>, source: Option<Pad>, sink: Pad): Graph
  {
    if source.Some? then g.Unlinked(source.value, sink).Released(rtpbin, sink) else g
  }

  function DynamicCalls(rtpbin: Option<ElementId>, source: Option<Pad>, sink: Pad): seq<Call>
  {
    if source.Some? then [PadsUnlinked(source.value, sink)] + (if rtpbin.Some? then [PadReleased(sink)] else [])
    else []
  }

  /**
   * remove_incoming_source as a function of the graph: `rtpbin` is the result
   * of the lookup by name, `vsource`/`asource` the sources the two bindings
   * recorded.
   */
  function Teardown(g: Graph, rtpbin: Option<ElementId>, s: Session, vsource: Option<Pad>, asource: Option<Pad>): Graph
  {
    RemovedAll(ReleasedWires(Detached(g, rtpbin, s, vsource, asource), rtpbin, s.Wires()), s.elems.SourceElems())
  }

  /** The first three steps of the teardown: handlers, states, recorded sources (receiver.c:297-315). */
  function Detached(g: Graph, rtpbin: Option<ElementId>, s: Session, vsource: Option<Pad>, asource: Option<Pad>): Graph
  {
    var g1 := g.Disconnected(rtpbin, s.videoHandler).Disconnected(rtpbin, s.audioHandler);
    var g2 := g1.(states := AllSet(g1.states, s.elems.SourceElems(), Null));
    var g3 := DroppedDynamic(g2, rtpbin, vsource, s.VideoSink());
    DroppedDynamic(g3, rtpbin, asource, s.AudioSink())
  }

  function DisconnectCalls(rtpbin: Option<ElementId>, s: Session): seq<Call>
  {
    if rtpbin.Some? then [HandlerDisconnected(s.videoHandler), HandlerDisconnected(s.audioHandler)] else []
  }

  /** The detaching calls of remove_incoming_source, in the order it makes them. */
  function TeardownCalls(rtpbin: Option<ElementId>, s: Session, vsource: Option<Pad>, asource: Option<Pad>): seq<Call>
  {
    DisconnectCalls(rtpbin, s)
    + StateCalls(s.elems.SourceElems(), Null)
    + DynamicCalls(rtpbin, vsource, s.VideoSink())
    + DynamicCalls(rtpbin, asource, s.AudioSink())
    + ReleaseCalls(rtpbin, s.Wires())
    + RemoveCalls(s.elems.SourceElems())
  }
}

module ReceiverTeardown {
  import opened Wrappers
  import opened GstGraph
  import opened ReceiverSession

  /** The recorded-source step only takes away links into that sink and, at most, the sink pad itself. */
  lemma DroppedDynamicFacts(g: Graph, rtpbin: Option<ElementId>, source: Option<Pad>, sink: Pad)
    ensures var r := DroppedDynamic(g, rtpbin, source, sink);
      && r == g.(links := r.links, requested := r.requested)
      && r.links <= g.links
      && (forall l :: l in g.links && !Touches(l, sink) ==> l in r.links)
      && r.requested == if source.Some? && rtpbin == Some(sink.owner) then g.requested - {sink} else g.requested
  {
  }

  lemma UnlinkReleasedFacts(g: Graph, rtpbin: Option<ElementId>, w: Wire)
    ensures var r := UnlinkReleased(g, rtpbin, w);
      && r == g.(links := r.links, requested := r.requested)
      && r.links <= g.links
      && PadLink(w.Link().src, w.Link().sink) !in r.links
      && (forall l :: l in g.links && !Touches(l, w.requested) ==> l in r.links)
      && (rtpbin == Some(w.requested.owner) && w.requested in g.requested ==>
            r.requested == g.requested - {w.requested} && forall l :: l in r.links ==> !Touches(l, w.requested))
      && (!(rtpbin == Some(w.requested.owner) && w.requested in g.requested) ==> r.requested == g.requested)
  {
  }

  /**
   * Releasing the wires keeps every link that touches none of their request
   * pads and, when rtpbin was found, gives back every request pad it owns and
   * leaves no link on it.
   */
  lemma {:induction false} ReleasedWiresFacts(g: Graph, rtpbin: Option<ElementId>, ws: seq<Wire>)
    ensures var r := ReleasedWires(g, rtpbin, ws);
      && r == g.(links := r.links, requested := r.requested)
      && r.links <= g.links
      && (forall l :: l in g.links && (forall w :: w in ws ==> !Touches(l, w.requested)) ==> l in r.links)
      && (forall p :: p in r.requested <==> p in g.requested && !(rtpbin == Some(p.owner) && exists w :: w in ws && w.requested == p))
      && (forall l, w :: l in r.links && w in ws && rtpbin == Some(w.requested.owner) && w.requested in g.requested ==> !Touches(l, w.requested))
    decreases |ws|
  {
    if ws != [] {
      var init := ws[..|ws| - 1];
      var last := ws[|ws| - 1];
      ReleasedWiresFacts(g, rtpbin, init);
      var m := ReleasedWires(g, rtpbin, init);
      UnlinkReleasedFacts(m, rtpbin, last);
      assert forall w :: w in ws <==> w in init || w == last;
    }
  }

  lemma DetachedFacts(g: Graph, rtpbin: Option<ElementId>, s: Session, vsource: Option<Pad>, asource: Option<Pad>)
    requires rtpbin.Some? ==> s.WellFormed(rtpbin.value)
    ensures var d := Detached(g, rtpbin, s, vsource, asource);
      && d == g.(links := d.links, handlers := d.handlers, states := d.states)
      && d.links <= g.links
      && (forall l :: l in g.links && !Touches(l, s.VideoSink()) && !Touches(l, s.AudioSink()) ==> l in d.links)
      && (forall h :: h in d.handlers <==>
            (h in g.handlers && !(rtpbin.Some? && (h == s.videoHandler || h == s.audioHandler) && g.handlers[h].instance == rtpbin.value)))
      && (forall h :: h in d.handlers ==> d.handlers[h] == g.handlers[h])
      && d.states == AllSet(g.states, s.elems.SourceElems(), Null)
  {
    var g1 := g.Disconnected(rtpbin, s.videoHandler).Disconnected(rtpbin, s.audioHandler);
    var g2 := g1.(states := AllSet(g1.states, s.elems.SourceElems(), Null));
    var g3 := DroppedDynamic(g2, rtpbin, vsource, s.VideoSink());
    DroppedDynamicFacts(g2, rtpbin, vsource, s.VideoSink());
    DroppedDynamicFacts(g3, rtpbin, asource, s.AudioSink());
    if rtpbin.Some? {
      assert s.VideoSink().owner in s.elems.Created() && s.AudioSink().owner in s.elems.Created();
    }
  }

  /** Exactly the session's elements leave the bin, and only links, request pads, handlers and states change. */
  lemma TeardownElements(g: Graph, rtpbin: Option<ElementId>, s: Session, vsource: Option<Pad>, asource: Option<Pad>)
    requires LinksInBin(g)
    requires rtpbin.Some? ==> s.WellFormed(rtpbin.value)
    ensures var t := Teardown(g, rtpbin, s, vsource, asource);
      && t == g.(elements := t.elements, links := t.links, requested := t.requested,
                 handlers := t.handlers, states := t.states)
      && t.elements == g.elements - s.elems.Members()
      && (forall h :: h in t.handlers <==>
            (h in g.handlers && !(rtpbin.Some? && (h == s.videoHandler || h == s.audioHandler) && g.handlers[h].instance == rtpbin.value)))
      && (forall h :: h in t.handlers ==> t.handlers[h] == g.handlers[h])
      && t.states == AllSet(g.states, s.elems.SourceElems(), Null)
  {
    var d := Detached(g, rtpbin, s, vsource, asource);
    DetachedFacts(g, rtpbin, s, vsource, asource);
    var g5 := ReleasedWires(d, rtpbin, s.Wires());
    ReleasedWiresFacts(d, rtpbin, s.Wires());
    assert LinksInBin(g5);
    RemovedAllFacts(g5, s.elems.SourceElems());
    OrdersAgree(s.elems);
  }

  /** Every session element ends in NULL; every other element keeps its state. */
  lemma TeardownStates(g: Graph, rtpbin: Option<ElementId>, s: Session, vsource: Option<Pad>, asource: Option<Pad>)
    requires LinksInBin(g)
    requires rtpbin.Some? ==> s.WellFormed(rtpbin.value)
    ensures var t := Teardown(g, rtpbin, s, vsource, asource);
      && (forall e :: e in s.elems.Members() ==> e in t.states && t.states[e] == Null)
      && (forall e :: e in g.states && e !in s.elems.Members() ==> e in t.states && t.states[e] == g.states[e])
  {
    TeardownElements(g, rtpbin, s, vsource, asource);
    AllSetFacts(g.states, s.elems.SourceElems(), Null);
    OrdersAgree(s.elems);
  }

  /**
   * No link touches a session element afterwards; links not involving the
   * session stay; with rtpbin found and the pads handed out, no link is left
   * on the request pads either.
   */
  lemma TeardownLinks(g: Graph, rtpbin: Option<ElementId>, s: Session, vsource: Option<Pad>, asource: Option<Pad>)
    requires LinksInBin(g)
    requires rtpbin.Some? ==> s.WellFormed(rtpbin.value)
    ensures var t := Teardown(g, rtpbin, s, vsource, asource);
      && (forall l :: l in t.links ==> l in g.links && l.src.owner !in s.elems.Members() && l.sink.owner !in s.elems.Members())
      && (forall l :: l in g.links && !s.Involves(l) ==> l in t.links)
      && (rtpbin.Some? && s.RequestPads() <= g.requested ==> forall l :: l in t.links ==> !s.Involves(l))
  {
    TeardownLinksLeft(g, rtpbin, s, vsource, asource);
    var t := Teardown(g, rtpbin, s, vsource, asource);
    forall l | l in g.links && !s.Involves(l)
      ensures l in t.links
    {
      TeardownKeeps(g, rtpbin, s, vsource, asource, l);
    }
  }

  /** The links left after teardown were there before and touch no session element. */
  lemma TeardownLinksLeft(g: Graph, rtpbin: Option<ElementId>, s: Session, vsource: Option<Pad>, asource: Option<Pad>)
    requires LinksInBin(g)
    requires rtpbin.Some? ==> s.WellFormed(rtpbin.value)
    ensures var t := Teardown(g, rtpbin, s, vsource, asource);
      && (forall l :: l in t.links ==> l in g.links && l.src.owner !in s.elems.Members() && l.sink.owner !in s.elems.Members())
      && (rtpbin.Some? && s.RequestPads() <= g.requested ==> forall l :: l in t.links ==> !s.Involves(l))
  {
    var d := Detached(g, rtpbin, s, vsource, asource);
    DetachedFacts(g, rtpbin, s, vsource, asource);
    var g5 := ReleasedWires(d, rtpbin, s.Wires());
    ReleasedWiresFacts(d, rtpbin, s.Wires());
    assert LinksInBin(g5);
    RemovedAllFacts(g5, s.elems.SourceElems());
    OrdersAgree(s.elems);
    var t := Teardown(g, rtpbin, s, vsource, asource);
    if rtpbin.Some? && s.RequestPads() <= g.requested {
      forall l | l in t.links
        ensures !s.Involves(l)
      {
        forall w | w in s.Wires()
          ensures !Touches(l, w.requested)
        {
          assert w.requested in s.RequestPads();
        }
      }
    }
  }

  /** A link that does not involve the session survives its teardown. */
  lemma TeardownKeeps(g: Graph, rtpbin: Option<ElementId>, s: Session, vsource: Option<Pad>, asource: Option<Pad>, l: PadLink)
    requires LinksInBin(g)
    requires rtpbin.Some? ==> s.WellFormed(rtpbin.value)
    requires l in g.links && !s.Involves(l)
    ensures l in Teardown(g, rtpbin, s, vsource, asource).links
  {
    var d := Detached(g, rtpbin, s, vsource, asource);
    KeptByDetach(g, rtpbin, s, vsource, asource, l);
    var g5 := ReleasedWires(d, rtpbin, s.Wires());
    KeptByRelease(d, rtpbin, s, l);
    KeptByRemove(g5, s, l);
  }

  /** Detaching keeps the links that do not involve the session, and keeps links inside the bin. */
  lemma KeptByDetach(g: Graph, rtpbin: Option<ElementId>, s: Session, vsource: Option<Pad>, asource: Option<Pad>, l: PadLink)
    requires LinksInBin(g)
    requires rtpbin.Some? ==> s.WellFormed(rtpbin.value)
    requires l in g.links && !s.Involves(l)
    ensures l in Detached(g, rtpbin, s, vsource, asource).links && LinksInBin(Detached(g, rtpbin, s, vsource, asource))
  {
    assert s.elems.vdepay in s.elems.Created() && s.elems.adepay in s.elems.Created();
    DetachedFacts(g, rtpbin, s, vsource, asource);
  }

  /** Releasing the six request pads keeps the links that do not involve the session, and keeps links inside the bin. */
  lemma KeptByRelease(d: Graph, rtpbin: Option<ElementId>, s: Session, l: PadLink)
    requires LinksInBin(d)
    requires l in d.links && !s.Involves(l)
    ensures l in ReleasedWires(d, rtpbin, s.Wires()).links && LinksInBin(ReleasedWires(d, rtpbin, s.Wires()))
  {
    ReleasedWiresFacts(d, rtpbin, s.Wires());
    assert forall w :: w in s.Wires() ==> w.requested in s.RequestPads();
  }

  /** Removing the sixteen elements keeps the links that do not involve the session. */
  lemma KeptByRemove(g: Graph, s: Session, l: PadLink)
    requires LinksInBin(g)
    requires l in g.links && !s.Involves(l)
    ensures l in RemovedAll(g, s.elems.SourceElems()).links
  {
    RemovedAllFacts(g, s.elems.SourceElems());
    OrdersAgree(s.elems);
  }

  /** With rtpbin found the six request pads are given back; without it none is. */
  lemma TeardownRequested(g: Graph, rtpbin: Option<ElementId>, s: Session, vsource: Option<Pad>, asource: Option<Pad>)
    requires LinksInBin(g)
    requires rtpbin.Some? ==> s.WellFormed(rtpbin.value)
    ensures var t := Teardown(g, rtpbin, s, vsource, asource);
      && (rtpbin.Some? ==> t.requested == g.requested - s.RequestPads())
      && (rtpbin.None? ==> t.requested == g.requested)
  {
    var d := Detached(g, rtpbin, s, vsource, asource);
    DetachedFacts(g, rtpbin, s, vsource, asource);
    var g5 := ReleasedWires(d, rtpbin, s.Wires());
    ReleasedWiresFacts(d, rtpbin, s.Wires());
    assert LinksInBin(g5);
    RemovedAllFacts(g5, s.elems.SourceElems());
    var t := Teardown(g, rtpbin, s, vsource, asource);
    if rtpbin.Some? {
      forall p
        ensures p in t.requested <==> p in g.requested && p !in s.RequestPads()
      {
        if p in s.RequestPads() {
          var w :| w in s.Wires() && w.requested == p;
        }
      }
    }
  }

  /**
   * Add then remove restores the pipeline. `g1` is `g0` with the session
   * installed: its elements in the bin, its request pads handed out, its two
   * handlers connected on rtpbin, and any number of links added that involve
   * the session (the static chains, the request-pad wiring, the pads bound by
   * cb_new_pad). Tearing `g1` down gives back `g0`'s elements, links, request
   * pads and handlers, whatever sources the bindings recorded.
   */
  lemma AddRemoveRestores(g0: Graph, g1: Graph, r: ElementId, s: Session, vsource: Option<Pad>, asource: Option<Pad>,
                          vtarget: object, atarget: object)
    requires Installed(g0, g1, r, s, vtarget, atarget)
    ensures var t := Teardown(g1, Some(r), s, vsource, asource);
      && t.elements == g0.elements && t.links == g0.links
      && t.requested == g0.requested && t.handlers == g0.handlers
  {
    var t := Teardown(g1, Some(r), s, vsource, asource);
    TeardownElements(g1, Some(r), s, vsource, asource);
    TeardownLinks(g1, Some(r), s, vsource, asource);
    TeardownRequested(g1, Some(r), s, vsource, asource);
    assert t.links == g0.links by {
      forall l | l in t.links ensures l in g0.links {
        assert !s.Involves(l);
      }
    }
    assert t.handlers == g0.handlers by {
      forall h ensures h in t.handlers <==> h in g0.handlers {
      }
      forall h | h in t.handlers ensures t.handlers[h] == g0.handlers[h] {
        assert t.handlers[h] == g1.handlers[h];
      }
    }
  }

  /**
   * `g1` is `g0` with session `s` installed on rtpbin `r`: its elements in the
   * bin, its request pads handed out, its two handlers connected on `r` with
   * the two bindings as user data, and only links involving the session added.
   */
  ghost predicate Installed(g0: Graph, g1: Graph, r: ElementId, s: Session, vtarget: object, atarget: object)
  {
    && s.WellFormed(r)
    && LinksInBin(g1)
    && s.elems.Members() !! g0.elements
    && s.RequestPads() !! g0.requested
    && (forall l :: l in g0.links ==> !s.Involves(l))
    && s.videoHandler !in g0.handlers && s.audioHandler !in g0.handlers
    && g1.elements == g0.elements + s.elems.Members()
    && g1.requested == g0.requested + s.RequestPads()
    && g1.handlers == g0.handlers[s.videoHandler := Handler(r, vtarget)][s.audioHandler := Handler(r, atarget)]
    && g0.links <= g1.links
    && (forall l :: l in g1.links && l !in g0.links ==> s.Involves(l))
  }

  /** Handlers first, then states, then pads, then bin membership. */
  function Phase(c: Call): nat
  {
    match c
    case HandlerDisconnected(_) => 0
    case StateSet(_, _) => 1
    case PadsUnlinked(_, _) => 2
    case PadReleased(_) => 2
    case ElementRemoved(_) => 3
  }

  ghost predicate InPhase(cs: seq<Call>, p: nat)
  {
    forall i :: 0 <= i < |cs| ==> Phase(cs[i]) == p
  }

  ghost predicate PhaseOrdered(cs: seq<Call>)
  {
    forall i, j :: 0 <= i < j < |cs| ==> Phase(cs[i]) <= Phase(cs[j])
  }

  lemma OrderedAppend(xs: seq<Call>, ys: seq<Call>, p: nat)
    requires PhaseOrdered(xs) && InPhase(ys, p)
    requires forall i :: 0 <= i < |xs| ==> Phase(xs[i]) <= p
    ensures PhaseOrdered(xs + ys)
    ensures forall i :: 0 <= i < |xs + ys| ==> Phase((xs + ys)[i]) <= p
  {
  }

  lemma {:induction false} ReleaseCallsInPhase(rtpbin: Option<ElementId>, ws: seq<Wire>)
    ensures InPhase(ReleaseCalls(rtpbin, ws), 2)
    decreases |ws|
  {
    if ws != [] {
      ReleaseCallsInPhase(rtpbin, ws[..|ws| - 1]);
    }
  }

  /**
   * The mandatory teardown order: both handlers are disconnected before any
   * state change, every state change precedes every unlink or release, and
   * elements leave the bin only after that.
   */
  lemma TeardownCallOrder(rtpbin: Option<ElementId>, s: Session, vsource: Option<Pad>, asource: Option<Pad>)
    ensures PhaseOrdered(TeardownCalls(rtpbin, s, vsource, asource))
  {
    var a := DisconnectCalls(rtpbin, s);
    var b := StateCalls(s.elems.SourceElems(), Null);
    var c := DynamicCalls(rtpbin, vsource, s.VideoSink());
    var d := DynamicCalls(rtpbin, asource, s.AudioSink());
    var e := ReleaseCalls(rtpbin, s.Wires());
    var f := RemoveCalls(s.elems.SourceElems());
    ReleaseCallsInPhase(rtpbin, s.Wires());
    OrderedAppend(a, b, 1);
    OrderedAppend(a + b, c, 2);
    OrderedAppend(a + b + c, d, 2);
    OrderedAppend(a + b + c + d, e, 2);
    OrderedAppend(a + b + c + d + e, f, 3);
  }

  lemma {:induction false} ReleaseCallsSinks(rtpbin: Option<ElementId>, ws: seq<Wire>, sink: Pad)
    requires forall w :: w in ws ==> w.Link().sink != sink
    ensures forall i :: 0 <= i < |ReleaseCalls(rtpbin, ws)| ==>
              !(ReleaseCalls(rtpbin, ws)[i].PadsUnlinked? && ReleaseCalls(rtpbin, ws)[i].sink == sink)
    decreases |ws|
  {
    if ws != [] {
      ReleaseCallsSinks(rtpbin, ws[..|ws| - 1], sink);
    }
  }

  /** The call sequence contains an unlink whose sink end is `sink`. */
  ghost predicate UnlinksInto(cs: seq<Call>, sink: Pad)
  {
    exists i :: 0 <= i < |cs| && cs[i].PadsUnlinked? && cs[i].sink == sink
  }

  lemma UnlinksIntoAppend(a: seq<Call>, b: seq<Call>, sink: Pad)
    ensures UnlinksInto(a + b, sink) <==> UnlinksInto(a, sink) || UnlinksInto(b, sink)
  {
    if UnlinksInto(a + b, sink) {
      var i :| 0 <= i < |a + b| && (a + b)[i].PadsUnlinked? && (a + b)[i].sink == sink;
      if i >= |a| {
        assert b[i - |a|] == (a + b)[i];
      }
    }
    if UnlinksInto(a, sink) {
      var i :| 0 <= i < |a| && a[i].PadsUnlinked? && a[i].sink == sink;
      assert (a + b)[i] == a[i];
    }
    if UnlinksInto(b, sink) {
      var i :| 0 <= i < |b| && b[i].PadsUnlinked? && b[i].sink == sink;
      assert (a + b)[|a| + i] == b[i];
    }
  }

  /** The depayloader sink pads differ from each other and from every wire's sink end. */
  lemma WireSinks(r: ElementId, s: Session)
    requires s.WellFormed(r)
    ensures s.VideoSink() != s.AudioSink()
    ensures forall w :: w in s.Wires() ==> w.Link().sink != s.VideoSink() && w.Link().sink != s.AudioSink()
  {
    var cr := s.elems.Created();
    assert cr[1] != cr[9] && cr[7] != cr[1] && cr[7] != cr[9] && cr[15] != cr[1] && cr[15] != cr[9];
    assert s.elems.vdepay in cr && s.elems.adepay in cr;
    forall w | w in s.Wires()
      ensures w.Link().sink != s.VideoSink() && w.Link().sink != s.AudioSink()
    {
      assert w.requested in s.RequestPads();
    }
  }

  /**
   * A media kind whose binding never recorded a source gets no dynamic unlink:
   * the depayloader sink pad is unlinked during teardown exactly when a
   * source was recorded for it.
   */
  lemma DynamicUnlinkIffRecorded(r: ElementId, rtpbin: Option<ElementId>, s: Session, vsource: Option<Pad>, asource: Option<Pad>)
    requires s.WellFormed(r)
    ensures UnlinksInto(TeardownCalls(rtpbin, s, vsource, asource), s.VideoSink()) <==> vsource.Some?
    ensures UnlinksInto(TeardownCalls(rtpbin, s, vsource, asource), s.AudioSink()) <==> asource.Some?
  {
    var a := DisconnectCalls(rtpbin, s);
    var b := StateCalls(s.elems.SourceElems(), Null);
    var c := DynamicCalls(rtpbin, vsource, s.VideoSink());
    var d := DynamicCalls(rtpbin, asource, s.AudioSink());
    var e := ReleaseCalls(rtpbin, s.Wires());
    var f := RemoveCalls(s.elems.SourceElems());
    assert TeardownCalls(rtpbin, s, vsource, asource) == a + b + c + d + e + f;
    WireSinks(r, s);
    ReleaseCallsSinks(rtpbin, s.Wires(), s.VideoSink());
    ReleaseCallsSinks(rtpbin, s.Wires(), s.AudioSink());
    forall sink | sink == s.VideoSink() || sink == s.AudioSink()
      ensures UnlinksInto(a + b + c + d + e + f, sink) <==> UnlinksInto(c, sink) || UnlinksInto(d, sink)
    {
      UnlinksIntoAppend(a, b, sink);
      UnlinksIntoAppend(a + b, c, sink);
      UnlinksIntoAppend(a + b + c, d, sink);
      UnlinksIntoAppend(a + b + c + d, e, sink);
      UnlinksIntoAppend(a + b + c + d + e, f, sink);
    }
    if vsource.Some? {
      assert c[0] == PadsUnlinked(vsource.value, s.VideoSink());
    }
    if asource.Some? {
      assert d[0] == PadsUnlinked(asource.value, s.AudioSink());
    }
  }

  /** Each session element is set to NULL before it is removed. */
  lemma TeardownNullBeforeRemove(rtpbin: Option<ElementId>, s: Session, vsource: Option<Pad>, asource: Option<Pad>)
    ensures var cs := TeardownCalls(rtpbin, s, vsource, asource);
      forall e :: e in s.elems.Members() ==>
        exists i, j :: 0 <= i < j < |cs| && cs[i] == StateSet(e, Null) && cs[j] == ElementRemoved(e)
  {
    var a := DisconnectCalls(rtpbin, s);
    var b := StateCalls(s.elems.SourceElems(), Null);
    var mid := DynamicCalls(rtpbin, vsource, s.VideoSink()) + DynamicCalls(rtpbin, asource, s.AudioSink())
               + ReleaseCalls(rtpbin, s.Wires());
    var f := RemoveCalls(s.elems.SourceElems());
    var cs := TeardownCalls(rtpbin, s, vsource, asource);
    assert cs == a + b + mid + f;
    OrdersAgree(s.elems);
    forall e | e in s.elems.Members()
      ensures exists i, j :: 0 <= i < j < |cs| && cs[i] == StateSet(e, Null) && cs[j] == ElementRemoved(e)
    {
      var k :| 0 <= k < 16 && s.elems.SourceElems()[k] == e;
      assert cs[|a| + k] == StateSet(e, Null);
      assert cs[|a + b + mid| + k] == ElementRemoved(e);
    }
  }

  /** Teardown removes no element but the session's own. */
  lemma TeardownRemovesOnlyMembers(rtpbin: Option<ElementId>, s: Session, vsource: Option<Pad>, asource: Option<Pad>)
    ensures var cs := TeardownCalls(rtpbin, s, vsource, asource);
      forall i :: 0 <= i < |cs| && cs[i].ElementRemoved? ==> cs[i].element in s.elems.Members()
  {
    var a := DisconnectCalls(rtpbin, s);
    var b := StateCalls(s.elems.SourceElems(), Null);
    var mid := DynamicCalls(rtpbin, vsource, s.VideoSink()) + DynamicCalls(rtpbin, asource, s.AudioSink())
               + ReleaseCalls(rtpbin, s.Wires());
    var f := RemoveCalls(s.elems.SourceElems());
    var cs := TeardownCalls(rtpbin, s, vsource, asource);
    assert cs == a + b + mid + f;
    OrdersAgree(s.elems);
    ReleaseCallsInPhase(rtpbin, s.Wires());
    forall i | 0 <= i < |cs| && cs[i].ElementRemoved?
      ensures cs[i].element in s.elems.Members()
    {
      if i < |a + b + mid| {
        assert false;
      } else {
        assert cs[i] == f[i - |a + b + mid|];
      }
    }
  }

}
