/**
 * The setup half of a receiver session as functions of the pipeline graph:
 * link_pads (request a pad of rtpbin and link it with a static pad), the six
 * wires of add_incoming_source, and the rebinding cb_new_pad performs when
 * rtpbin announces a new source pad.
 */
module ReceiverSetup {
  import opened Wrappers
  import opened GstGraph
  import opened ReceiverNames
  import opened ReceiverSession
  import opened ReceiverTeardown

  /**
   * link_pads (receiver.c:3-23): request the pad, then link it with the static
   * pad in the wire's direction. A repeat request for a pad name already
   * handed out is modelled as NULL, on which the link is skipped; GStreamer
   * leaves that case undefined, and the callers' SlotsFree keeps it out of
   * reach.
   */
  function WiredOne(g: Graph, w: Wire): Graph
  {
    if w.requested in g.requested then g
    else g.(requested := g.requested + {w.requested}).Linked(w.Link().src, w.Link().sink)
  }

  /** The link_pads calls of receiver.c:222-228, in order. */
  function WiredAll(g: Graph, ws: seq<Wire>): Graph
    decreases |ws|
  {
    if ws == [] then g else WiredOne(WiredAll(g, ws[..|ws| - 1]), ws[|ws| - 1])
  }

  /** No pad is used by two wires, and no wire's request pad is another's static pad. */
  ghost predicate PadsApart(ws: seq<Wire>)
  {
    && (forall i, j :: 0 <= i < j < |ws| ==> ws[i].requested != ws[j].requested && ws[i].StaticPad() != ws[j].StaticPad())
    && (forall i, j :: 0 <= i < |ws| && 0 <= j < |ws| ==> ws[i].requested != ws[j].StaticPad())
  }

  /** Every wire's pads belong to children, are free, and its request pad is not handed out. */
  ghost predicate WiresFree(g: Graph, ws: seq<Wire>)
  {
    forall i :: 0 <= i < |ws| ==>
      && ws[i].requested !in g.requested
      && ws[i].requested.owner in g.elements && ws[i].staticFrom in g.elements
      && !g.IsLinked(ws[i].requested) && !g.IsLinked(ws[i].StaticPad())
  }

  /** The link of a wire uses exactly its two pads. */
  lemma WireLinkPads(w: Wire, p: Pad)
    ensures Touches(w.Link(), p) <==> p == w.requested || p == w.StaticPad()
  {
  }

  /** link_pads on free pads of children: the pad is handed out and the wire's link added. */
  lemma WiredOneFresh(g: Graph, w: Wire)
    requires w.requested !in g.requested && w.requested != w.StaticPad()
    requires w.requested.owner in g.elements && w.staticFrom in g.elements
    requires forall l :: l in g.links ==> !Touches(l, w.requested) && !Touches(l, w.StaticPad())
    ensures var r := WiredOne(g, w);
      r == g.(requested := r.requested, links := r.links)
      && r.requested == g.requested + {w.requested} && r.links == g.links + {w.Link()}
  {
    var g1 := g.(requested := g.requested + {w.requested});
    assert !g1.IsLinked(w.requested) && !g1.IsLinked(w.StaticPad());
  }

  /** A wire apart from the earlier ones finds its pads untouched by their links. */
  lemma WiresUntouched(g: Graph, ws: seq<Wire>)
    requires |ws| > 0 && PadsApart(ws) && WiresFree(g, ws)
    ensures var last := ws[|ws| - 1];
      forall l :: l in g.links + (set w | w in ws[..|ws| - 1] :: w.Link()) ==>
        !Touches(l, last.requested) && !Touches(l, last.StaticPad())
  {
    var init := ws[..|ws| - 1];
    var last := ws[|ws| - 1];
    forall l | l in g.links + (set w | w in init :: w.Link())
      ensures !Touches(l, last.requested) && !Touches(l, last.StaticPad())
    {
      if l !in g.links {
        var w :| w in init && l == w.Link();
        var i :| 0 <= i < |init| && init[i] == w;
        assert w == ws[i];
        WireLinkPads(w, last.requested);
        WireLinkPads(w, last.StaticPad());
      } else {
        assert !g.IsLinked(last.requested) && !g.IsLinked(last.StaticPad());
      }
    }
  }

  lemma UnionStep<T>(a: set<T>, b: set<T>, c: set<T>, x: T, m: set<T>)
    requires m == a + b && c == b + {x}
    ensures m + {x} == a + c
  {
  }

  /**
   * Wiring pads that are apart and free hands out every request pad and adds
   * every wire's link, and changes nothing else.
   */
  lemma {:induction false} WiredAllFresh(g: Graph, ws: seq<Wire>)
    requires PadsApart(ws) && WiresFree(g, ws)
    ensures var r := WiredAll(g, ws);
      && r == g.(requested := r.requested, links := r.links)
      && r.requested == g.requested + (set w | w in ws :: w.requested)
      && r.links == g.links + (set w | w in ws :: w.Link())
    decreases |ws|
  {
    if ws != [] {
      var init := ws[..|ws| - 1];
      var last := ws[|ws| - 1];
      InitApart(g, ws);
      WiredAllFresh(g, init);
      LastWireFree(g, ws, WiredAll(g, init));
      WiredLastFresh(g, ws, WiredAll(g, init));
    }
  }

  /** On top of the wires before it, the last wire's pads are still free. */
  lemma LastWireFree(g: Graph, ws: seq<Wire>, m: Graph)
    requires |ws| > 0 && PadsApart(ws) && WiresFree(g, ws)
    requires ws[|ws| - 1].requested !in (set w | w in ws[..|ws| - 1] :: w.requested)
    requires m.elements == g.elements
    requires m.requested == g.requested + (set w | w in ws[..|ws| - 1] :: w.requested)
    requires m.links == g.links + (set w | w in ws[..|ws| - 1] :: w.Link())
    ensures var w := ws[|ws| - 1];
      && w.requested !in m.requested && w.requested != w.StaticPad()
      && w.requested.owner in m.elements && w.staticFrom in m.elements
      && forall l :: l in m.links ==> !Touches(l, w.requested) && !Touches(l, w.StaticPad())
  {
    WiresUntouched(g, ws);
  }

  /** The step of WiredAllFresh: wiring a free last wire on top of the others adds its pad and its link. */
  lemma WiredLastFresh(g: Graph, ws: seq<Wire>, m: Graph)
    requires |ws| > 0
    requires m == g.(requested := m.requested, links := m.links)
    requires m.requested == g.requested + (set w | w in ws[..|ws| - 1] :: w.requested)
    requires m.links == g.links + (set w | w in ws[..|ws| - 1] :: w.Link())
    requires var w := ws[|ws| - 1];
      && w.requested !in m.requested && w.requested != w.StaticPad()
      && w.requested.owner in m.elements && w.staticFrom in m.elements
      && forall l :: l in m.links ==> !Touches(l, w.requested) && !Touches(l, w.StaticPad())
    ensures var r := WiredOne(m, ws[|ws| - 1]);
      && r == g.(requested := r.requested, links := r.links)
      && r.requested == g.requested + (set w | w in ws :: w.requested)
      && r.links == g.links + (set w | w in ws :: w.Link())
  {
    var init := ws[..|ws| - 1];
    var last := ws[|ws| - 1];
    WiredOneFresh(m, last);
    WireSetsStep(ws);
    UnionStep(g.requested, set w | w in init :: w.requested, set w | w in ws :: w.requested, last.requested, m.requested);
    UnionStep(g.links, set w | w in init :: w.Link(), set w | w in ws :: w.Link(), last.Link(), m.links);
  }

  /** The wires before the last are apart and free too, and the last request pad is none of theirs. */
  lemma InitApart(g: Graph, ws: seq<Wire>)
    requires |ws| > 0 && PadsApart(ws) && WiresFree(g, ws)
    ensures PadsApart(ws[..|ws| - 1]) && WiresFree(g, ws[..|ws| - 1])
    ensures ws[|ws| - 1].requested !in (set w | w in ws[..|ws| - 1] :: w.requested)
  {
    var init := ws[..|ws| - 1];
    assert forall i :: 0 <= i < |init| ==> init[i] == ws[i];
  }

  /** Appending a wire adds its request pad and its link to the sets of the wires. */
  lemma WireSetsStep(ws: seq<Wire>)
    requires |ws| > 0
    ensures (set w | w in ws :: w.requested) == (set w | w in ws[..|ws| - 1] :: w.requested) + {ws[|ws| - 1].requested}
    ensures (set w | w in ws :: w.Link()) == (set w | w in ws[..|ws| - 1] :: w.Link()) + {ws[|ws| - 1].Link()}
  {
    var init := ws[..|ws| - 1];
    assert forall w :: w in ws <==> w in init || w == ws[|ws| - 1];
  }

  /**
   * With apart and free wires, the k-th link_pads call finds its pad not yet
   * handed out, and wiring the first k + 1 wires is wiring the first k and
   * then the k-th.
   */
  lemma WiredPrefixFresh(g: Graph, ws: seq<Wire>, k: nat)
    requires PadsApart(ws) && WiresFree(g, ws) && k < |ws|
    ensures ws[k].requested !in WiredAll(g, ws[..k]).requested
    ensures WiredAll(g, ws[..k + 1]) == WiredOne(WiredAll(g, ws[..k]), ws[k])
  {
    var pre := ws[..k];
    assert ws[..k + 1][..k] == pre;
    assert forall i :: 0 <= i < |pre| ==> pre[i] == ws[i];
    assert PadsApart(pre) && WiresFree(g, pre);
    WiredAllFresh(g, pre);
    assert forall w :: w in pre ==> w.requested != ws[k].requested;
  }

  /** The session add_incoming_source builds on rtpbin `r` from elements `e`. */
  function SessionOf(r: ElementId, e: Elements, videoId: nat, audioId: nat, vh: HandlerId, ah: HandlerId): Session
  {
    Session(e,
            Pad(r, RequestPadName(RecvRtpSink, videoId)), Pad(r, RequestPadName(RecvRtcpSink, videoId)),
            Pad(r, RequestPadName(SendRtcpSrc, videoId)),
            Pad(r, RequestPadName(RecvRtpSink, audioId)), Pad(r, RequestPadName(RecvRtcpSink, audioId)),
            Pad(r, RequestPadName(SendRtcpSrc, audioId)),
            vh, ah)
  }

  /** The three wires of one media kind: RTP and RTCP into rtpbin, RTCP out of it. */
  function MediaWires(r: ElementId, id: nat, rtpFrom: ElementId, rtcpFrom: ElementId, sendFrom: ElementId): (ws: seq<Wire>)
    ensures |ws| == 3
  {
    [Wire(Pad(r, RequestPadName(RecvRtpSink, id)), rtpFrom, "src"),
     Wire(Pad(r, RequestPadName(RecvRtcpSink, id)), rtcpFrom, "src"),
     Wire(Pad(r, RequestPadName(SendRtcpSrc, id)), sendFrom, "sink")]
  }

  /** The six wires of add_incoming_source (receiver.c:222-228), in the order of the link_pads calls. */
  function SessionWires(r: ElementId, e: Elements, videoId: nat, audioId: nat): (ws: seq<Wire>)
    ensures |ws| == 6
  {
    MediaWires(r, videoId, e.vudpsrc, e.vudpsrc1, e.vudpsink) + MediaWires(r, audioId, e.audpsrc, e.audpsrc1, e.audpsink)
  }

  /** The request pads of a run of wires, in order. */
  function RequestedOf(ws: seq<Wire>): (pads: seq<Pad>)
    ensures |pads| == |ws| && forall i :: 0 <= i < |ws| ==> pads[i] == ws[i].requested
  {
    seq(|ws|, i requires 0 <= i < |ws| => ws[i].requested)
  }

  /** The session's wires are those six, whatever its handlers. */
  lemma SessionOfWires(r: ElementId, e: Elements, videoId: nat, audioId: nat, vh: HandlerId, ah: HandlerId)
    ensures SessionOf(r, e, videoId, audioId, vh, ah).Wires() == SessionWires(r, e, videoId, audioId)
  {
  }

  /**
   * With distinct elements, ids and handlers, and rtpbin outside the session,
   * the session is well formed and its six wires use twelve different pads.
   */
  lemma SessionOfApart(r: ElementId, e: Elements, videoId: nat, audioId: nat, vh: HandlerId, ah: HandlerId)
    requires e.Distinct() && r !in e.Members() && videoId != audioId && vh != ah
    ensures SessionOf(r, e, videoId, audioId, vh, ah).WellFormed(r)
    ensures PadsApart(SessionOf(r, e, videoId, audioId, vh, ah).Wires())
  {
    SessionOfPadsApart(r, e, videoId, audioId, vh, ah);
    var s := SessionOf(r, e, videoId, audioId, vh, ah);
    forall p | p in s.RequestPads()
      ensures p.owner == r
    {
    }
  }

  /** The six port elements of distinct session elements are distinct session elements. */
  lemma PortElementsApart(e: Elements)
    requires e.Distinct()
    ensures forall i, j :: 0 <= i < j < 6 ==> e.PortElement(i) != e.PortElement(j)
    ensures forall i :: 0 <= i < 6 ==> e.PortElement(i) in e.Members()
  {
    var cr := e.Created();
    assert cr[0] != cr[6] && cr[0] != cr[7] && cr[0] != cr[8] && cr[0] != cr[14] && cr[0] != cr[15];
    assert cr[6] != cr[7] && cr[6] != cr[8] && cr[6] != cr[14] && cr[6] != cr[15];
    assert cr[7] != cr[8] && cr[7] != cr[14] && cr[7] != cr[15];
    assert cr[8] != cr[14] && cr[8] != cr[15] && cr[14] != cr[15];
  }

  /** The six request pads of a session with two different ids are different. */
  lemma SessionRequestPadsApart(r: ElementId, e: Elements, videoId: nat, audioId: nat, vh: HandlerId, ah: HandlerId)
    requires videoId != audioId
    ensures var ws := SessionOf(r, e, videoId, audioId, vh, ah).Wires();
      forall i, j :: 0 <= i < j < 6 ==> ws[i].requested != ws[j].requested
  {
    RequestPadNamesInjective();
  }

  lemma SessionOfPadsApart(r: ElementId, e: Elements, videoId: nat, audioId: nat, vh: HandlerId, ah: HandlerId)
    requires e.Distinct() && r !in e.Members() && videoId != audioId
    ensures PadsApart(SessionOf(r, e, videoId, audioId, vh, ah).Wires())
  {
    var ws := SessionOf(r, e, videoId, audioId, vh, ah).Wires();
    SessionRequestPadsApart(r, e, videoId, audioId, vh, ah);
    PortElementsApart(e);
    assert forall i :: 0 <= i < 6 ==> ws[i].staticFrom == e.PortElement(i) && ws[i].requested.owner == r;
  }

  /** Every link into a binding's sink comes from the recorded source, and no link leaves the sink. */
  ghost predicate Bound(g: Graph, sink: Pad, source: Option<Pad>)
  {
    forall l :: l in g.links ==> l.src != sink && (l.sink == sink ==> source == Some(l.src))
  }

  /**
   * cb_new_pad on a matching pad (receiver.c:56-69): when the sink is already
   * linked, unlink it from the recorded source; then link the new pad to it.
   */
  function Rebound(g: Graph, source: Option<Pad>, pad: Pad, sink: Pad): Graph
  {
    var g1 := if g.IsLinked(sink) && source.Some? then g.Unlinked(source.value, sink) else g;
    g1.Linked(pad, sink)
  }

  /**
   * Rebinding keeps the binding invariant with the new pad as source, changes
   * only links into the sink, and, when the new pad is a free pad of a child,
   * leaves exactly one link into the sink: the one from the new pad.
   */
  lemma ReboundBinds(g: Graph, source: Option<Pad>, pad: Pad, sink: Pad)
    requires Bound(g, sink, source) && pad != sink
    ensures var r := Rebound(g, source, pad, sink);
      && Bound(r, sink, Some(pad))
      && r == g.(links := r.links)
      && (forall l: PadLink :: l.sink != sink ==> (l in r.links <==> l in g.links))
      && (pad.owner in g.elements && sink.owner in g.elements && !g.IsLinked(pad) ==>
            forall l :: l in r.links && l.sink == sink <==> l == PadLink(pad, sink))
  {
    var g1 := if g.IsLinked(sink) && source.Some? then g.Unlinked(source.value, sink) else g;
    assert !g1.IsLinked(sink);
    var r := Rebound(g, source, pad, sink);
    forall l | l in r.links
      ensures l.src != sink && (l.sink == sink ==> Some(pad) == Some(l.src))
    {
      if l in g1.links {
        assert Touches(l, l.src) && Touches(l, l.sink);
      }
    }
  }

  /** Rebinding one of the session's own sinks keeps the session installed. */
  lemma ReboundInstalled(g0: Graph, g1: Graph, r: ElementId, s: Session, vtarget: object, atarget: object,
                         source: Option<Pad>, pad: Pad, sink: Pad)
    requires Installed(g0, g1, r, s, vtarget, atarget)
    requires sink == s.VideoSink() || sink == s.AudioSink()
    ensures Installed(g0, Rebound(g1, source, pad, sink), r, s, vtarget, atarget)
  {
    var g2 := Rebound(g1, source, pad, sink);
    ReboundLinks(g1, source, pad, sink);
    assert sink.owner in s.elems.Members();
    forall l | l in g0.links
      ensures l in g2.links
    {
      assert !s.Involves(l);
    }
  }

  /** Rebinding changes only links: it may drop links into the sink and add the one from the new pad, within the bin. */
  lemma ReboundLinks(g: Graph, source: Option<Pad>, pad: Pad, sink: Pad)
    requires LinksInBin(g)
    ensures var r := Rebound(g, source, pad, sink);
      && r == g.(links := r.links) && LinksInBin(r)
      && (forall l :: l in r.links && l !in g.links ==> l == PadLink(pad, sink))
      && (forall l :: l in g.links && l !in r.links ==> l.sink == sink)
  {
  }

  /** The three rtpbin request pads of one session id. */
  function IdPads(r: ElementId, id: nat): set<Pad>
  {
    {Pad(r, RequestPadName(RecvRtpSink, id)), Pad(r, RequestPadName(RecvRtcpSink, id)), Pad(r, RequestPadName(SendRtcpSrc, id))}
  }

  /**
   * Room for a session with these ids on rtpbin `r`: no child of the bin is
   * named like one of its sinks, and none of its six request pads is handed
   * out or linked.
   */
  ghost predicate SlotsFree(g: Graph, r: ElementId, videoId: nat, audioId: nat)
  {
    && (forall x :: x in g.elements && x in g.names ==> g.names[x] != VideoSinkName(videoId) && g.names[x] != AudioSinkName(audioId))
    && (forall p :: p in IdPads(r, videoId) + IdPads(r, audioId) ==> p !in g.requested && !g.IsLinked(p))
  }

  /** The request pads of a session are the pads of its two ids. */
  lemma SessionOfRequestPads(r: ElementId, e: Elements, videoId: nat, audioId: nat, vh: HandlerId, ah: HandlerId)
    ensures SessionOf(r, e, videoId, audioId, vh, ah).RequestPads() == IdPads(r, videoId) + IdPads(r, audioId)
    ensures (set w | w in SessionWires(r, e, videoId, audioId) :: w.requested) == IdPads(r, videoId) + IdPads(r, audioId)
  {
    var ws := SessionWires(r, e, videoId, audioId);
    SessionOfWires(r, e, videoId, audioId, vh, ah);
    assert forall w :: w in ws <==> w == ws[0] || w == ws[1] || w == ws[2] || w == ws[3] || w == ws[4] || w == ws[5];
  }
}
