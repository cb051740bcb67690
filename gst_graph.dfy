/**
 * An abstract GStreamer pipeline, as far as the receiver and the endpoint
 * code observe it: the elements created and the ones in the bin, their
 * factory, name and the "port"/"host" properties, element states, the pad
 * links, the request pads handed out, and the connected signal handlers.
 *
 * Library behaviour kept from GStreamer:
 *  - a pad has at most one peer, and gst_pad_link fails when either pad is
 *    already linked (or its element is not in the bin);
 *  - gst_bin_add refuses an element that is already in the bin or whose name
 *    is taken by a child, so children have unique names;
 *  - gst_bin_remove unlinks every pad of the removed element;
 *  - gst_element_release_request_pad ignores a pad that is not a request pad
 *    of that element, and unlinks the pad it releases;
 *  - g_signal_handler_disconnect ignores a handler id not connected on the
 *    given instance (a NULL instance included).
 */
module GstGraph {
  import opened Wrappers

  type ElementId = nat
  type HandlerId = nat

  /** A pad is named by its element and its name ("src", "sink", "recv_rtp_sink_0", ...). */
  datatype Pad = Pad(owner: ElementId, name: string)
  datatype PadLink = PadLink(src: Pad, sink: Pad)
  datatype ElementState = VoidPending | Null | Ready | Paused | Playing

  /** The GstMessage types the programs tell apart on the bus; every other type is `OtherMessage`. */
  datatype MessageType = Error | Eos | Warning | StateChanged | OtherMessage

  /**
   * A bus message: its type, whether its source is the pipeline itself, and,
   * for STATE_CHANGED, the old and new states it carries.
   */
  datatype Message = Message(kind: MessageType, fromPipeline: bool, oldState: ElementState, newState: ElementState)

  /** A connected "pad-added" handler: the instance it is connected on and its user data. */
  datatype Handler = Handler(instance: ElementId, target: object)

  /**
   * A detaching call made on the pipeline, recorded in call order. A call whose
   * instance argument is NULL is rejected by the library and not recorded.
   */
  datatype Call =
    | HandlerDisconnected(handler: HandlerId)
    | StateSet(element: ElementId, state: ElementState)
    | PadsUnlinked(src: Pad, sink: Pad)
    | PadReleased(pad: Pad)
    | ElementRemoved(element: ElementId)

  predicate Touches(l: PadLink, p: Pad)
  {
    l.src == p || l.sink == p
  }

  datatype Graph = Graph(
    elements: set<ElementId>,             // children of the pipeline bin
    factory: map<ElementId, string>,      // every element ever created, by factory name
    names: map<ElementId, string>,        // explicit element names
    ports: map<ElementId, int>,           // "port" property
    hosts: map<ElementId, string>,        // "host" property
    states: map<ElementId, ElementState>, // last state requested per element
    links: set<PadLink>,
    requested: set<Pad>,                  // request pads currently handed out
    handlers: map<HandlerId, Handler>,
    nextId: ElementId,
    nextHandler: HandlerId)
  {
    ghost predicate Valid()
    {
      && (forall e :: e in factory ==> e < nextId)
      && elements <= factory.Keys
      && names.Keys <= factory.Keys && ports.Keys <= factory.Keys
      && hosts.Keys <= factory.Keys
      && (forall l :: l in links ==> l.src.owner in elements && l.sink.owner in elements)
      && (forall p :: p in requested ==> p.owner in factory)
      && OnePeer()
      && UniqueNames()
      && (forall h :: h in handlers ==> h < nextHandler)
    }

    /** Every pad has at most one peer. */
    ghost predicate OnePeer()
    {
      forall l1, l2 :: l1 in links && l2 in links && (l1.src == l2.src || l1.sink == l2.sink) ==> l1 == l2
    }

    /** No two children of the bin share a name. */
    ghost predicate UniqueNames()
    {
      forall a, b :: a in elements && b in elements && a in names && b in names && names[a] == names[b] ==> a == b
    }

    predicate IsLinked(p: Pad)
    {
      exists l :: l in links && Touches(l, p)
    }

    /** The child of the bin named `n`, if any (gst_bin_get_by_name on a flat bin). */
    ghost predicate HasChildNamed(e: ElementId, n: string)
    {
      e in elements && e in names && names[e] == n
    }

    /** gst_bin_get_by_name on a flat bin: the child carrying name `n`, if any. */
    ghost function ChildNamed(n: string): (r: Option<ElementId>)
      ensures r.Some? ==> HasChildNamed(r.value, n)
      ensures r.None? ==> forall e :: !HasChildNamed(e, n)
    {
      if exists e :: HasChildNamed(e, n) then
        var e :| HasChildNamed(e, n);
        Some(e)
      else None
    }

    /** gst_bin_add: refused when the element already has a parent or its name is taken. */
    predicate CanAdd(e: ElementId)
    {
      e !in elements && (e in names ==> forall m :: m in elements && m in names ==> names[m] != names[e])
    }

    function Added(e: ElementId): (r: Graph)
      ensures r.elements == if CanAdd(e) then elements + {e} else elements
    {
      if CanAdd(e) then this.(elements := elements + {e}) else this
    }

    /** gst_bin_remove: a child leaves the bin and all links of its pads are undone. */
    function Removed(e: ElementId): (r: Graph)
      ensures r.elements == elements - {e}
      ensures forall l :: l in r.links <==> l in links && (e in elements ==> l.src.owner != e && l.sink.owner != e)
    {
      if e in elements then
        this.(elements := elements - {e},
              links := set l | l in links && l.src.owner != e && l.sink.owner != e)
      else this
    }

    /** gst_pad_link: succeeds only between pads of children that are both unlinked. */
    predicate CanLink(src: Pad, sink: Pad)
    {
      src.owner in elements && sink.owner in elements && src != sink && !IsLinked(src) && !IsLinked(sink)
    }

    function Linked(src: Pad, sink: Pad): (r: Graph)
      ensures r.links == if CanLink(src, sink) then links + {PadLink(src, sink)} else links
    {
      if CanLink(src, sink) then this.(links := links + {PadLink(src, sink)}) else this
    }

    /** gst_pad_unlink: undoes the link if these two pads are linked to each other. */
    function Unlinked(src: Pad, sink: Pad): (r: Graph)
      ensures r.links == links - {PadLink(src, sink)}
    {
      this.(links := links - {PadLink(src, sink)})
    }

    /** gst_element_release_request_pad: only a request pad of that very element is released. */
    function Released(owner: Option<ElementId>, pad: Pad): (r: Graph)
      ensures owner.Some? && owner.value == pad.owner && pad in requested ==>
                r.requested == requested - {pad} && (forall l :: l in r.links <==> l in links && !Touches(l, pad))
      ensures !(owner.Some? && owner.value == pad.owner && pad in requested) ==> r == this
    {
      if owner.Some? && owner.value == pad.owner && pad in requested then
        this.(requested := requested - {pad}, links := set l | l in links && !Touches(l, pad))
      else this
    }

    /** g_signal_handler_disconnect on `instance` (None for a NULL instance). */
    function Disconnected(instance: Option<ElementId>, h: HandlerId): (r: Graph)
      ensures r.handlers == if instance.Some? && h in handlers && handlers[h].instance == instance.value
                            then handlers - {h} else handlers
    {
      if instance.Some? && h in handlers && handlers[h].instance == instance.value then
        this.(handlers := handlers - {h})
      else this
    }

    /**
     * gst_element_link_many over `chain`: links "src" of each element to "sink"
     * of the next, stopping at the first failure. `negotiable` is how many
     * consecutive pairs agree on caps, which the library decides.
     */
    function LinkedMany(chain: seq<ElementId>, negotiable: nat): (r: (bool, Graph))
      decreases |chain|
    {
      if |chain| < 2 then (true, this)
      else
        var src := Pad(chain[0], "src");
        var sink := Pad(chain[1], "sink");
        if negotiable == 0 || !CanLink(src, sink) then (false, this)
        else Linked(src, sink).LinkedMany(chain[1..], negotiable - 1)
    }
  }

  /** The links gst_element_link_many adds along a chain. */
  function ChainLinks(chain: seq<ElementId>): (s: set<PadLink>)
    ensures forall l :: l in s <==> exists i :: 0 <= i < |chain| - 1 && l == PadLink(Pad(chain[i], "src"), Pad(chain[i + 1], "sink"))
    decreases |chain|
  {
    if |chain| < 2 then {}
    else
      var rest := ChainLinks(chain[1..]);
      assert forall i :: 0 < i < |chain| - 1 ==> chain[1..][i - 1] == chain[i] && chain[1..][i] == chain[i + 1];
      {PadLink(Pad(chain[0], "src"), Pad(chain[1], "sink"))} + rest
  }

  /** No pad of an element of `s` takes part in a link. */
  ghost predicate Untouched(links: set<PadLink>, s: set<ElementId>)
  {
    forall l :: l in links ==> l.src.owner !in s && l.sink.owner !in s
  }

  /** The pads a chain link would use are all free. */
  ghost predicate ChainPadsFree(g: Graph, chain: seq<ElementId>)
  {
    && (forall i :: 0 <= i < |chain| - 1 ==> !g.IsLinked(Pad(chain[i], "src")))
    && (forall i :: 0 < i < |chain| ==> !g.IsLinked(Pad(chain[i], "sink")))
  }

  /** gst_pad_link keeps the graph well formed. */
  lemma LinkedValid(g: Graph, src: Pad, sink: Pad)
    requires g.Valid()
    ensures g.Linked(src, sink).Valid()
  {
    var r := g.Linked(src, sink);
    if g.CanLink(src, sink) {
      forall l1, l2 | l1 in r.links && l2 in r.links && (l1.src == l2.src || l1.sink == l2.sink)
        ensures l1 == l2
      {
        assert l1 in g.links ==> Touches(l1, l1.src) && Touches(l1, l1.sink);
        assert l2 in g.links ==> Touches(l2, l2.src) && Touches(l2, l2.sink);
      }
    }
  }

  lemma {:induction false} LinkedManyValid(g: Graph, chain: seq<ElementId>, negotiable: nat)
    requires g.Valid()
    ensures g.LinkedMany(chain, negotiable).1.Valid()
    decreases |chain|
  {
    if |chain| >= 2 && negotiable > 0 {
      var src := Pad(chain[0], "src");
      var sink := Pad(chain[1], "sink");
      if g.CanLink(src, sink) {
        LinkedValid(g, src, sink);
        LinkedManyValid(g.Linked(src, sink), chain[1..], negotiable - 1);
      }
    }
  }

  /** A pad that is neither end of a new link stays free. */
  lemma LinkedKeepsFree(g: Graph, src: Pad, sink: Pad, p: Pad)
    requires !g.IsLinked(p) && p != src && p != sink
    ensures !g.Linked(src, sink).IsLinked(p)
  {
  }

  /** One step of gst_element_link_many leaves the rest of the chain with free pads. */
  lemma ChainStep(g: Graph, chain: seq<ElementId>)
    requires |chain| >= 2
    requires forall i, j :: 0 <= i < j < |chain| ==> chain[i] != chain[j]
    requires ChainPadsFree(g, chain)
    ensures ChainPadsFree(g.Linked(Pad(chain[0], "src"), Pad(chain[1], "sink")), chain[1..])
  {
    var src := Pad(chain[0], "src");
    var sink := Pad(chain[1], "sink");
    var tail := chain[1..];
    forall i | 0 <= i < |tail| - 1
      ensures !g.Linked(src, sink).IsLinked(Pad(tail[i], "src"))
    {
      assert tail[i] == chain[i + 1] != chain[0];
      LinkedKeepsFree(g, src, sink, Pad(tail[i], "src"));
    }
    forall i | 0 < i < |tail|
      ensures !g.Linked(src, sink).IsLinked(Pad(tail[i], "sink"))
    {
      assert tail[i] == chain[i + 1] != chain[1];
      LinkedKeepsFree(g, src, sink, Pad(tail[i], "sink"));
    }
  }

  /** Every field but the links is the same in `a` and `b`. */
  ghost predicate SameButLinks(a: Graph, b: Graph)
  {
    && a.elements == b.elements && a.factory == b.factory && a.names == b.names && a.ports == b.ports
    && a.hosts == b.hosts && a.states == b.states && a.requested == b.requested && a.handlers == b.handlers
    && a.nextId == b.nextId && a.nextHandler == b.nextHandler
  }

  /** Linking along a chain changes nothing but the links. */
  lemma {:induction false} LinkedManyFrame(g: Graph, chain: seq<ElementId>, negotiable: nat)
    ensures SameButLinks(g.LinkedMany(chain, negotiable).1, g)
    decreases |chain|
  {
    if |chain| >= 2 && negotiable > 0 {
      var src := Pad(chain[0], "src");
      var sink := Pad(chain[1], "sink");
      if g.CanLink(src, sink) {
        LinkedManyFrame(g.Linked(src, sink), chain[1..], negotiable - 1);
      }
    }
  }

  /** Linking along a chain keeps every link and adds only links of the chain. */
  lemma {:induction false} LinkedManyLinks(g: Graph, chain: seq<ElementId>, negotiable: nat)
    ensures var r := g.LinkedMany(chain, negotiable).1;
      g.links <= r.links && r.links - g.links <= ChainLinks(chain)
    decreases |chain|
  {
    if |chain| >= 2 && negotiable > 0 {
      var src := Pad(chain[0], "src");
      var sink := Pad(chain[1], "sink");
      if g.CanLink(src, sink) {
        LinkedManyLinks(g.Linked(src, sink), chain[1..], negotiable - 1);
        assert ChainLinks(chain) == {PadLink(src, sink)} + ChainLinks(chain[1..]);
      }
    }
  }

  /** Linking a chain of distinct children with free chain pads succeeds exactly when every pair negotiates, and then adds all of its links. */
  lemma {:induction false} LinkedManyOutcome(g: Graph, chain: seq<ElementId>, negotiable: nat)
    requires forall i :: 0 <= i < |chain| ==> chain[i] in g.elements
    requires forall i, j :: 0 <= i < j < |chain| ==> chain[i] != chain[j]
    requires ChainPadsFree(g, chain)
    ensures var r := g.LinkedMany(chain, negotiable);
      && r.0 == (|chain| < 2 || negotiable >= |chain| - 1)
      && (r.0 ==> r.1.links == g.links + ChainLinks(chain))
    decreases |chain|
  {
    if |chain| >= 2 && negotiable > 0 {
      var g1 := g.Linked(Pad(chain[0], "src"), Pad(chain[1], "sink"));
      ChainHead(g, chain, negotiable);
      ChainStep(g, chain);
      assert forall i :: 0 <= i < |chain[1..]| ==> chain[1..][i] == chain[i + 1];
      LinkedManyOutcome(g1, chain[1..], negotiable - 1);
    }
  }

  /**
   * Linking a chain of distinct children whose chain pads are free succeeds
   * exactly when every pair negotiates; it then adds the links of the chain
   * and nothing else, and on failure it has added only some of them.
   */
  lemma LinkedManyFresh(g: Graph, chain: seq<ElementId>, negotiable: nat)
    requires forall i :: 0 <= i < |chain| ==> chain[i] in g.elements
    requires forall i, j :: 0 <= i < j < |chain| ==> chain[i] != chain[j]
    requires ChainPadsFree(g, chain)
    ensures var r := g.LinkedMany(chain, negotiable);
      && r.0 == (|chain| < 2 || negotiable >= |chain| - 1)
      && r.1.elements == g.elements && r.1.requested == g.requested && r.1.handlers == g.handlers
      && r.1 == g.(links := r.1.links)
      && g.links <= r.1.links && r.1.links - g.links <= ChainLinks(chain)
      && (r.0 ==> r.1.links == g.links + ChainLinks(chain))
  {
    LinkedManyFrame(g, chain, negotiable);
    LinkedManyLinks(g, chain, negotiable);
    LinkedManyOutcome(g, chain, negotiable);
  }

  /** The first link of a chain of distinct children with free chain pads is made, and the rest follows from the tail. */
  lemma ChainHead(g: Graph, chain: seq<ElementId>, negotiable: nat)
    requires |chain| >= 2 && negotiable > 0
    requires chain[0] in g.elements && chain[1] in g.elements && chain[0] != chain[1]
    requires ChainPadsFree(g, chain)
    ensures var src := Pad(chain[0], "src"); var sink := Pad(chain[1], "sink");
      && g.CanLink(src, sink)
      && g.LinkedMany(chain, negotiable) == g.Linked(src, sink).LinkedMany(chain[1..], negotiable - 1)
      && ChainLinks(chain) == {PadLink(src, sink)} + ChainLinks(chain[1..])
  {
    assert !g.IsLinked(Pad(chain[0], "src"));
    assert !g.IsLinked(Pad(chain[1], "sink"));
  }

  /** The states after gst_element_set_state(e, st) for each e of `es`, in order. */
  function AllSet(states: map<ElementId, ElementState>, es: seq<ElementId>, st: ElementState): map<ElementId, ElementState>
    decreases |es|
  {
    if es == [] then states else AllSet(states, es[..|es| - 1], st)[es[|es| - 1] := st]
  }

  lemma {:induction false} AllSetFacts(states: map<ElementId, ElementState>, es: seq<ElementId>, st: ElementState)
    ensures forall e :: e in AllSet(states, es, st) <==> e in states || e in es
    ensures forall e :: e in es ==> AllSet(states, es, st)[e] == st
    ensures forall e :: e in states && e !in es ==> AllSet(states, es, st)[e] == states[e]
    decreases |es|
  {
    if es != [] {
      AllSetFacts(states, es[..|es| - 1], st);
      assert forall e :: e in es <==> e in es[..|es| - 1] || e == es[|es| - 1];
    }
  }

  /** gst_bin_remove_many: the elements leave the bin one after the other. */
  function RemovedAll(g: Graph, es: seq<ElementId>): Graph
    decreases |es|
  {
    if es == [] then g else RemovedAll(g, es[..|es| - 1]).Removed(es[|es| - 1])
  }

  function RemoveCalls(es: seq<ElementId>): (c: seq<Call>)
    ensures |c| == |es| && forall i :: 0 <= i < |es| ==> c[i] == ElementRemoved(es[i])
  {
    seq(|es|, i requires 0 <= i < |es| => ElementRemoved(es[i]))
  }

  /** Every link is between children of the bin (part of Graph.Valid). */
  ghost predicate LinksInBin(g: Graph)
  {
    forall l :: l in g.links ==> l.src.owner in g.elements && l.sink.owner in g.elements
  }

  /**
   * Removing elements takes exactly them out of the bin and drops exactly the
   * links that touch them; nothing else changes.
   */
  lemma {:induction false} RemovedAllFacts(g: Graph, es: seq<ElementId>)
    requires LinksInBin(g)
    ensures var r := RemovedAll(g, es);
      && r == g.(elements := r.elements, links := r.links)
      && r.elements == g.elements - (set e | e in es)
      && (forall l :: l in r.links <==> l in g.links && l.src.owner !in es && l.sink.owner !in es)
      && LinksInBin(r)
    decreases |es|
  {
    if es != [] {
      var init := es[..|es| - 1];
      RemovedAllFacts(g, init);
      assert forall e :: e in es <==> e in init || e == es[|es| - 1];
    }
  }

  /** gst_bin_add_many: the elements join the bin one after the other. */
  function AddedAll(g: Graph, es: seq<ElementId>): Graph
    decreases |es|
  {
    if es == [] then g else AddedAll(g, es[..|es| - 1]).Added(es[|es| - 1])
  }

  /**
   * Adding distinct elements that are not yet children and whose names clash
   * neither with each other nor with a child puts exactly them into the bin.
   */
  lemma {:induction false} AddedAllFresh(g: Graph, es: seq<ElementId>)
    requires forall i, j :: 0 <= i < j < |es| ==> es[i] != es[j]
    requires forall i :: 0 <= i < |es| ==> es[i] !in g.elements
    requires forall i, j :: 0 <= i < j < |es| && es[i] in g.names && es[j] in g.names ==> g.names[es[i]] != g.names[es[j]]
    requires forall i, m :: 0 <= i < |es| && m in g.elements && es[i] in g.names && m in g.names ==> g.names[es[i]] != g.names[m]
    ensures AddedAll(g, es) == g.(elements := g.elements + set i | 0 <= i < |es| :: es[i])
    decreases |es|
  {
    if es != [] {
      var init := es[..|es| - 1];
      var last := es[|es| - 1];
      AddedAllFresh(g, init);
      var m := AddedAll(g, init);
      assert (set i | 0 <= i < |init| :: init[i]) + {last} == set i | 0 <= i < |es| :: es[i];
      assert m.CanAdd(last) by {
        forall x | x in m.elements && x in m.names && last in m.names
          ensures m.names[x] != m.names[last]
        {
          if x !in g.elements {
            var i :| 0 <= i < |init| && init[i] == x;
          }
        }
      }
    }
  }

  /** The named elements of `s` carry names that no other element of `s` and no child of the bin carries. */
  ghost predicate NamesFresh(g: Graph, s: set<ElementId>)
  {
    forall x, y :: x in s && (y in s || y in g.elements) && x != y && x in g.names && y in g.names ==> g.names[x] != g.names[y]
  }

  /** AddedAllFresh with its conditions stated on the set of the elements added. */
  lemma AddedAllNamesFresh(g: Graph, es: seq<ElementId>)
    requires forall i, j :: 0 <= i < j < |es| ==> es[i] != es[j]
    requires forall i :: 0 <= i < |es| ==> es[i] !in g.elements
    requires NamesFresh(g, set i | 0 <= i < |es| :: es[i])
    ensures AddedAll(g, es) == g.(elements := g.elements + set i | 0 <= i < |es| :: es[i])
  {
    var s := set i | 0 <= i < |es| :: es[i];
    assert forall i :: 0 <= i < |es| ==> es[i] in s;
    AddedAllFresh(g, es);
  }

  /** A chain none of whose elements has a linked pad has its chain pads free. */
  lemma UntouchedChainFree(g: Graph, chain: seq<ElementId>)
    requires forall l :: l in g.links ==> l.src.owner !in chain && l.sink.owner !in chain
    ensures ChainPadsFree(g, chain)
  {
    forall i | 0 <= i < |chain|
      ensures !g.IsLinked(Pad(chain[i], "src")) && !g.IsLinked(Pad(chain[i], "sink"))
    {
      assert chain[i] in chain;
    }
  }

  /** Only elements were created and their properties set: the bin, states, links, pads and handlers are as they were. */
  ghost predicate SameTopology(g0: Graph, g1: Graph)
  {
    && g1.elements == g0.elements && g1.states == g0.states && g1.links == g0.links
    && g1.requested == g0.requested && g1.handlers == g0.handlers && g1.nextHandler == g0.nextHandler
  }

  /** The pipeline object (GstPipeline): a graph updated in place, its latency and its state. */
  class Pipe {
    var g: Graph
    var latency: nat          // nanoseconds
    var state: ElementState
    ghost var calls: seq<Call>

    ghost predicate Valid()
      reads this
    {
      g.Valid()
    }

    /** gst_pipeline_new: an empty bin in state NULL. */
    constructor (latency: nat)
      ensures Valid() && fresh(this)
      ensures g == Graph({}, map[], map[], map[], map[], map[], {}, {}, map[], 0, 1)
      ensures this.latency == latency && state == Null && calls == []
    {
      g := Graph({}, map[], map[], map[], map[], map[], {}, {}, map[], 0, 1);
      this.latency := latency;
      state := Null;
      calls := [];
    }

    /** gst_element_factory_make: `ok` is the library's answer (None for NULL). */
    method Make(factoryName: string, name: Option<string>, ok: bool) returns (e: Option<ElementId>)
      requires Valid()
      modifies this
      ensures Valid() && unchanged(this`latency, this`state, this`calls)
      ensures ok ==> e == Some(old(g.nextId))
                     && g == old(g).(factory := old(g.factory)[old(g.nextId) := factoryName],
                                     names := if name.Some? then old(g.names)[old(g.nextId) := name.value] else old(g.names),
                                     nextId := old(g.nextId) + 1)
      ensures !ok ==> e == None && g == old(g)
    {
      if ok {
        var id := g.nextId;
        e := Some(id);
        g := g.(factory := g.factory[id := factoryName],
                 names := if name.Some? then g.names[id := name.value] else g.names,
                 nextId := id + 1);
      } else {
        e := None;
      }
    }

    /** g_object_set(e, "port", ...): ignored on a NULL element. */
    method SetPort(e: Option<ElementId>, port: int)
      requires Valid() && (e.Some? ==> e.value in g.factory)
      modifies this
      ensures Valid() && unchanged(this`latency, this`state, this`calls)
      ensures g == if e.Some? then old(g).(ports := old(g.ports)[e.value := port]) else old(g)
    {
      if e.Some? {
        g := g.(ports := g.ports[e.value := port]);
      }
    }

    /** g_object_set(e, "host", ...): ignored on a NULL element. */
    method SetHost(e: Option<ElementId>, host: string)
      requires Valid() && (e.Some? ==> e.value in g.factory)
      modifies this
      ensures Valid() && unchanged(this`latency, this`state, this`calls)
      ensures g == if e.Some? then old(g).(hosts := old(g.hosts)[e.value := host]) else old(g)
    {
      if e.Some? {
        g := g.(hosts := g.hosts[e.value := host]);
      }
    }

    /** gst_bin_add. */
    method Add(e: ElementId) returns (ok: bool)
      requires Valid() && e in g.factory
      modifies this
      ensures Valid() && unchanged(this`latency, this`state, this`calls)
      ensures ok == old(g).CanAdd(e) && g == old(g).Added(e)
    {
      ok := g.CanAdd(e);
      g := g.Added(e);
    }

    /** gst_bin_remove. */
    method Remove(e: ElementId)
      requires Valid()
      modifies this
      ensures Valid() && unchanged(this`latency, this`state)
      ensures g == old(g).Removed(e) && calls == old(calls) + [ElementRemoved(e)]
    {
      g := g.Removed(e);
      calls := calls + [ElementRemoved(e)];
    }

    /** gst_element_set_state on an element (NULL is ignored). */
    method SetState(e: Option<ElementId>, s: ElementState)
      requires Valid()
      modifies this
      ensures Valid() && unchanged(this`latency, this`state)
      ensures e.Some? ==> g == old(g).(states := old(g.states)[e.value := s]) && calls == old(calls) + [StateSet(e.value, s)]
      ensures e.None? ==> g == old(g) && calls == old(calls)
    {
      if e.Some? {
        g := g.(states := g.states[e.value := s]);
        calls := calls + [StateSet(e.value, s)];
      }
    }

    /**
     * gst_element_set_state on the pipeline itself; `ok` is the library's
     * answer (GST_STATE_CHANGE_FAILURE when false), and a refused change leaves
     * the state as it was.
     */
    method SetPipelineState(s: ElementState, ok: bool) returns (changed: bool)
      modifies this
      ensures unchanged(this`g, this`latency, this`calls)
      ensures changed == ok && state == (if ok then s else old(state))
    {
      changed := ok;
      if ok {
        state := s;
      }
    }

    /** gst_bin_add_many. */
    method AddMany(es: seq<ElementId>)
      requires Valid() && forall i :: 0 <= i < |es| ==> es[i] in g.factory
      modifies this
      ensures Valid() && unchanged(this`latency, this`state, this`calls)
      ensures g == AddedAll(old(g), es)
    {
      var i := 0;
      while i < |es|
        invariant 0 <= i <= |es|
        invariant Valid() && unchanged(this`latency, this`state, this`calls)
        invariant g == AddedAll(old(g), es[..i])
        invariant g.factory == old(g.factory)
      {
        assert es[..i + 1][..i] == es[..i];
        var added := Add(es[i]);
        i := i + 1;
      }
      assert es[..i] == es;
    }

    /** gst_bin_remove_many. */
    method RemoveMany(es: seq<ElementId>)
      requires Valid()
      modifies this
      ensures Valid() && unchanged(this`latency, this`state)
      ensures g == RemovedAll(old(g), es) && calls == old(calls) + RemoveCalls(es)
    {
      var i := 0;
      while i < |es|
        invariant 0 <= i <= |es|
        invariant Valid() && unchanged(this`latency, this`state)
        invariant g == RemovedAll(old(g), es[..i]) && calls == old(calls) + RemoveCalls(es[..i])
      {
        assert es[..i + 1][..i] == es[..i];
        assert RemoveCalls(es[..i + 1]) == RemoveCalls(es[..i]) + [ElementRemoved(es[i])];
        Remove(es[i]);
        i := i + 1;
      }
      assert es[..i] == es;
    }

    /** gst_bin_get_by_name. */
    method GetByName(n: string) returns (e: Option<ElementId>)
      requires Valid()
      ensures e == g.ChildNamed(n)
    {
      if x :| x in g.elements && x in g.names && g.names[x] == n {
        e := Some(x);
        var c := g.ChildNamed(n);
        assert g.HasChildNamed(x, n) && g.HasChildNamed(c.value, n);
      } else {
        e := None;
      }
    }

    /** gst_pad_link. */
    method Link(src: Pad, sink: Pad) returns (ok: bool)
      requires Valid()
      modifies this
      ensures Valid() && unchanged(this`latency, this`state, this`calls)
      ensures ok == old(g).CanLink(src, sink) && g == old(g).Linked(src, sink)
    {
      ok := g.CanLink(src, sink);
      LinkedValid(g, src, sink);
      g := g.Linked(src, sink);
    }

    /** gst_element_link_many. */
    method LinkMany(chain: seq<ElementId>, negotiable: nat) returns (ok: bool)
      requires Valid()
      modifies this
      ensures Valid() && unchanged(this`latency, this`state, this`calls)
      ensures (ok, g) == old(g).LinkedMany(chain, negotiable)
    {
      LinkedManyValid(g, chain, negotiable);
      var r := g.LinkedMany(chain, negotiable);
      ok := r.0;
      g := r.1;
    }

    /** gst_pad_unlink. */
    method Unlink(src: Pad, sink: Pad) returns (ok: bool)
      requires Valid()
      modifies this
      ensures Valid() && unchanged(this`latency, this`state)
      ensures ok == (PadLink(src, sink) in old(g.links))
      ensures g == old(g).Unlinked(src, sink) && calls == old(calls) + [PadsUnlinked(src, sink)]
    {
      ok := PadLink(src, sink) in g.links;
      g := g.Unlinked(src, sink);
      calls := calls + [PadsUnlinked(src, sink)];
    }

    /**
     * gst_element_get_request_pad(owner, name) on a child. A repeat request
     * for a name already handed out is modelled as NULL; GStreamer leaves that
     * case undefined, and SlotsFree keeps the receiver's callers away from it.
     */
    method RequestPad(owner: ElementId, name: string) returns (p: Option<Pad>)
      requires Valid() && owner in g.elements
      modifies this
      ensures Valid() && unchanged(this`latency, this`state, this`calls)
      ensures Pad(owner, name) !in old(g.requested) ==>
                p == Some(Pad(owner, name)) && g == old(g).(requested := old(g.requested) + {Pad(owner, name)})
      ensures Pad(owner, name) in old(g.requested) ==> p == None && g == old(g)
    {
      var pad := Pad(owner, name);
      if pad in g.requested {
        p := None;
      } else {
        p := Some(pad);
        g := g.(requested := g.requested + {pad});
      }
    }

    /** gst_element_release_request_pad (owner None for a NULL element). */
    method Release(owner: Option<ElementId>, pad: Pad)
      requires Valid()
      modifies this
      ensures Valid() && unchanged(this`latency, this`state)
      ensures g == old(g).Released(owner, pad)
      ensures calls == old(calls) + if owner.Some? then [PadReleased(pad)] else []
    {
      g := g.Released(owner, pad);
      if owner.Some? {
        calls := calls + [PadReleased(pad)];
      }
    }

    /** g_signal_connect(instance, "pad-added", cb_new_pad, target). */
    method Connect(instance: ElementId, target: object) returns (h: HandlerId)
      requires Valid()
      modifies this
      ensures Valid() && unchanged(this`latency, this`state, this`calls)
      ensures h == old(g.nextHandler) && h !in old(g.handlers)
      ensures g == old(g).(handlers := old(g.handlers)[h := Handler(instance, target)], nextHandler := h + 1)
    {
      h := g.nextHandler;
      g := g.(handlers := g.handlers[h := Handler(instance, target)], nextHandler := h + 1);
    }

    /** g_signal_handler_disconnect (instance None for a NULL instance). */
    method Disconnect(instance: Option<ElementId>, h: HandlerId)
      requires Valid()
      modifies this
      ensures Valid() && unchanged(this`latency, this`state)
      ensures g == old(g).Disconnected(instance, h)
      ensures calls == old(calls) + if instance.Some? then [HandlerDisconnected(h)] else []
    {
      g := g.Disconnected(instance, h);
      if instance.Some? {
        calls := calls + [HandlerDisconnected(h)];
      }
    }
  }
}
