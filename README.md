# obs-gstreamer: a Dafny model of the receiver, the OBS endpoint, the sender's settings and the NTP probe

This project models the rule systems beneath the GStreamer, OBS and argp calls of
obs-gstreamer, the "Stream in Sync" OBS plugin and its stand-alone sender and
receiver, and proves properties of them.

- **The GStreamer world** (`gst_graph.dfy`) is an abstract store rather than a
  library binding. It holds:
  - the children of the pipeline's bin;
  - each element's factory, name, port and host;
  - element states;
  - pad links (at most one peer per pad, as `gst_pad_link` demands);
  - the request pads handed out;
  - the `pad-added` handlers connected, each with the binding it was given.

  `class Pipe` holds this store as an immutable `Graph` value and updates it in
  place. Its methods are the library calls the source makes (`gst_bin_add_many`,
  `gst_element_link_many`, `gst_pad_link`, `gst_element_release_request_pad`,
  `g_signal_handler_disconnect`, ...). A ghost call log records the order of the
  teardown calls.
- **Receiver sessions** (`receiver.dfy`, `receiver_session.dfy`,
  `receiver_setup.dfy`, `receiver_names.dfy`, `decimal_text.dfy`). These model:
  - `create_streaminsync_pipeline`;
  - `add_incoming_source`, with its sixteen elements, two static chains, six
    request pads and two `pad-added` handlers;
  - the `cb_new_pad` state machine, including the `sscanf` of the pad name;
  - `link_pads`, `unlink_release_and_unref`, `set_state_many` and
    `set_source_to`;
  - `remove_incoming_source` and its fixed teardown order.

  The main results are:
  - add then remove gives the pipeline back;
  - the teardown order is respected;
  - after a rebind the depayloader sink has exactly one incoming link;
  - a binding that never recorded a source gets no dynamic unlink.
- **The OBS endpoint** (`streaminsync.dfy`, `obs_mapping.dfy`,
  `restart_policy.dfy`). These model:
  - the `add_endpoint`/`remove_endpoint` guard on `source_data`;
  - the id and port derivation;
  - the appsink checks;
  - the frame counters;
  - the bus watch with its single pending restart timer;
  - the GStreamer-to-OBS tables for video format, colour range, colour matrix,
    speaker layout and sample format.
- **The sender** (`sender_settings.dfy`, `sender_main.dfy`, `ports.dfy`). These model:
  - `gstreamer_source_get_defaults`;
  - both `parse_opt` functions with their option tables and positional-argument rules;
  - the restart decision of `bus_callback`/`timeout_destroy`;
  - the port roles of the six consecutive ports shared with the receiver.
- **The receiver demo** (`receiver_main.dfy`): the `PORTS_FROM` blocks, the two
  session configurations, and the bus loop, which stops at the first ERROR or EOS.
- **The NTP probe** (`ntp_probe.dfy`):
  - the 48-byte client request;
  - the big-endian unpacking of the answer into twelve words;
  - the shift of the transmit seconds from the NTP era to the Unix epoch
    (section 6 and section 7.3 of RFC 5905).

Library outcomes that the code cannot see in advance become parameters: whether a
factory produced an element, whether two pads' caps negotiate, whether the
pipeline accepted PLAYING, and the bus messages.

## Model

| member | source | states |
|---|---|---|
| DecimalText.DigitChar | receiver/receiver.c:7 | a value below ten prints as a decimal digit character |
| DecimalText.DigitValue | receiver/receiver.c:53 | a digit character reads as a value below ten |
| DecimalText.Decimal | receiver/receiver.c:7 | the digits "%u" (and "%d" of a non-negative value) prints for an id; DecimalIsDigits, DecimalValue and DecimalInjective state what they are |
| DecimalText.DecimalIsDigits | receiver/receiver.c:7 | "%u" of a number is a non-empty run of digits, one digit exactly when the number is below ten |
| DecimalText.DecimalValue | receiver/receiver.c:7 | reading back the digits "%u" wrote gives the number written |
| DecimalText.DecimalInjective | receiver/receiver.c:7 | two numbers that print the same are equal, so names built from ids are distinct |
| DecimalText.DigitRun | receiver/receiver.c:53 | the greedy digit run of a text: all digits, and the next character (if any) is not a digit |
| DecimalText.SpaceRun | receiver/receiver.c:53 | the leading C-locale white space "%u" skips: all white space, followed by a non-space |
| DecimalText.LeadingDigits | receiver/receiver.c:53 | the characters a decimal conversion consumes are digits |
| DecimalText.ScanUnsigned | receiver/receiver.c:53 | glibc's "%u" stores its value into an unsigned int: any value it yields is below 2^32 |
| DecimalText.StartsWithDigit | receiver/receiver.c:53 | a text starting with a digit has no white space or sign for "%u" to skip |
| DecimalText.LeadingDigitsOf | receiver/receiver.c:53 | a digit run followed by a non-digit is exactly what the conversion consumes |
| DecimalText.ScanDigits | receiver/receiver.c:53 | "%u" on a digit run followed by a non-digit yields the run's value |
| DecimalText.ScanOf | receiver/receiver.c:53 | without white space or sign, "%u" yields the value of the leading digits |
| DecimalText.ScanUnsignedOfDecimal | receiver/receiver.c:53 | "%u" reads back any id below 2^32 that "%u" printed, whatever non-digit follows |
| DecimalText.Atoi | sender/sender.c:530 | atoi: optional white space and sign, then the leading digits, 0 when there is none, as the exact integer; AtoiOfDigits and AtoiOfDecimal state its results |
| DecimalText.AtoiOfDigits | sender/sender.c:530 | atoi of a digit run is its value, and of a minus sign and a digit run the negated value |
| DecimalText.AtoiOfDecimal | sender/sender.c:530 | atoi reads back a number printed in decimal, with or without a minus sign |
| Ports.PortsFrom | receiver/main.c:3-6 | the six-port initialiser built from one base port; its contract gives the block its six entries, and PortsFromConsecutive and PortsFromDisjoint state their values |
| Ports.PortsFromConsecutive | receiver/main.c:3-6 | PORTS_FROM(p) holds p + i at position i, so the six ports are pairwise distinct |
| Ports.PortsFromDisjoint | receiver/main.c:3-6 | two blocks whose bases are at least six apart share no port |
| Ports.ReceiverPortRole | receiver/receiver.c:125-183 | ports 0-2 belong to video and 3-5 to audio on the receiver |
| Ports.SenderPortRole | sender/sender.c:263-313 | ports 0-2 belong to video and 3-5 to audio on the sender |
| Ports.RolesComplement | sender/sender.c:263-313 | on every port the sender and the receiver agree on media and channel, and exactly one of them writes while the other reads |
| Ports.ReceiverRolesDistinct | receiver/receiver.c:125-183 | the six receiver ports have six different roles (RTP in, RTCP in, RTCP out per media kind) |
| GstGraph.Graph.ChildNamed | receiver/receiver.c:106 | gst_bin_get_by_name finds a child carrying the name, and finds none only when no child carries it |
| GstGraph.Graph.Added | receiver/receiver.c:193-212 | gst_bin_add puts the element into the bin unless it is already a child or its name clashes with a child's; then the bin stays as it was |
| GstGraph.Graph.Removed | receiver/receiver.c:325 | gst_bin_remove takes the element out and drops exactly the links touching its pads |
| GstGraph.Graph.Linked | receiver/receiver.c:69 | gst_pad_link adds the link exactly when both pads belong to children, differ and have no peer; otherwise the links stay |
| GstGraph.Graph.Unlinked | receiver/receiver.c:60 | gst_pad_unlink removes exactly that link |
| GstGraph.Graph.Released | receiver/receiver.c:37 | release_request_pad gives back a request pad of that very element and drops its links; on any other pad or a NULL element it changes nothing |
| GstGraph.Graph.Disconnected | receiver/receiver.c:297-298 | a handler is disconnected only when it exists and belongs to the given (non-NULL) instance |
| GstGraph.ChainLinks | receiver/receiver.c:213-214 | the links of a chain are exactly src-to-sink between consecutive elements |
| GstGraph.LinkedValid | receiver/receiver.c:69 | gst_pad_link keeps every pad with at most one peer |
| GstGraph.LinkedManyValid | receiver/receiver.c:213-214 | gst_element_link_many keeps the graph well formed |
| GstGraph.LinkedKeepsFree | receiver/receiver.c:69 | a pad that is neither end of a new link stays free |
| GstGraph.ChainStep | receiver/receiver.c:213-214 | one link of a chain leaves the rest of the chain's pads free |
| GstGraph.LinkedManyFrame | receiver/receiver.c:213-214 | linking a chain changes nothing but the links |
| GstGraph.LinkedManyLinks | receiver/receiver.c:213-214 | linking a chain keeps every link and adds only chain links |
| GstGraph.LinkedManyOutcome | receiver/receiver.c:213-214 | linking a chain with free pads succeeds exactly when every pair negotiates, and then adds all of its links |
| GstGraph.LinkedManyFresh | receiver/receiver.c:213-218 | on success exactly the chain links are added; on failure only some of them, and nothing is undone |
| GstGraph.ChainHead | receiver/receiver.c:213-214 | the first link of a chain with free pads is made |
| GstGraph.AllSetFacts | receiver/receiver.c:252-266 | setting a state on a list sets it on each element of the list and keeps every other element's state |
| GstGraph.RemoveCalls | receiver/receiver.c:325 | gst_bin_remove_many logs one removal per element, in order |
| GstGraph.RemovedAllFacts | receiver/receiver.c:325 | removing elements takes exactly them out of the bin and drops exactly the links touching them |
| GstGraph.AddedAllFresh | receiver/receiver.c:193-212 | adding distinct fresh elements with unclashing names puts exactly them into the bin |
| GstGraph.AddedAllNamesFresh | receiver/receiver.c:193-212 | the same, with the name condition stated on the set of elements added |
| GstGraph.UntouchedChainFree | receiver/receiver.c:213-214 | a chain none of whose elements has a linked pad has its chain pads free |
| GstGraph.Pipe.constructor | receiver/receiver.c:78 | gst_pipeline_new gives an empty bin in state NULL |
| GstGraph.Pipe.Make | receiver/receiver.c:117 | gst_element_factory_make gives a fresh element with its factory and name, or NULL, adding nothing to the bin |
| GstGraph.Pipe.SetPort | receiver/receiver.c:125-126 | setting "port" records the port, and does nothing on a NULL element |
| GstGraph.Pipe.SetHost | receiver/receiver.c:146-147 | setting "host" records the host, and does nothing on a NULL element |
| GstGraph.Pipe.Add | receiver/receiver.c:97 | gst_bin_add updates the graph as Graph.Added |
| GstGraph.Pipe.Remove | streaminsync.c:417 | gst_bin_remove updates the graph as Graph.Removed |
| GstGraph.Pipe.SetState | receiver/receiver.c:260 | gst_element_set_state records the state of a non-NULL element |
| GstGraph.Pipe.SetPipelineState | receiver/main.c:48-49 | a refused state change leaves the pipeline's state as it was |
| GstGraph.Pipe.AddMany | receiver/receiver.c:193-212 | gst_bin_add_many adds the elements one at a time, in order |
| GstGraph.Pipe.RemoveMany | receiver/receiver.c:325 | gst_bin_remove_many removes the elements one at a time and logs each removal |
| GstGraph.Pipe.GetByName | receiver/receiver.c:106 | the lookup returns the child carrying the name, if there is one |
| GstGraph.Pipe.Link | receiver/receiver.c:12-16 | gst_pad_link succeeds exactly when it adds the link |
| GstGraph.Pipe.LinkMany | receiver/receiver.c:213-214 | gst_element_link_many links consecutive pairs until one fails |
| GstGraph.Pipe.Unlink | receiver/receiver.c:30-34 | gst_pad_unlink removes the link and logs the call |
| GstGraph.Pipe.RequestPad | receiver/receiver.c:9 | a request pad of a child is handed out once; a repeat request for a name already handed out is modelled as NULL, a case GStreamer leaves undefined and `SlotsFree` keeps out of reach (see Left out on Receiver.AddIncomingSource) |
| GstGraph.Pipe.Release | receiver/receiver.c:37 | release_request_pad updates the graph as Graph.Released and logs the call |
| GstGraph.Pipe.Connect | receiver/receiver.c:244-245 | g_signal_connect adds a handler with a fresh id on the instance |
| GstGraph.Pipe.Disconnect | receiver/receiver.c:297-298 | g_signal_handler_disconnect updates the graph as Graph.Disconnected and logs the call |
| ReceiverNames.RequestPadName | receiver/receiver.c:222-228 | the rtpbin request pad names "recv_rtp_sink_%d", "recv_rtcp_sink_%d" and "send_rtcp_src_%d" for a session id; RequestPadNameInjective and KindOfName state that they are distinct |
| ReceiverNames.VideoSinkName | receiver/receiver.c:135-136 | the "video_sink_<id>" name of the appsink of a video session; SinkNamesInjective states that the names are distinct |
| ReceiverNames.AudioSinkName | receiver/receiver.c:169 | the "audio_sink_<id>" name of the appsink of an audio session; SinkNamesInjective states that the names are distinct |
| ReceiverNames.ScanPadId | receiver/receiver.c:53 | a pad name is taken only when it starts with "recv_rtp_src_" and the first "%u" succeeds; the id is below 2^32 |
| ReceiverNames.ScanPadIdOf | receiver/receiver.c:53-54 | whatever follows the id (ssrc, payload type or nothing), the id is read back |
| ReceiverNames.DynamicPadMatches | receiver/receiver.c:53-54 | a pad announced for session id is taken by a binding exactly when the binding's id is that id |
| ReceiverNames.RequestPadNotScanned | receiver/receiver.c:53 | the receiver's own request pads never scan as announced receive pads |
| ReceiverNames.KindOfName | receiver/receiver.c:222-228 | the kind of a request pad can be read back from its name |
| ReceiverNames.RequestPadNameInjective | receiver/receiver.c:222-228 | a request pad name determines both its kind and its id |
| ReceiverNames.RequestPadNamesInjective | receiver/receiver.c:222-228 | the same, for all kinds and ids at once |
| ReceiverNames.SinkNamesInjective | receiver/receiver.c:135-136 | sink names are injective in the id, and no video sink name is an audio sink name |
| ReceiverSession.Elements.Created | receiver/receiver.c:117-183 | the sixteen session elements in creation order |
| ReceiverSession.Elements.AddOrder | receiver/receiver.c:193-212 | the sixteen elements in gst_bin_add_many order |
| ReceiverSession.Elements.SourceElems | receiver/receiver.c:268-283 | the sixteen elements in SOURCE_ELEMS order |
| ReceiverSession.ElementsFrom | receiver/receiver.c:117-183 | sixteen consecutive fresh ids, in creation order |
| ReceiverSession.ElementsFromDistinct | receiver/receiver.c:117-183 | consecutive ids give sixteen different elements |
| ReceiverSession.OrdersAgree | receiver/receiver.c:268-283 | creation, add and SOURCE_ELEMS orders name the same sixteen elements: remove takes out exactly what add put in |
| ReceiverSession.Session.Wires | receiver/receiver.c:222-228 | the six request-pad wires in the order they are requested and released |
| ReceiverSession.StateCalls | receiver/receiver.c:258-263 | set_state_many makes one state call per element, in list order |
| ReceiverSession.Teardown | receiver/receiver.c:289-328 | remove_incoming_source on the graph: handlers disconnected, elements to NULL, recorded sources unlinked, request pads released, elements removed; the ReceiverTeardown lemmas state the result |
| ReceiverSession.TeardownCalls | receiver/receiver.c:297-325 | the calls remove_incoming_source makes, in order; TeardownCallOrder and TeardownNullBeforeRemove state that order |
| ReceiverTeardown.DroppedDynamicFacts | receiver/receiver.c:302-315 | dropping recorded sources takes away only links into the depayloader sinks |
| ReceiverTeardown.UnlinkReleasedFacts | receiver/receiver.c:25-41 | unlink_release_and_unref removes the wire's link; with rtpbin found it releases the pad and leaves no link on it, otherwise the request pads stay |
| ReceiverTeardown.ReleasedWiresFacts | receiver/receiver.c:317-323 | releasing the six wires keeps links off their pads, and with rtpbin found gives back every request pad and leaves no link on it |
| ReceiverTeardown.DetachedFacts | receiver/receiver.c:297-315 | detaching disconnects exactly the two handlers on rtpbin, sets SOURCE_ELEMS to NULL and takes only links into the depayloader sinks |
| ReceiverTeardown.TeardownElements | receiver/receiver.c:289-328 | exactly the session's elements leave the bin, and only links, request pads, handlers and states change |
| ReceiverTeardown.TeardownStates | receiver/receiver.c:300 | every session element ends in NULL, every other element keeps its state |
| ReceiverTeardown.TeardownLinks | receiver/receiver.c:289-328 | no link touches a session element afterwards, links off the session stay, and with rtpbin found none is left on the request pads |
| ReceiverTeardown.TeardownLinksLeft | receiver/receiver.c:289-328 | every link left after teardown was there before and touches no session element |
| ReceiverTeardown.TeardownKeeps | receiver/receiver.c:289-328 | a link not involving the session survives the teardown |
| ReceiverTeardown.KeptByDetach | receiver/receiver.c:297-315 | detaching keeps links not involving the session |
| ReceiverTeardown.KeptByRelease | receiver/receiver.c:317-323 | releasing the request pads keeps links not involving the session |
| ReceiverTeardown.KeptByRemove | receiver/receiver.c:325 | removing the sixteen elements keeps links not involving the session |
| ReceiverTeardown.TeardownRequested | receiver/receiver.c:317-323 | with rtpbin found the six request pads are given back; without it none is |
| ReceiverTeardown.AddRemoveRestores | receiver/receiver.c:289-328 | tearing down an installed session gives back the elements, links, request pads and handlers from before the add, whatever sources the bindings recorded |
| ReceiverTeardown.TeardownCallOrder | receiver/receiver.c:297-325 | handlers are disconnected before any state change, state changes precede every unlink and release, and elements leave the bin last |
| ReceiverTeardown.WireSinks | receiver/receiver.c:230-231 | the two depayloader sink pads differ from each other and from every wire's sink end |
| ReceiverTeardown.DynamicUnlinkIffRecorded | receiver/receiver.c:302-315 | the depayloader sink is unlinked during teardown exactly when a source was recorded for it |
| ReceiverTeardown.TeardownNullBeforeRemove | receiver/receiver.c:300-325 | each session element is set to NULL before it is removed |
| ReceiverTeardown.TeardownRemovesOnlyMembers | receiver/receiver.c:325 | teardown removes no element but the session's own |
| ReceiverSetup.WiredOne | receiver/receiver.c:3-23 | link_pads on the graph: request the rtpbin pad, look up the static pad, link them in the wire's direction; WireLinkPads and WiredOneFresh state the result |
| ReceiverSetup.WiredAll | receiver/receiver.c:222-228 | the six link_pads calls in order; WiredAllFresh and WiredPrefixFresh state the result |
| ReceiverSetup.SessionOf | receiver/receiver.c:222-245 | the session add_incoming_source records: its elements, six request pads, two sinks and two handler ids; SessionOfWires, SessionOfApart and SessionOfRequestPads state its shape |
| ReceiverSetup.WireLinkPads | receiver/receiver.c:10-17 | a wire's link joins exactly its static pad and its request pad, in the direction its type names |
| ReceiverSetup.WiredOneFresh | receiver/receiver.c:3-23 | link_pads on free pads of children hands out the pad and adds the wire's link |
| ReceiverSetup.WiresUntouched | receiver/receiver.c:222-228 | a wire apart from the earlier ones finds its pads untouched by their links |
| ReceiverSetup.WiredAllFresh | receiver/receiver.c:222-228 | wiring apart and free wires hands out every request pad, adds every link and changes nothing else |
| ReceiverSetup.LastWireFree | receiver/receiver.c:222-228 | after the wires before it, the last wire's pads are still free |
| ReceiverSetup.WiredLastFresh | receiver/receiver.c:222-228 | wiring the last free wire on top of the others adds its pad and its link |
| ReceiverSetup.InitApart | receiver/receiver.c:222-228 | the wires before the last are apart and free, and the last request pad is none of theirs |
| ReceiverSetup.WireSetsStep | receiver/receiver.c:222-228 | appending a wire adds its request pad and its link to the wires' sets |
| ReceiverSetup.WiredPrefixFresh | receiver/receiver.c:222-228 | the k-th link_pads call finds its pad not yet handed out, and wiring k + 1 wires is wiring k and then the k-th |
| ReceiverSetup.MediaWires | receiver/receiver.c:222-224 | one media kind has three wires: RTP and RTCP into rtpbin, RTCP out of it |
| ReceiverSetup.SessionWires | receiver/receiver.c:222-228 | the six wires of a session, video then audio |
| ReceiverSetup.RequestedOf | receiver/receiver.c:222-228 | the request pads of a run of wires, one per wire, in order |
| ReceiverSetup.SessionOfWires | receiver/receiver.c:222-228 | the session's wires are those six, whatever its handlers |
| ReceiverSetup.SessionOfApart | receiver/receiver.c:222-228 | with distinct elements and ids and rtpbin outside the session, its six wires use twelve different pads |
| ReceiverSetup.PortElementsApart | receiver/receiver.c:222-228 | the six port elements of a session are distinct |
| ReceiverSetup.SessionRequestPadsApart | receiver/receiver.c:222-228 | a session with two different ids requests six different pads |
| ReceiverSetup.SessionOfPadsApart | receiver/receiver.c:222-228 | a session of distinct elements and ids has pairwise apart wires |
| ReceiverSetup.Bound | receiver/receiver.c:56-69 | the invariant of a pad binding: every link into its sink comes from the recorded source, and none leaves the sink; ReboundBinds states that cb_new_pad keeps it |
| ReceiverSetup.Rebound | receiver/receiver.c:56-69 | cb_new_pad on a matching pad: unlink the sink from the recorded source when linked, then link the new pad; ReboundBinds, ReboundInstalled and ReboundLinks state the result |
| ReceiverSetup.ReboundBinds | receiver/receiver.c:56-69 | a rebind records the new pad and changes only links into the sink; on a free pad exactly one link into the sink is left, from the new pad |
| ReceiverSetup.ReboundInstalled | receiver/receiver.c:56-69 | rebinding one of the session's own sinks keeps the session installed |
| ReceiverSetup.ReboundLinks | receiver/receiver.c:56-69 | rebinding may drop links into the sink and add the one from the new pad, within the bin |
| ReceiverSetup.SessionOfRequestPads | receiver/receiver.c:222-228 | the request pads of a session are the pads of its two ids |
| Receiver.LatencyNs | receiver/receiver.c:80 | the latency in milliseconds times GST_MSECOND, as a non-negative clock time |
| Receiver.CreateStreaminsyncPipeline | receiver/receiver.c:76-100 | a fresh pipeline with the configured latency whose only child, when the factory produced it, is "rtpbin" |
| Receiver.MakeUdp | receiver/receiver.c:117-128 | a udpsrc or udpsink with the given port and host, or NULL with nothing set |
| Receiver.MakeChain | receiver/receiver.c:130-133 | four unnamed elements from the chain's factories, in order, none in the bin |
| Receiver.MakeDecoder | receiver/receiver.c:130-140 | the four chain elements, then the sink named from the id |
| Receiver.MakeMedia | receiver/receiver.c:117-150 | one media kind's eight elements in creation order, with ports[0..2] and the destination where the source sets them |
| Receiver.MakeRtp | receiver/receiver.c:117-140 | the RTP udpsrc on the first port, then the decoding elements and the sink |
| Receiver.MakeRtcp | receiver/receiver.c:142-150 | the RTCP udpsrc on the second port and the udpsink sending to the destination on the third |
| Receiver.MediaSeq | receiver/receiver.c:117-183 | one media kind's eight factories, in creation order |
| Receiver.SessionFactories | receiver/receiver.c:117-183 | the sixteen factories, in creation order |
| Receiver.CreateElements | receiver/receiver.c:117-191 | a session exists exactly when all sixteen calls produced an element; only elements are created, and bin, links, pads and handlers stay |
| Receiver.MediaFactoriesAt | receiver/receiver.c:117-183 | the factory stored at an id by one media kind's calls, or the one it had before |
| Receiver.SessionFactoryAt | receiver/receiver.c:117-183 | the i-th store holds the i-th session factory |
| Receiver.WithElementsFactories | receiver/receiver.c:117-183 | after the factory calls the session's elements carry their factories in creation order |
| Receiver.WithElementsPorts | receiver/receiver.c:125-183 | the udpsrc and udpsink elements carry the six configured ports in order |
| Receiver.WithElementsNames | receiver/receiver.c:135-181 | the two sinks carry their names and both RTCP udpsinks the destination |
| Receiver.AddSessionElements | receiver/receiver.c:193-212 | with fresh names all sixteen elements join the bin |
| Receiver.LinkChains | receiver/receiver.c:213-218 | success needs all four pairs of both chains to negotiate; the audio chain is tried only after the video chain succeeded; on failure the links made so far stay |
| Receiver.AddOrderDistinct | receiver/receiver.c:193-212 | the add order lists sixteen different elements |
| Receiver.CreatedApart | receiver/receiver.c:117-183 | two different creation positions hold different elements |
| Receiver.ChainsApart | receiver/receiver.c:213-214 | the two chains use different elements, each of distinct ones |
| Receiver.PadBinding.constructor | receiver/receiver.c:235-241 | a binding watches its sink for its id, with no source recorded |
| Receiver.CbNewPad | receiver/receiver.c:42-74 | a matching pad is recorded and linked after the sink is unlinked from the previous source; any other pad changes nothing |
| Receiver.LinkPads | receiver/receiver.c:3-23 | requests the pad named after kind and id and links it with the static pad, in the direction of the type |
| Receiver.LinkSessionPads | receiver/receiver.c:222-228 | on free pads every request pad is handed out and returned, and every wire is linked |
| Receiver.LinkMediaWires | receiver/receiver.c:222-224 | the three link_pads calls of one media kind on apart and free wires |
| Receiver.LinkWire | receiver/receiver.c:222-228 | one link_pads call on an apart and free wire hands out and returns its pad |
| Receiver.UnlinkReleaseAndUnref | receiver/receiver.c:25-41 | unlinks the wire in the direction of the type, then releases the request pad from rtpbin, or from nothing when rtpbin was not found |
| Receiver.UpToNull | receiver/receiver.c:258 | the elements of a variadic list before its NULL terminator |
| Receiver.Terminated | receiver/receiver.c:286 | the list `es..., NULL` |
| Receiver.UpToNullTerminated | receiver/receiver.c:286 | passing `es..., NULL` hands over exactly `es` |
| Receiver.SetStateMany | receiver/receiver.c:252-266 | every element of the list up to the NULL gets the state, in order, and nothing else changes |
| Receiver.SourceData.constructor | receiver/receiver.c:230-242 | the bindings watch the depayloaders' sink pads for the configured ids, with no source recorded |
| Receiver.SetSourceTo | receiver/receiver.c:284-287 | every session element, in SOURCE_ELEMS order, gets the state |
| Receiver.ReleasedSix | receiver/receiver.c:317-323 | the six unlink_release_and_unref calls one after the other |
| Receiver.DropRecordedSources | receiver/receiver.c:302-315 | a media kind with a recorded source is unlinked from it, video then audio; a kind without one is skipped |
| Receiver.ReleaseMediaPads | receiver/receiver.c:317-319 | one media kind's three unlink_release_and_unref calls |
| Receiver.ReleaseRequestPads | receiver/receiver.c:317-323 | the six request pads are unlinked and released, video then audio |
| Receiver.DisconnectHandlers | receiver/receiver.c:297-298 | both handlers are disconnected, video then audio |
| Receiver.QuiesceSession | receiver/receiver.c:297-300 | handlers disconnected, then every session element set to NULL |
| Receiver.DetachSession | receiver/receiver.c:297-315 | handlers, states, then recorded sources, in that order |
| Receiver.RemoveIncomingSource | receiver/receiver.c:289-328 | the graph afterwards is the teardown of the graph before, for the rtpbin found (possibly none) and the sources recorded, with the calls in the mandatory order |
| Receiver.MembersFrom | receiver/receiver.c:117-183 | the sixteen elements from a base are exactly the ids from it |
| Receiver.CreatedOutside | receiver/receiver.c:117-183 | new elements are known to the pipeline but not children, and no link touches them |
| Receiver.CreatedNamesFresh | receiver/receiver.c:135-170 | only the two sinks are named, and by names no child carries |
| Receiver.SinkNamingFresh | receiver/receiver.c:135-170 | naming two new ids by two unused names keeps names unique |
| Receiver.WireElementsOffChains | receiver/receiver.c:213-228 | no chain holds an element a wire links statically |
| Receiver.ChainLinkOwners | receiver/receiver.c:213-214 | a chain link touches only pads of chain elements |
| Receiver.PadsOffChainsFree | receiver/receiver.c:213-228 | two pads off the chains, unlinked before, stay unlinked once the chains are linked |
| Receiver.PadOffChainsFree | receiver/receiver.c:213-228 | one pad off the chains, unlinked before, stays unlinked once the chains are linked |
| Receiver.ChainAvoids | receiver/receiver.c:213-214 | no chain link touches a pad of an element off the chain |
| Receiver.ChainsFrom | receiver/receiver.c:213-214 | the chains of consecutive ids are two runs of five |
| Receiver.SessionWireShape | receiver/receiver.c:222-228 | each wire goes from an rtpbin pad of the session's ids to a port element |
| Receiver.WireReady | receiver/receiver.c:222-228 | one wire is still free after the chains are linked |
| Receiver.WiresReady | receiver/receiver.c:222-228 | after the chains are linked the six wires are free: request pads neither handed out nor linked, static pads on untouched port elements |
| Receiver.BelowNext | receiver/receiver.c:193-212 | before the add, rtpbin and every linked pad belong to children with ids below the new ones |
| Receiver.SessionOfSets | receiver/receiver.c:222-228 | the session's request pads and links are those of its six wires |
| Receiver.AddInstalls | receiver/receiver.c:102-250 | on success the session is installed: its elements, request pads and handlers added, and every new link involving the session |
| Receiver.SessionPadsOnBin | receiver/receiver.c:222-228 | the six request pads belong to rtpbin and are free |
| Receiver.SessionStatics | receiver/receiver.c:222-228 | every static pad a session wires belongs to one of its elements |
| Receiver.InstalledLinks | receiver/receiver.c:213-228 | the installed links are the old ones, the chain links and the wire links |
| Receiver.NewLinkInvolves | receiver/receiver.c:213-228 | a link the session adds involves the session and stays inside the bin |
| Receiver.WireLinkInvolves | receiver/receiver.c:222-228 | a wire link touches one of the session's request pads |
| Receiver.ChainLinkInBin | receiver/receiver.c:213-214 | a chain link joins two new elements |
| Receiver.OldLinkApart | receiver/receiver.c:193-228 | a link from before touches neither the new elements nor the free request pads |
| Receiver.AddIncomingSource | receiver/receiver.c:102-250 | without "rtpbin" nothing happens; a failed factory call adds nothing; a failed chain link leaves the elements and links made so far; on success the session is installed and its teardown restores the pipeline |
| Receiver.SinksReadyFrom | streaminsync.c:396-450 | once the session is added and linked, each appsink is found by its name and its sink pad has a peer |
| Receiver.SinkFound | streaminsync.c:398 | a child carrying a name is the one the bin returns for it |
| Receiver.ChainEndLinked | receiver/receiver.c:213-214 | once a chain is linked, the sink pad of its last element has a peer |
| Receiver.WireSession | receiver/receiver.c:222-249 | the six link_pads calls, the two bindings and the two handlers on rtpbin, with the session installed |
| Receiver.SessionWiresReady | receiver/receiver.c:222-228 | after the chains are linked the six wires are apart and free |
| Receiver.BindSession | receiver/receiver.c:230-245 | the bindings on the depayloaders' sink pads and two handlers on rtpbin carrying them |
| Receiver.ConnectBindings | receiver/receiver.c:244-245 | the two g_signal_connect calls and the handler ids stored |
| Receiver.SessionFromPads | receiver/receiver.c:222-228 | the session built from the pads link_pads returned is the session of the two ids |
| RestartPolicy.React | sender/sender.c:133-175 | one bus_callback call: ERROR and EOS stop the pipeline and may create a restart timer, other messages do nothing; ReactSpec states when |
| RestartPolicy.Triggers | sender/sender.c:147-153 | ERROR with restart_on_error set, or EOS with restart_on_eos set; ReactSpec states that it decides timer creation |
| RestartPolicy.After | sender/sender.c:149-159 | the `timeout` field after one call: the created timer, else unchanged; PendingAfterSpec and AtMostOneTimer state that at most one timer is pending |
| RestartPolicy.ReactSpec | sender/sender.c:140-160 | the watch stops the pipeline exactly on ERROR and EOS, and creates a timer with the configured interval exactly when the type's flag is set and none is pending |
| RestartPolicy.ReactIdempotent | sender/sender.c:149-160 | a second identical message creates nothing and leaves the pending timer as it is |
| RestartPolicy.PendingAfterSpec | streaminsync.c:113-139 | over any run of messages a pending timer is kept; without one, a timer is pending afterwards exactly when some message triggers a restart |
| RestartPolicy.AtMostOneTimer | streaminsync.c:113-139 | repeated ERROR/EOS messages create at most one timer, and none while one is pending |
| ObsMapping.VideoFormat | streaminsync.c:215-247 | the GStreamer-to-OBS video format switch; VideoFormatTable and VideoFormatOnto state its cases |
| ObsMapping.VideoFormatOnto | streaminsync.c:215-247 | every OBS format produced is reached from some GStreamer format |
| ObsMapping.VideoFormatTable | streaminsync.c:215-247 | only unknown formats map to NONE, and two formats share an OBS format only when they are RGBx and RGBA |
| ObsMapping.ColorRange | streaminsync.c:184-196 | the range switch, giving the OBS range and the full_range flag; ColorRangeFlag states how the two agree |
| ObsMapping.ColorRangeFlag | streaminsync.c:184-196 | full_range is set exactly when the range is FULL, which only 0-255 gives; 16-235 gives PARTIAL |
| ObsMapping.Colorspace | streaminsync.c:198-209 | the colour matrix switch; ColorspaceTable states its cases |
| ObsMapping.ColorspaceTable | streaminsync.c:198-209 | BT.709 and BT.601 are kept, anything else becomes DEFAULT, and the map is injective |
| ObsMapping.SpeakerLayout | streaminsync.c:281-309 | the channel-count switch, unknown for 7 and for counts it has no case for; SpeakerLayoutRoundTrip states it against ChannelCount |
| ObsMapping.ChannelCount | streaminsync.c:281-309 | the channel count of each OBS layout, the inverse the layout switch is checked against in SpeakerLayoutRoundTrip |
| ObsMapping.SpeakerLayoutRoundTrip | streaminsync.c:281-309 | channel counts 1-6 and 8 map to the layout with that many channels, every other count (7 included) to UNKNOWN, and every layout comes back |
| ObsMapping.AudioFormat | streaminsync.c:311-330 | the sample format switch; AudioFormatTable states its cases |
| ObsMapping.SampleBytes | streaminsync.c:311-330 | the bytes per sample of each OBS format, used by AudioFramesExact to relate the frame count to the buffer size |
| ObsMapping.AudioFormatTable | streaminsync.c:311-330 | the four sample formats keep their width, others become UNKNOWN, and the map is injective |
| ObsMapping.AudioFrames | streaminsync.c:271 | the number of whole frames in the buffer; a trailing partial frame is dropped |
| ObsMapping.AudioFramesExact | streaminsync.c:271 | a buffer of whole frames gives back exactly their number |
| Streaminsync.EndpointIds | streaminsync.c:363-364 | the video and audio session ids of an endpoint, 2 * source_id and 2 * source_id + 1; EndpointIdsDisjoint states that endpoints never share an id |
| Streaminsync.ConfigOf | streaminsync.c:373-382 | the receiver configuration add_endpoint builds from the settings; its body gives the ids, address and six ports, and FillPorts states the port loop |
| Streaminsync.EndpointIdsDisjoint | streaminsync.c:363-364 | the video id is even and the audio id the next odd number, so distinct sources never share an id |
| Streaminsync.FillPorts | streaminsync.c:378-382 | the loop sets ports[ii] = port + ii for the six ports |
| Streaminsync.GlobalData.constructor | streaminsync.c:54 | no timer pending |
| Streaminsync.GlobalData.BusCallback | streaminsync.c:106-154 | ERROR and EOS set the pipeline to NULL and schedule a 2000 ms restart unless one is pending; other messages change nothing |
| Streaminsync.GlobalData.Restart | streaminsync.c:120-140 | the ERROR/EOS branch, shared by the fallthrough |
| Streaminsync.GlobalData.TimeoutDestroy | streaminsync.c:56-63 | the fired timer is destroyed and the field cleared |
| Streaminsync.StartSession | streaminsync.c:384-450 | add the session, set it to PLAYING, then both appsink blocks, none of which removes a sink; the pipeline's own state and latency are kept and the only calls logged are the PLAYING state calls on the session's elements |
| Streaminsync.AddAndPlay | streaminsync.c:384-385 | add_incoming_source followed by set_source_to(PLAYING): the session is installed, its elements are PLAYING, and those state calls are the only calls logged |
| Streaminsync.CheckSinks | streaminsync.c:396-450 | on a session whose appsinks are found and linked, nothing is removed, no call is logged and both blocks complete |
| Streaminsync.NullSessionExcluded | streaminsync.c:384-385 | an input where one element cannot be made, so add_incoming_source returns NULL and set_source_to dereferences it, is not Startable: AddEndpoint's requires excludes a case the program reaches |
| Streaminsync.TryStartSession | streaminsync.c:384-450 | with the NULL check in front of set_source_to: the session is returned exactly when it is Startable; without one no state changes and nothing is logged; with one it is started as by StartSession |
| Streaminsync.StatesKeepSinks | streaminsync.c:385 | setting element states keeps the appsinks found by name and linked |
| Streaminsync.StatesKeepInstalled | streaminsync.c:385 | setting element states keeps an installed session installed |
| Streaminsync.DropUnlinkedSink | streaminsync.c:397-420 | an appsink found by name is removed from the bin exactly when its sink pad has no peer |
| Streaminsync.Endpoint.constructor | streaminsync.c:361-370 | no session held, both counters at zero |
| Streaminsync.Endpoint.AddEndpoint | streaminsync.c:361-454 | with a session already held nothing changes; otherwise the session of the two ids is added and started, only its PLAYING state calls are logged, and the counters are reset; the pipeline's state and latency are kept |
| Streaminsync.Endpoint.AddEndpointChecked | streaminsync.c:361-454 | add_endpoint with the NULL check moved in front of set_source_to: source_data is set exactly when the session is Startable; otherwise nothing is set to PLAYING, nothing is logged and the counters are kept |
| Streaminsync.Endpoint.Attach | streaminsync.c:372-453 | add_endpoint past its guard: the session is started, only its PLAYING state calls are logged, and the counters are reset |
| Streaminsync.Endpoint.RemoveEndpoint | streaminsync.c:456-469 | without a session nothing changes; otherwise the session is torn down and forgotten, the shared pipeline keeps its state and latency, and the calls logged are exactly those of remove_incoming_source, in its order |
| Streaminsync.Endpoint.VideoNewSample | streaminsync.c:156-255 | the timestamp is the PTS when use_timestamps_video is set, otherwise the frame counter, which is then incremented; format, range and colour space follow the tables |
| Streaminsync.Endpoint.AudioNewSample | streaminsync.c:257-338 | whole frames, the rate, the layout and the format from the tables; without use_timestamps_audio the audio counter is incremented |
| SenderSettings.Defaults | sender/sender.c:464-482 | gstreamer_source_get_defaults, which leaves the two ids alone; DefaultsSpec states its values |
| SenderSettings.DefaultsSpec | sender/sender.c:464-482 | the defaults restart on ERROR and EOS after 2000 ms on ports 5000-5005, whatever the settings held before |
| SenderSettings.KeyOf | sender/sender.c:56-65 | argp finds the first table entry carrying a long option name |
| SenderSettings.Positionals | sender/sender.c:519-538 | the positional arguments of a command line, in order |
| SenderSettings.TokenKey | sender/sender.c:56-65 | the key parse_opt is called with for a token, or none for an option the table lacks |
| SenderSettings.ParseStep | sender/sender.c:487-549 | parse_opt on a settings value; ParseStepRules, ParseStepUnknown and ParseStepUnknownIff state its rules |
| SenderSettings.Run | sender/sender.c:555-559 | argp_parse over the tokens with one parser and table; RunCounts, RunTarget and RunPolicy state its result |
| SenderSettings.ParseStepCounts | sender/sender.c:519-544 | a third positional argument, or fewer than two at the end, gives argp_usage |
| SenderSettings.ParseStepHandles | sender/sender.c:492-517 | parse_opt returns 0 for every option key of a table whose keys it recognises |
| SenderSettings.ParseStepUnknown | sender/sender.c:546-547 | an option key parse_opt does not recognise, or a special key, gives ARGP_ERR_UNKNOWN and leaves the settings unchanged |
| SenderSettings.ParseStepUnknownIff | sender/sender.c:492-548 | parse_opt returns ARGP_ERR_UNKNOWN exactly for the special keys and the unrecognised options |
| SenderSettings.ParseStepTarget | sender/sender.c:526-533 | the first positional argument sets the receiver address, the second the six ports from its atoi |
| SenderSettings.ParseStepKeeps | sender/sender.c:492-548 | parse_opt never changes the restart policy, and only a positional argument changes the receiver address |
| SenderSettings.ParseStepRules | sender/sender.c:492-548 | parse_opt obeys the counting, handling and target rules, for the table as written and the corrected one |
| SenderSettings.RunStep | sender/sender.c:492-548 | one token whose key parse_opt accepts is consumed by one parse_opt call |
| SenderSettings.KnownTail | sender/sender.c:56-65 | the rest of a command line whose options are known has known options |
| SenderSettings.RunCounts | sender/sender.c:519-544 | a command line of known options parses exactly when it has two positional arguments; otherwise argp_usage |
| SenderSettings.RunTarget | sender/sender.c:526-533 | a parsed command line sends to its first positional argument on the six ports from its second |
| SenderSettings.RunPolicy | sender/sender.c:492-548 | a parsed command line keeps the restart policy |
| SenderSettings.ParseCommandLineAsWritten | sender/sender.c:555-559 | main's defaults then argp_parse with the table as written; CommandLineSpec and SenderAudioSourceFixed state its result |
| SenderSettings.ParseCommandLine | sender/sender.c:56-65 | the same parse with "audiosrc" under SHORT_AUDIO_SOURCE (see Findings); CommandLineSpecCorrected states its result |
| SenderSettings.CommandLineSpec | sender/sender.c:555-559 | with the table as written, a command line of known options never hits an unknown option, exits through argp_usage exactly when it does not have two positionals, and otherwise targets the first positional and the six ports from the second, with the default restart policy |
| SenderSettings.CommandLineSpecCorrected | sender/sender.c:555-559 | the same three rules with the corrected table |
| SenderSettings.NoAudioKey | sender/sender.c:57-58 | no entry of the table as written carries SHORT_AUDIO_SOURCE |
| SenderSettings.ParseStepAudio | sender/sender.c:494-499 | only SHORT_AUDIO_SOURCE sets the audio source |
| SenderSettings.ParseStepOnlyAudioKey | sender/sender.c:494-499 | parse_opt sets the audio source only for SHORT_AUDIO_SOURCE |
| SenderSettings.AudioSourceNeverSet | sender/sender.c:57-58 | with no entry for SHORT_AUDIO_SOURCE no command line changes the audio source: it stays "audiotestsrc" |
| SenderSettings.SenderAudioSourceFixed | sender/sender.c:57-58 | the sender as written never takes its audio source from the command line |
| SenderSettings.AudiosrcAsWritten | sender/sender.c:57-58 | "--audiosrc NAME IP PORT" sets the video source to NAME and keeps the default audio source |
| SenderSettings.AudiosrcCorrected | sender/sender.c:57-58 | the same command line with the corrected table sets the audio source and keeps the video source |
| SenderSettings.AudiosrcRun | sender/sender.c:494-499 | "--audiosrc NAME IP PORT" with the key k parses and sets what key k sets, the address and the ports |
| SenderSettings.TwoPositionalsRun | sender/sender.c:519-544 | "IP PORT" alone parses, keeps both sources and sets the address and the six ports |
| SenderSettings.Settings.constructor | sender/sender.c:557 | a settings_t with its own six-slot port array, before the defaults |
| SenderSettings.Settings.SetPorts | sender/sender.c:531-532 | receiver_ports[ii] = port + ii for the six ports, nothing else changes |
| SenderSettings.Settings.GetDefaults | sender/sender.c:464-482 | the fields become the defaults, the ids keep their values |
| SenderSettings.Settings.SetDefaultTargets | sender/sender.c:466-475 | the restart policy, the receiver address and ports, and the NTP server of the defaults |
| SenderSettings.Settings.SetDefaultMedia | sender/sender.c:476-481 | the sources and video parameters of the defaults |
| SenderSettings.Settings.ParseOpt | sender/sender.c:487-549 | one parse_opt call in place, with the settings and outcome of the value model |
| SenderSettings.Settings.SetOption | sender/sender.c:494-517 | the option cases in place |
| SenderSettings.Settings.SetPositional | sender/sender.c:519-538 | the positional case in place |
| SenderSettings.SenderData.constructor | sender/sender.c:430-440 | settings attached, no timer pending |
| SenderSettings.SenderData.BusCallback | sender/sender.c:133-175 | ERROR and EOS stop the pipe; a restart timer with restart_timeout is created when the type's flag is set and none is pending |
| SenderSettings.SenderData.Restart | sender/sender.c:147-161 | the ERROR/EOS branch, with the flag of the message type |
| SenderSettings.SenderData.TimeoutDestroy | sender/sender.c:105-112 | the fired timer is destroyed and the field cleared |
| SenderMain.ParseStepMain | sender/main.c:45-116 | parse_opt of the front end; ParseStepMainIds, ParseStepMainRules and ParseStepMainUnknown state its rules |
| SenderMain.ParseCommandLineAsWritten | sender/main.c:121-125 | the defaults then argp_parse with the table as written; CommandLineSpec, IdsFromOptions and MainAudioSourceFixed state its result |
| SenderMain.ParseCommandLine | sender/main.c:31-42 | the same parse with "audiosrc" under SHORT_AUDIO_SOURCE (see Findings); CommandLineSpecCorrected and IdsFromOptionsCorrected state its result |
| SenderMain.ParseStepMainIds | sender/main.c:78-83 | "video-id" and "audio-id" set exactly their id with atoi; every other key does what sender.c's parse_opt does and keeps both ids |
| SenderMain.MainStepHandles | sender/main.c:52-114 | every key of the table is an id option or one sender.c recognises |
| SenderMain.ParseStepMainRules | sender/main.c:85-113 | the positional-argument rules of sender.c, only positionals set the receiver address, the restart policy is kept, only SHORT_AUDIO_SOURCE sets the audio source, and both tables' keys are handled |
| SenderMain.ParseStepMainUnknown | sender/main.c:112-113 | a key other than the two ids and the options sender.c recognises gives ARGP_ERR_UNKNOWN and leaves the settings unchanged |
| SenderMain.CommandLineSpec | sender/main.c:121-125 | with the table as written, the same three rules as sender.c: no unknown option, argp_usage exactly without two positionals, and the target and default policy from the positionals |
| SenderMain.CommandLineSpecCorrected | sender/main.c:121-125 | the same three rules with the corrected table |
| SenderMain.IdsKeptWithoutOption | sender/main.c:123-125 | without "video-id" the video id keeps what settings_t held before the defaults; the same for "audio-id" |
| SenderMain.IdsFromOptions | sender/main.c:78-83 | with the table as written, "--video-id V --audio-id A" before a valid command line without id options parses, with the ids atoi(V) and atoi(A) |
| SenderMain.IdsFromOptionsCorrected | sender/main.c:78-83 | the same with the corrected table |
| SenderMain.IdsRun | sender/main.c:78-83 | the id options in front of a valid command line set the ids, for either table |
| SenderMain.OptionStep | sender/main.c:52-114 | an option token whose key parse_opt accepts is consumed by one call |
| SenderMain.IdKeys | sender/main.c:40-41 | the table maps the id options to 'q' and 'r' |
| SenderMain.KeyOfFirst | sender/main.c:31-42 | the key of a name is the key of its first entry |
| SenderMain.MainAudioSourceFixed | sender/main.c:33 | the table as written gives "audiosrc" the video source's key and has no entry for the audio source |
| SenderMain.MainAudiosrcCorrected | sender/main.c:33 | with the corrected table "--audiosrc NAME" sets the audio source |
| SenderMain.ParseOptMain | sender/main.c:45-116 | one parse_opt call of main.c in place |
| ReceiverMain.PipelineLatency | receiver/main.c:15-18 | the pipeline latency asked for is ten seconds in nanoseconds |
| ReceiverMain.SourcesDisjoint | receiver/main.c:31-46 | the sessions {0,1} and {2,3} have four distinct ids, disjoint port blocks and four distinct sink names |
| ReceiverMain.FirstSource | receiver/main.c:31-38 | the first source's configuration: ids 0 and 1, address 192.168.1.44, ports from 5000; SourcesDisjoint states that it shares nothing with the second |
| ReceiverMain.SecondSource | receiver/main.c:39-46 | the second source's configuration: ids 2 and 3, address 127.0.0.1, ports from 6000; SourcesDisjoint states that it shares nothing with the first |
| ReceiverMain.Wanted | receiver/main.c:69-70 | the message types the loop asks the bus for; NoUnexpectedReport states that nothing else is reported |
| ReceiverMain.Terminal | receiver/main.c:80-91 | ERROR and EOS end the loop; FirstTerminal and ConsumedReports state where it stops |
| ReceiverMain.Reports | receiver/main.c:78-106 | the report of each wanted message, in order; ReportsAppend and ReportsBeforeTerminal state what the loop prints before it stops |
| ReceiverMain.Handle | receiver/main.c:78-106 | errors and EOS are reported, a state change only when it comes from the pipeline, any other type is unexpected |
| ReceiverMain.FirstTerminal | receiver/main.c:80-91 | the index of the first ERROR or EOS, with none before it, or none at all |
| ReceiverMain.Consumed | receiver/main.c:64-109 | the messages the loop consumes are a prefix of the bus |
| ReceiverMain.NoUnexpectedReport | receiver/main.c:69-70 | the bus hands out only wanted types, so nothing is reported as unexpected |
| ReceiverMain.ReportsAppend | receiver/main.c:64-109 | the reports of a concatenation are the concatenated reports |
| ReceiverMain.ReportsBeforeTerminal | receiver/main.c:92-101 | before the first ERROR or EOS every report is a pipeline state change |
| ReceiverMain.ConsumedReports | receiver/main.c:80-109 | the last report is the first ERROR or EOS, and every earlier one a pipeline state change |
| ReceiverMain.BusLoop | receiver/main.c:64-109 | the loop consumes exactly up to and including the first ERROR or EOS, terminates exactly when there is one, and reports as Reports does |
| ReceiverMain.Play | receiver/main.c:48-111 | a refused PLAYING gives EXIT_FAILURE before the bus is read; otherwise EXIT_SUCCESS once the loop stops, with no unexpected report |
| NtpProbe.EraOffset | sender/testntp.py:7 | 2208988800 is seventy 365-day years plus seventeen leap days, in seconds |
| NtpProbe.DecodeHeader | sender/testntp.py:9 | a header byte decodes to a valid leap indicator, version and mode |
| NtpProbe.DecodeEncode | sender/testntp.py:9 | decoding the encoding of a header gives it back |
| NtpProbe.EncodeDecode | sender/testntp.py:9 | every byte is the encoding of the header it decodes to |
| NtpProbe.EncodeHeader | sender/testntp.py:9 | the leap, version and mode fields packed into the first byte; DecodeEncode and EncodeDecode state the round trip |
| NtpProbe.Request | sender/testntp.py:9 | the request datagram; RequestSpec states its bytes |
| NtpProbe.RequestSpec | sender/testntp.py:9 | the request is 48 bytes: leap 0, version 3, client mode, then zeros |
| NtpProbe.WordOf | sender/testntp.py:13 | the big-endian value of four bytes, as struct.unpack's "!" words; WordOfBytes and BytesOfWord state the round trip |
| NtpProbe.WordBytes | sender/testntp.py:13 | a word is written as four bytes |
| NtpProbe.WordOfBytes | sender/testntp.py:13 | writing a word big-endian and reading it back gives the word |
| NtpProbe.BytesOfWord | sender/testntp.py:13 | reading four bytes and writing them back gives the bytes |
| NtpProbe.Words | sender/testntp.py:13 | a byte string of 4n bytes holds n words |
| NtpProbe.Pack | sender/testntp.py:13 | n words are written as 4n bytes |
| NtpProbe.WordsAt | sender/testntp.py:13 | word i is read from bytes 4i to 4i+3 |
| NtpProbe.WordsOfPack | sender/testntp.py:13 | packing words and reading them back gives the words |
| NtpProbe.PackOfWords | sender/testntp.py:13 | reading words and packing them again gives the bytes |
| NtpProbe.Unpack | sender/testntp.py:13 | unpacking succeeds exactly on 48 bytes, with twelve words that pack back to the bytes, and otherwise reports the length |
| NtpProbe.UnpackPack | sender/testntp.py:13 | unpacking the packing of twelve words gives them back |
| NtpProbe.Received | sender/testntp.py:12 | recvfrom(1024) keeps a datagram of at most 1024 bytes and truncates a longer one |
| NtpProbe.RequestTime | sender/testntp.py:11-15 | the transmit time of an answer in Unix seconds, or the error for a datagram of the wrong length; RequestTimeSpec and RequestTimeOfAnswer state its result |
| NtpProbe.RequestTimeSpec | sender/testntp.py:11-15 | a time exactly for a 48-byte datagram: the big-endian word at offset 40 minus the era offset; empty gives no time, any other length is malformed |
| NtpProbe.RequestTimeOfAnswer | sender/testntp.py:13-14 | an answer of twelve words gives the transmit seconds minus the era offset |

## Left out

- Threads, the main loop and locking are not modelled. This covers `_start`, `start`/`stop`, `loop_startup`, the mutex and condition handshake, and the locking in `start_endpoint`/`stop_endpoint`. Their callers' calls are modelled as sequential.
- The NTP clock is not modelled: `gst_ntp_clock_new`, `gst_pipeline_use_clock` and `gst_clock_wait_for_sync` (receiver/receiver.c:82-85) are network and clock I/O.
- Element properties other than "port", "host" and the sink names are not modelled. This covers caps, `ntp-sync`, `sync`/`async` and encoder tuning.
- Pipe recreation is not modelled: `start_pipe` destroys and rebuilds the pipeline, and the model keeps only "timer pending / timer cleared".
- OBS output is not modelled: `obs_source_output_video`/`_audio`, `video_format_get_parameters`, and the plane pointers and strides.
- The appsink callbacks and the "max-buffers" setting of `block_video`/`block_audio` are not modelled; they are library properties.
- The non-PTS audio timestamp is not modelled because it is a double (streaminsync.c:275-279). Only the counter increment is modelled.
- argp itself is abstracted:
  - the command line is already split into option tokens (long name and argument) and positional arguments;
  - the special keys ARGP_KEY_INIT, ARGP_KEY_NO_ARGS, ARGP_KEY_SUCCESS and ARGP_KEY_FINI are not passed to parse_opt;
  - `argp_usage`, which exits the process, is the outcome `Usage`.
  - tokens are handled in the order given, while getopt moves options ahead of the positionals; the only visible difference is which of the two exits a command line with both an unknown option and a third positional takes (`InvalidOption` or `Usage`);
  - long options are matched by their exact name (`KeyOf`); getopt_long also accepts an unambiguous prefix such as `--audio`, and such abbreviations are not modelled.
- `atoi` is a decimal parse of an optional sign and leading digits. Its overflow behaviour beyond `int` is not modelled.
- Socket I/O, `time.ctime` and the endless polling loop of sender/testntp.py are left out.
- An empty answer makes the script raise because `t` is unbound; the model returns the error `NoTime` instead.
- sender/main.c's `settings_t` lives uninitialised on the stack. The model takes its initial content as a parameter, so the ids keep whatever it held.
- receiver/receiver.h:37 declares `add_incoming_source` as `void`; the model follows the definition, which returns the session or NULL.
- `source_data_t` and the sink name formats are not defined in any file shown. Sink names are an injective function of the id (`VideoSinkName`, `AudioSinkName`), different for video and audio.
- Receiver.AddIncomingSource: requires that the two ids differ and that the six request pads of rtpbin are not yet handed out (`SlotsFree`). GStreamer's behaviour on a second request for the same pad name is not part of this model.
- Streaminsync.EndpointIdsDisjoint: the OBS `source_id` is taken below 2^30, so `source_id * 2 + 1` fits a `gint`. Overflow of that product is not modelled.
- Streaminsync.Endpoint.AddEndpoint: requires that the session builds, because `set_source_to` dereferences the result before the NULL check (streaminsync.c:385-387). The Findings table records this; Streaminsync.Endpoint.AddEndpointChecked models the check in front of the call.
- The create → add → add sequence of receiver/main.c:19-46 is not composed into one method. Each call is covered by Receiver.AddIncomingSource. The second call's preconditions, that ids 2 and 3 are still free after a first call that may have failed part-way, are not derived.
- ReceiverMain.BusLoop: a bus that never delivers an ERROR or EOS blocks forever in the program. The model runs out of messages instead and reports `terminated == false` (`Waiting` in ReceiverMain.Play).
- The release of the depayloader sink pad in remove_incoming_source (receiver/receiver.c:306, 313) is a no-op in the model, because that pad is no request pad of rtpbin.
- add_endpoint reads the receiver address from the setting "client_ip" (streaminsync.c:375), but the plugin's defaults and properties define only "sender_ip" (streaminsync.c:580, 610). The model takes the "client_ip" value as a field of the settings (`clientIp`), so it does not capture that with the plugin's own properties this key is never set and the address OBS returns for it is empty.
- Platform and UI code (the JNI bridge, the Kotlin UI and the Android configuration) is not part of this model.

## Findings

| source | as written | input that shows it | evidently intended | confidence | as-written member | corrected member |
|---|---|---|---|---|---|---|
| sender/sender.c:57-58 | "audiosrc" is registered with key SHORT_VIDEO_SOURCE ('i'), so it sets `videosource` and no option ever sets `audiosource` | `--audiosrc pulsesrc 127.0.0.1 5000` | "audiosrc" carries SHORT_AUDIO_SOURCE ('a') and sets `audiosource` | high (not executed) | SenderSettings.AudiosrcAsWritten | SenderSettings.AudiosrcCorrected |
| sender/main.c:33 | the same table entry in the sender's stand-alone front end | `--audiosrc pulsesrc 127.0.0.1 5000` | "audiosrc" sets `audiosource` | high (not executed) | SenderMain.MainAudioSourceFixed | SenderMain.MainAudiosrcCorrected |
| streaminsync.c:384-387 | add_endpoint calls set_source_to on the result of add_incoming_source before checking it for NULL, so a session that fails to build is dereferenced | an element factory that fails (`made[0] == false`), or a pipeline without "rtpbin" | check the result for NULL first and return without setting any state | high (not executed) | Streaminsync.NullSessionExcluded | Streaminsync.Endpoint.AddEndpointChecked |
