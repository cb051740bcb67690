/**
 * Names the receiver gives to rtpbin request pads and to its sinks, and the
 * scan cb_new_pad applies to the name of a pad rtpbin announces
 * (receiver/receiver.c).
 */
module ReceiverNames {
  import opened Wrappers
  import opened DecimalText

  /** The three kinds of rtpbin request pad a session asks for, per media kind. */
  datatype RequestKind = RecvRtpSink | RecvRtcpSink | SendRtcpSrc

  function Prefix(k: RequestKind): string
  {
    match k
    case RecvRtpSink => "recv_rtp_sink_"
    case RecvRtcpSink => "recv_rtcp_sink_"
    case SendRtcpSrc => "send_rtcp_src_"
  }

  /** g_strdup_printf("recv_rtp_sink_%d", id) and its two siblings, for a non-negative id. */
  function RequestPadName(k: RequestKind, id: nat): string
  {
    Prefix(k) + Decimal(id)
  }

  /** The name rtpbin gives the receive pad of session `id`: "recv_rtp_src_%u_%u_%u". */
  const DynamicPrefix: string := "recv_rtp_src_"

  function DynamicPadName(id: nat, ssrc: nat, pt: nat): string
  {
    DynamicPrefix + Decimal(id) + "_" + Decimal(ssrc) + "_" + Decimal(pt)
  }

  /** VSINK_NAME_FORMAT / ASINK_NAME_FORMAT: sink names are "video_sink_<id>" and "audio_sink_<id>". */
  function VideoSinkName(id: nat): string
  {
    "video_sink_" + Decimal(id)
  }

  function AudioSinkName(id: nat): string
  {
    "audio_sink_" + Decimal(id)
  }

  /**
   * sscanf(name, "recv_rtp_src_%u_%u_%u", &id, ...) > 0: the literal prefix must
   * match and the first conversion must succeed; the id is its value. The
   * ssrc and payload-type conversions do not affect the outcome.
   */
  function ScanPadId(name: string): (r: Option<nat>)
    ensures r.Some? ==> r.value < UIntModulus
    ensures r.Some? ==> |name| > |DynamicPrefix| && name[..|DynamicPrefix|] == DynamicPrefix
  {
    if |name| >= |DynamicPrefix| && name[..|DynamicPrefix|] == DynamicPrefix then
      var r := ScanUnsigned(name[|DynamicPrefix|..]);
      if r.Some? then
        assert name[|DynamicPrefix|..] != [] by { ScanEmpty(); }
        r
      else None
    else None
  }

  lemma ScanEmpty()
    ensures ScanUnsigned([]) == None
  {
  }

  /** Whatever follows the id (ssrc, payload type or nothing at all), the id is read back. */
  lemma ScanPadIdOf(id: nat, rest: string)
    requires id < UIntModulus
    requires rest == [] || !IsDigit(rest[0])
    ensures ScanPadId(DynamicPrefix + Decimal(id) + rest) == Some(id)
  {
    var name := DynamicPrefix + Decimal(id) + rest;
    assert name[..|DynamicPrefix|] == DynamicPrefix;
    assert name[|DynamicPrefix|..] == Decimal(id) + rest;
    ScanUnsignedOfDecimal(id, rest);
  }

  /** A pad rtpbin announces for session `id` is taken by a binding exactly when the binding's id is `id`. */
  lemma DynamicPadMatches(id: nat, ssrc: nat, pt: nat, bindingId: nat)
    requires id < UIntModulus
    ensures ScanPadId(DynamicPadName(id, ssrc, pt)) == Some(id)
    ensures ScanPadId(DynamicPadName(id, ssrc, pt)) == Some(bindingId) <==> id == bindingId
  {
    var rest := "_" + Decimal(ssrc) + "_" + Decimal(pt);
    assert DynamicPadName(id, ssrc, pt) == DynamicPrefix + Decimal(id) + rest;
    ScanPadIdOf(id, rest);
  }

  /** The receiver's own request pads are never mistaken for an announced receive pad. */
  lemma RequestPadNotScanned(k: RequestKind, id: nat)
    ensures ScanPadId(RequestPadName(k, id)) == None
  {
    var name := RequestPadName(k, id);
    DecimalIsDigits(id);
    if |name| >= |DynamicPrefix| {
      match k
      case RecvRtpSink => assert name[10] != DynamicPrefix[10];
      case RecvRtcpSink => assert name[8] != DynamicPrefix[8];
      case SendRtcpSrc => assert name[0] != DynamicPrefix[0];
    }
  }

  /** Reads the kind back from a request pad name: "send..." or "recv_rtcp..." or "recv_rtp_...". */
  function KindOf(name: string): RequestKind
    requires |name| > 8
  {
    if name[0] == 's' then SendRtcpSrc
    else if name[7] == 'c' then RecvRtcpSink
    else RecvRtpSink
  }

  lemma KindOfName(k: RequestKind, id: nat)
    ensures |RequestPadName(k, id)| > 8 && KindOf(RequestPadName(k, id)) == k
  {
    DecimalIsDigits(id);
    var n := RequestPadName(k, id);
    match k
    case SendRtcpSrc => assert n[0] == 's';
    case RecvRtcpSink => assert n[0] == 'r' && n[7] == 'c';
    case RecvRtpSink => assert n[0] == 'r' && n[7] == 'p';
  }

  /** Request pad names determine both the kind and the id. */
  lemma RequestPadNameInjective(k1: RequestKind, id1: nat, k2: RequestKind, id2: nat)
    requires RequestPadName(k1, id1) == RequestPadName(k2, id2)
    ensures k1 == k2 && id1 == id2
  {
    var n := RequestPadName(k1, id1);
    KindOfName(k1, id1);
    KindOfName(k2, id2);
    assert Decimal(id1) == n[|Prefix(k1)|..];
    assert Decimal(id2) == n[|Prefix(k2)|..];
    DecimalInjective(id1, id2);
  }

  /** RequestPadNameInjective for every pair of kinds and ids at once. */
  lemma RequestPadNamesInjective()
    ensures forall k1, id1, k2, id2 :: RequestPadName(k1, id1) == RequestPadName(k2, id2) ==> k1 == k2 && id1 == id2
  {
    forall k1, id1, k2, id2 | RequestPadName(k1, id1) == RequestPadName(k2, id2)
      ensures k1 == k2 && id1 == id2
    {
      RequestPadNameInjective(k1, id1, k2, id2);
    }
  }

  /** Sink names are an injective function of the id, and a video sink name is never an audio sink name. */
  lemma SinkNamesInjective(a: nat, b: nat)
    ensures VideoSinkName(a) == VideoSinkName(b) ==> a == b
    ensures AudioSinkName(a) == AudioSinkName(b) ==> a == b
    ensures VideoSinkName(a) != AudioSinkName(b)
  {
    if VideoSinkName(a) == VideoSinkName(b) {
      assert Decimal(a) == VideoSinkName(a)[11..];
      assert Decimal(b) == VideoSinkName(b)[11..];
      DecimalInjective(a, b);
    }
    if AudioSinkName(a) == AudioSinkName(b) {
      assert Decimal(a) == AudioSinkName(a)[11..];
      assert Decimal(b) == AudioSinkName(b)[11..];
      DecimalInjective(a, b);
    }
    assert VideoSinkName(a)[0] != AudioSinkName(b)[0];
  }
}
