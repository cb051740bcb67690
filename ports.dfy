/**
 * The six UDP ports of one audio/video session and the role each one plays
 * on the receiver (receiver/receiver.c) and on the sender (sender/sender.c).
 */
module Ports {

  /** NB_PORTS: three ports per media kind. */
  const NbPorts: nat := 6

  type PortBlock = s: seq<int> | |s| == NbPorts witness [0, 0, 0, 0, 0, 0]

  /** PORTS_FROM(port): the initialiser { port, port + 1, ..., port + 5 }. */
  function PortsFrom(port: int): (ports: PortBlock)
  {
    [port, port + 1, port + 2, port + 3, port + 4, port + 5]
  }

  /** Port i of the block derived from `port` is `port + i`, so the six ports are pairwise distinct. */
  lemma PortsFromConsecutive(port: int)
    ensures forall i :: 0 <= i < NbPorts ==> PortsFrom(port)[i] == port + i
    ensures forall i, j :: 0 <= i < j < NbPorts ==> PortsFrom(port)[i] != PortsFrom(port)[j]
  {
  }

  /** Two blocks whose bases are at least six apart share no port. */
  lemma PortsFromDisjoint(p: int, q: int)
    requires p + NbPorts <= q || q + NbPorts <= p
    ensures forall i, j :: 0 <= i < NbPorts && 0 <= j < NbPorts ==> PortsFrom(p)[i] != PortsFrom(q)[j]
  {
  }

  datatype Media = Video | Audio
  datatype Channel = Rtp | Rtcp
  /** Whether the program reads from (Receive: a udpsrc) or writes to (Send: a udpsink) the port. */
  datatype Direction = Receive | Send
  datatype PortRole = PortRole(media: Media, channel: Channel, dir: Direction)

  /**
   * Receiver roles: ports[0]/[3] feed the RTP udpsrc, ports[1]/[4] the RTCP
   * udpsrc, ports[2]/[5] are the RTCP udpsinks that answer the sender.
   */
  function ReceiverPortRole(i: nat): (r: PortRole)
    requires i < NbPorts
    ensures r.media == (if i < 3 then Video else Audio)
  {
    var media := if i < 3 then Video else Audio;
    match i % 3
    case 0 => PortRole(media, Rtp, Receive)
    case 1 => PortRole(media, Rtcp, Receive)
    case _ => PortRole(media, Rtcp, Send)
  }

  /**
   * Sender roles: ports[0]/[3] carry the RTP udpsink, ports[1]/[4] the RTCP
   * udpsink, ports[2]/[5] the udpsrc that reads the receiver's RTCP.
   */
  function SenderPortRole(i: nat): (r: PortRole)
    requires i < NbPorts
    ensures r.media == (if i < 3 then Video else Audio)
  {
    var media := if i < 3 then Video else Audio;
    match i % 3
    case 0 => PortRole(media, Rtp, Send)
    case 1 => PortRole(media, Rtcp, Send)
    case _ => PortRole(media, Rtcp, Receive)
  }

  function Opposite(d: Direction): Direction
  {
    match d
    case Receive => Send
    case Send => Receive
  }

  /**
   * The two programs agree on the wire: on every port of a block the sender and
   * the receiver carry the same media and channel, and exactly one of them
   * writes while the other reads.
   */
  lemma RolesComplement(i: nat)
    requires i < NbPorts
    ensures SenderPortRole(i).media == ReceiverPortRole(i).media
    ensures SenderPortRole(i).channel == ReceiverPortRole(i).channel
    ensures SenderPortRole(i).dir == Opposite(ReceiverPortRole(i).dir)
  {
  }

  /** Each media kind has one RTP port and two RTCP ports, one per direction, on the receiver. */
  lemma ReceiverRolesDistinct(i: nat, j: nat)
    requires i < NbPorts && j < NbPorts && i != j
    ensures ReceiverPortRole(i) != ReceiverPortRole(j)
  {
  }
}
