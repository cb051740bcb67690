// The NTP probe script (sender/testntp.py): the client request it sends, the
// way it unpacks the server's answer into twelve big-endian words, and the
// conversion of the transmit timestamp's seconds to Unix time. The packet
// layout is the one of section 7.3 of RFC 5905.

module NtpProbe {
  import opened Wrappers

  newtype byte = x: int | 0 <= x < 256

  /** An unsigned 32-bit word, as struct's `I` format reads it. */
  type Word = x: nat | x < 0x1_0000_0000

  /** Seconds from 1900-01-01 (the NTP era origin) to 1970-01-01 (the Unix epoch). */
  const RefTime1970: nat := 2208988800

  /** The server the script asks by default, and the NTP port. */
  const DefaultServer: string := "45.159.204.28"
  const NtpPort: nat := 123

  /** An NTP packet without extension fields is twelve 32-bit words. */
  const NbWords: nat := 12
  const PacketSize: nat := 48

  /** Word index of the seconds of the transmit timestamp, and its byte offset. */
  const TransmitSeconds: nat := 10
  const TransmitOffset: nat := 40

  /** recvfrom's buffer size: a longer datagram is cut to this many bytes. */
  const RecvBufferSize: nat := 1024

  /** The era offset is seventy years of 365 days plus the seventeen leap days between 1900 and 1970. */
  lemma EraOffset()
    ensures RefTime1970 == (70 * 365 + 17) * 86400
  {
  }

  /** The first byte of a packet: leap indicator (2 bits), version (3 bits), mode (3 bits). */
  datatype Header = Header(leap: nat, version: nat, mode: nat)
  {
    predicate Valid()
    {
      leap < 4 && version < 8 && mode < 8
    }
  }

  const ClientMode: nat := 3
  const Version3: nat := 3

  function EncodeHeader(h: Header): byte
    requires h.Valid()
  {
    (h.leap * 64 + h.version * 8 + h.mode) as byte
  }

  function DecodeHeader(b: byte): (h: Header)
    ensures h.Valid()
  {
    Header(b as int / 64, (b as int / 8) % 8, b as int % 8)
  }

  /** Encoding a header and decoding it gives it back. */
  lemma DecodeEncode(h: Header)
    requires h.Valid()
    ensures DecodeHeader(EncodeHeader(h)) == h
  {
    var x := h.leap * 64 + h.version * 8 + h.mode;
    var y := h.leap * 8 + h.version;
    assert x == y * 8 + h.mode;
    assert x / 8 == y && x % 8 == h.mode;
    assert y / 8 == h.leap && y % 8 == h.version;
    assert x / 64 == y / 8;
  }

  /** Every byte is the encoding of the header it decodes to. */
  lemma EncodeDecode(b: byte)
    ensures EncodeHeader(DecodeHeader(b)) == b
  {
    var x := b as int;
    var y := x / 8;
    assert x == y * 8 + x % 8;
    assert y == (y / 8) * 8 + y % 8;
    assert x / 64 == y / 8;
  }

  /** The request (sender/testntp.py:9): the byte 0x1b followed by 47 zero bytes. */
  function Request(): seq<byte>
  {
    [0x1b] + seq(PacketSize - 1, _ => 0)
  }

  /**
   * The request is a full packet whose header says: no leap warning, version
   * 3, client mode; every other field, the timestamps included, is zero.
   */
  lemma RequestSpec()
    ensures |Request()| == PacketSize
    ensures DecodeHeader(Request()[0]) == Header(0, Version3, ClientMode)
    ensures forall i :: 1 <= i < PacketSize ==> Request()[i] == 0
  {
  }

  /** Big-endian value of four bytes. */
  function WordOf(b: seq<byte>): (w: Word)
    requires |b| == 4
  {
    ((b[0] as int * 256 + b[1] as int) * 256 + b[2] as int) * 256 + b[3] as int
  }

  /** The four big-endian bytes of a word. */
  function WordBytes(w: Word): (b: seq<byte>)
    ensures |b| == 4
  {
    [(w / 0x100_0000) as byte, (w / 0x1_0000 % 256) as byte, (w / 256 % 256) as byte, (w % 256) as byte]
  }

  /** Writing a word out and reading it back gives the word. */
  lemma WordOfBytes(w: Word)
    ensures WordOf(WordBytes(w)) == w
  {
    var q1 := w / 256;
    var q2 := q1 / 256;
    assert w / 0x1_0000 == q2 && w / 0x100_0000 == q2 / 256;
    assert q2 == (q2 / 256) * 256 + q2 % 256;
    assert q1 == q2 * 256 + q1 % 256;
    assert w == q1 * 256 + w % 256;
  }

  /** Reading four bytes and writing them out gives the bytes. */
  lemma BytesOfWord(b: seq<byte>)
    requires |b| == 4
    ensures WordBytes(WordOf(b)) == b
  {
    var x := WordOf(b);
    assert x / 256 == (b[0] as int * 256 + b[1] as int) * 256 + b[2] as int;
    assert x / 0x1_0000 == b[0] as int * 256 + b[1] as int;
    assert x / 0x100_0000 == b[0] as int;
  }

  /** The words of a byte string whose length is a multiple of four, in order. */
  function Words(data: seq<byte>): (ws: seq<Word>)
    requires |data| % 4 == 0
    ensures |ws| == |data| / 4
    decreases |data|
  {
    if data == [] then [] else [WordOf(data[..4])] + Words(data[4..])
  }

  /** The bytes of a sequence of words, each written big-endian. */
  function Pack(ws: seq<Word>): (data: seq<byte>)
    ensures |data| == 4 * |ws|
  {
    if ws == [] then [] else WordBytes(ws[0]) + Pack(ws[1..])
  }

  /** Word i of a byte string is read from bytes 4i to 4i+3. */
  lemma {:induction false} WordsAt(data: seq<byte>, i: nat)
    requires |data| % 4 == 0 && i < |data| / 4
    ensures Words(data)[i] == WordOf(data[4 * i .. 4 * i + 4])
    decreases i
  {
    if i > 0 {
      WordsAt(data[4..], i - 1);
      assert data[4..][4 * (i - 1) .. 4 * (i - 1) + 4] == data[4 * i .. 4 * i + 4];
    }
  }

  /** Packing words and reading them back gives the words. */
  lemma {:induction false} WordsOfPack(ws: seq<Word>)
    ensures Words(Pack(ws)) == ws
  {
    if ws != [] {
      var d := Pack(ws);
      assert d[..4] == WordBytes(ws[0]);
      assert d[4..] == Pack(ws[1..]);
      WordOfBytes(ws[0]);
      WordsOfPack(ws[1..]);
    }
  }

  /** Reading words and packing them again gives the bytes. */
  lemma {:induction false} PackOfWords(data: seq<byte>)
    requires |data| % 4 == 0
    ensures Pack(Words(data)) == data
    decreases |data|
  {
    if data != [] {
      var ws := Words(data);
      assert ws[1..] == Words(data[4..]);
      BytesOfWord(data[..4]);
      PackOfWords(data[4..]);
      assert data == data[..4] + data[4..];
    }
  }

  /** Why struct.unpack('!12I', ...) refuses a buffer. */
  datatype UnpackError = BadLength(length: nat)

  /** struct.unpack('!12I', data) (sender/testntp.py:13): exactly 48 bytes give twelve words, any other length fails. */
  function Unpack(data: seq<byte>): (r: Result<seq<Word>, UnpackError>)
    ensures r.Ok? <==> |data| == PacketSize
    ensures r.Ok? ==> |r.value| == NbWords && Pack(r.value) == data
    ensures r.Err? ==> r.error == BadLength(|data|)
  {
    if |data| != PacketSize then Err(BadLength(|data|))
    else
      PackOfWords(data);
      Ok(Words(data))
  }

  /** Unpacking the packing of twelve words gives them back. */
  lemma UnpackPack(ws: seq<Word>)
    requires |ws| == NbWords
    ensures Unpack(Pack(ws)) == Ok(ws)
  {
    WordsOfPack(ws);
  }

  /** How RequestTimefromNtp can fail on a received datagram. */
  datatype ProbeError =
    | NoTime              // empty datagram: `t` is never bound and reading it raises
    | Malformed(length: nat)  // not 48 bytes: struct.unpack raises

  /** What recvfrom(1024) hands back of a datagram. */
  function Received(datagram: seq<byte>): (r: seq<byte>)
    ensures |r| <= RecvBufferSize && r <= datagram
    ensures |datagram| <= RecvBufferSize ==> r == datagram
  {
    if |datagram| <= RecvBufferSize then datagram else datagram[..RecvBufferSize]
  }

  /**
   * RequestTimefromNtp's arithmetic on the server's answer
   * (sender/testntp.py:11-15): the seconds of the transmit timestamp shifted
   * from the NTP era to the Unix epoch. The string ctime makes of it is not
   * part of this model.
   */
  function RequestTime(datagram: seq<byte>): Result<int, ProbeError>
  {
    var data := Received(datagram);
    if data == [] then Err(NoTime)
    else match Unpack(data)
      case Err(BadLength(n)) => Err(Malformed(n))
      case Ok(words) => Ok(words[TransmitSeconds] - RefTime1970)
  }

  /**
   * The answer is a time exactly when the datagram is 48 bytes long, and the
   * time is the big-endian word at byte offset 40 minus the era offset; an
   * empty datagram leaves no time, and any other length is malformed.
   */
  lemma RequestTimeSpec(datagram: seq<byte>)
    ensures RequestTime(datagram).Ok? <==> |datagram| == PacketSize
    ensures |datagram| == PacketSize ==>
              RequestTime(datagram) == Ok(WordOf(datagram[TransmitOffset .. TransmitOffset + 4]) as int - RefTime1970)
    ensures |datagram| == 0 ==> RequestTime(datagram) == Err(NoTime)
    ensures 0 < |datagram| != PacketSize ==>
              RequestTime(datagram) == Err(Malformed(if |datagram| <= RecvBufferSize then |datagram| else RecvBufferSize))
  {
    if |datagram| == PacketSize {
      WordsAt(datagram, TransmitSeconds);
    }
  }

  /** A server answer carrying the twelve words `ws` gives the transmit seconds minus the era offset. */
  lemma RequestTimeOfAnswer(ws: seq<Word>)
    requires |ws| == NbWords
    ensures RequestTime(Pack(ws)) == Ok(ws[TransmitSeconds] - RefTime1970)
  {
    var d := Pack(ws);
    assert |d| == PacketSize;
    UnpackPack(ws);
    assert Received(d) == d;
    assert d != [];
  }
}
