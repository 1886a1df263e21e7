/** SpaceWire packets and time codes, and the DATA records that carry packets, one frame-sized fragment at a time. */
module Fragments {
  import opened Words
  import opened Vspd

  datatype Terminator = Eop | Eep

  datatype RawPacket = Packet(data: seq<u8>, terminator: Terminator)

  /** A packet VSPD can carry: at most 1 MiB. */
  type Packet = p: RawPacket | |p.data| <= 1048576 witness Packet([], Eop)

  datatype RawTimeCode = TimeCode(count: u8, flags: u8)

  /** A time code the protocol lets through: a six-bit count and two control bits. */
  type TimeCode = t: RawTimeCode | t.count <= 63 && t.flags <= 3 witness TimeCode(0, 0)

  /** Addressing shared by all fragments of one packet. */
  datatype Envelope = Envelope(kind: u8, requestId: u32, portId: u32, messageId: u32)

  function Chunk(p: Packet, offset: nat): nat
    requires offset <= |p.data|
  {
    if |p.data| - offset > 32768 then 32768 else |p.data| - offset
  }

  predicate IsFinal(p: Packet, offset: nat)
    requires offset <= |p.data|
  {
    |p.data| == 0 || offset + Chunk(p, offset) == |p.data|
  }

  function FragmentFlags(p: Packet, offset: nat): u8
    requires offset <= |p.data|
  {
    (if offset == 0 then 2 else 0) +
    (if IsFinal(p, offset) then (if p.terminator == Eep then 20 else 12) else 0)
  }

  function Fragment(e: Envelope, p: Packet, offset: nat): Record
    requires offset <= |p.data|
  {
    var chunk := Chunk(p, offset);
    Record(Header(MAGIC, VERSION_MAJOR, VERSION_MINOR, e.kind, FragmentFlags(p, offset), HEADER_SIZE, 0, chunk,
                  e.requestId, e.portId, e.messageId, offset, |p.data|, STATUS_OK),
           p.data[offset..offset + chunk])
  }

  /** Offsets at which a fragment of `p` starts. */
  predicate Boundary(p: Packet, offset: nat) {
    offset % 32768 == 0 && (offset == 0 || offset < |p.data|)
  }

  /** All fragments from a boundary to the end of the packet. */
  function FragmentsFrom(e: Envelope, p: Packet, offset: nat): seq<Record>
    requires offset <= |p.data|
    decreases |p.data| - offset
  {
    [Fragment(e, p, offset)] +
    if IsFinal(p, offset) then [] else FragmentsFrom(e, p, offset + Chunk(p, offset))
  }

  /** The fragments before a boundary. */
  function FragmentsUpTo(e: Envelope, p: Packet, offset: nat): seq<Record>
    requires Boundary(p, offset)
  {
    if offset == 0 then [] else FragmentsUpTo(e, p, offset - 32768) + [Fragment(e, p, offset - 32768)]
  }

  function AllFragments(e: Envelope, p: Packet): seq<Record> {
    FragmentsFrom(e, p, 0)
  }

  lemma FlagBits(p: Packet, offset: nat, h: Header)
    requires offset <= |p.data| && h.flags == FragmentFlags(p, offset)
    ensures !h.IsResponse() && h.flags < 32
    ensures h.IsStart() <==> offset == 0
    ensures h.IsEnd() <==> IsFinal(p, offset)
    ensures h.IsEop() <==> IsFinal(p, offset) && p.terminator == Eop
    ensures h.IsEep() <==> IsFinal(p, offset) && p.terminator == Eep
  {
  }

  /**
   A fragment at a boundary passes the frame validator exactly if the
   identifiers are those its direction calls for.
   */
  lemma FragmentWellShaped(e: Envelope, p: Packet, offset: nat)
    requires Boundary(p, offset) && (e.kind == DATA_TX || e.kind == DATA_RX)
    ensures WellShaped(Fragment(e, p, offset)) <==> e.messageId != 0 && (e.kind == DATA_TX <==> e.requestId != 0)
  {
    FlagBits(p, offset, Fragment(e, p, offset).header);
  }

  /** A non-final fragment leads to the next boundary. */
  lemma NextBoundary(p: Packet, offset: nat)
    requires Boundary(p, offset) && !IsFinal(p, offset)
    ensures Chunk(p, offset) == 32768 && Boundary(p, offset + 32768)
  {
  }

  lemma {:induction false} SplitAtBoundary(e: Envelope, p: Packet, offset: nat)
    requires Boundary(p, offset)
    ensures FragmentsUpTo(e, p, offset) + FragmentsFrom(e, p, offset) == AllFragments(e, p)
    decreases offset
  {
    if offset != 0 {
      SplitAtBoundary(e, p, offset - 32768);
    }
  }
}
