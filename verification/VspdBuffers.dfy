/** Big-endian words written into byte buffers. */
module ByteBuffers {
  import opened Words

  /** The bytes before the place stay, those behind it stay, and the word is in between. */
  method WriteBe16(out: array<u8>, at: nat, v: u16)
    requires at + 2 <= out.Length
    modifies out
    ensures out[..at + 2] == old(out[..at]) + Be16(v)
    ensures forall k :: at + 2 <= k < out.Length ==> out[k] == old(out[k])
  {
    out[at] := v / 0x100;
    out[at + 1] := v % 0x100;
    assert out[..at + 2] == out[..at] + [out[at], out[at + 1]];
  }

  method WriteBe32(out: array<u8>, at: nat, v: u32)
    requires at + 4 <= out.Length
    modifies out
    ensures out[..at + 4] == old(out[..at]) + Be32(v)
    ensures v == out[at] as int * 0x100_0000 + out[at + 1] as int * 0x1_0000 + out[at + 2] as int * 0x100
                 + out[at + 3] as int
    ensures forall k :: at + 4 <= k < out.Length ==> out[k] == old(out[k])
  {
    Be32RoundTrips(v, Be32(v));
    out[at] := v / 0x100_0000;
    out[at + 1] := v / 0x1_0000 % 0x100;
    out[at + 2] := v / 0x100 % 0x100;
    out[at + 3] := v % 0x100;
    assert out[..at + 4] == out[..at] + [out[at], out[at + 1], out[at + 2], out[at + 3]];
  }
}

/** The VSPD header codec on byte buffers. */
module VspdBuffers {
  import opened Words
  import opened Vspd
  import opened ByteBuffers

  /** Writes the first five fields. */
  method EncodeFront(h: Header, out: array<u8>)
    requires out.Length >= 40
    modifies out
    ensures out[..16] == HeaderBytes(h)[..16] && forall k :: 40 <= k < out.Length ==> out[k] == old(out[k])
  {
    WriteBe32(out, 0, h.magic);
    assert out[..4] == Be32(h.magic);
    out[4], out[5], out[6], out[7] := h.versionMajor, h.versionMinor, h.kind, h.flags;
    assert out[..8] == Be32(h.magic) + [h.versionMajor, h.versionMinor, h.kind, h.flags];
    WriteBe16(out, 8, h.headerSize);
    WriteBe16(out, 10, h.reserved);
    WriteBe32(out, 12, h.payloadSize);
  }

  /** Writes the header if its common fields are valid; otherwise the buffer is left alone. */
  method EncodeHeader(h: Header, out: array<u8>) returns (result: CodecResult)
    requires out.Length >= 40
    modifies out
    ensures result == ValidateCommon(h)
    ensures out[..40] == if result == CodecOk then HeaderBytes(h) else old(out[..40])
    ensures out[40..] == old(out[40..])
  {
    result := ValidateCommon(h);
    if result != CodecOk {
      return;
    }
    EncodeFront(h, out);
    WriteBe32(out, 16, h.requestId);
    WriteBe32(out, 20, h.portId);
    WriteBe32(out, 24, h.messageId);
    WriteBe32(out, 28, h.fragmentOffset);
    WriteBe32(out, 32, h.totalSize);
    WriteBe32(out, 36, Unsigned(h.status));
  }

  /** Reads a header out of the first `size` bytes of a buffer. */
  method ReadHeader(b: array<u8>, size: nat) returns (d: Decoded)
    requires size <= b.Length
    ensures d == DecodeHeader(b[..size])
  {
    if size < 40 {
      return Refused(Truncated);
    }
    var h := Header(FromBe32(b[0..4]), b[4], b[5], b[6], b[7], FromBe16(b[8..10]), FromBe16(b[10..12]),
                    FromBe32(b[12..16]), FromBe32(b[16..20]), FromBe32(b[20..24]), FromBe32(b[24..28]),
                    FromBe32(b[28..32]), FromBe32(b[32..36]), Signed(FromBe32(b[36..40])));
    ReadsThrough(b[..], size);
    var v := ValidateCommon(h);
    return if v == CodecOk then Accepted(h) else Refused(v);
  }

  lemma ReadsThrough(b: seq<u8>, size: nat)
    requires 40 <= size <= |b|
    ensures HeaderOf(b[..size]) == HeaderOf(b)
  {
    var c := b[..size];
    assert c[0..4] == b[0..4] && c[8..10] == b[8..10] && c[10..12] == b[10..12] && c[12..16] == b[12..16];
    assert c[16..20] == b[16..20] && c[20..24] == b[20..24] && c[24..28] == b[24..28] && c[28..32] == b[28..32];
    assert c[32..36] == b[32..36] && c[36..40] == b[36..40];
  }
}
