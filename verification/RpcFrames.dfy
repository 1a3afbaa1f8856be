/** The control frames of the topic RPC adapters: byte for byte the same in Go and C++. */
module RpcFrames {
  import opened Bytes
  import opened Words
  import opened Text

  // "\0PRPC_READY_V1\0probe:" and "\0PRPC_READY_V1\0ack:"
  const FRAME_HEAD: Bytes := [0x00, 0x50, 0x52, 0x50, 0x43, 0x5F, 0x52, 0x45, 0x41, 0x44, 0x59, 0x5F, 0x56, 0x31, 0x00]
  const PROBE_PREFIX: Bytes := FRAME_HEAD + [0x70, 0x72, 0x6F, 0x62, 0x65, 0x3A]
  const ACK_PREFIX: Bytes := FRAME_HEAD + [0x61, 0x63, 0x6B, 0x3A]

  predicate IsProbeFrame(data: Bytes) {
    |data| >= |PROBE_PREFIX| && data[..|PROBE_PREFIX|] == PROBE_PREFIX
  }

  function ProbeFrame(nonce: nat): Bytes {
    PROBE_PREFIX + Ascii(Decimal(nonce))
  }

  function AckFrameForProbe(probe: Bytes): Bytes {
    ACK_PREFIX + if |probe| > |PROBE_PREFIX| then probe[|PROBE_PREFIX|..] else []
  }

  lemma HeadText()
    ensures FRAME_HEAD == Ascii("\0PRPC_READY_V1\0")
  {
    AsciiIs("\0PRPC_READY_V1\0", FRAME_HEAD);
  }

  lemma PrefixText()
    ensures PROBE_PREFIX == Ascii("\0PRPC_READY_V1\0" + "probe:") && ACK_PREFIX == Ascii("\0PRPC_READY_V1\0" + "ack:")
  {
    HeadText();
    AsciiIs("probe:", [0x70, 0x72, 0x6F, 0x62, 0x65, 0x3A]);
    AsciiIs("ack:", [0x61, 0x63, 0x6B, 0x3A]);
    hide Ascii;
    AsciiConcat("\0PRPC_READY_V1\0", "probe:");
    AsciiConcat("\0PRPC_READY_V1\0", "ack:");
  }

  /** Distinct clock readings give distinct probes, each a probe frame. */
  lemma ProbesDistinct(m: nat, n: nat)
    ensures IsProbeFrame(ProbeFrame(n))
    ensures ProbeFrame(m) == ProbeFrame(n) <==> m == n
  {
    hide Ascii;
    assert ProbeFrame(m)[|PROBE_PREFIX|..] == Ascii(Decimal(m)) && ProbeFrame(n)[|PROBE_PREFIX|..] == Ascii(Decimal(n));
    DecimalReadsBack(m);
    DecimalReadsBack(n);
    AsciiOneToOne(Decimal(m), Decimal(n));
  }

  /** Two frames get the same acknowledgement exactly when they agree after the probe prefix, or neither
      reaches past it; so an acknowledgement identifies its probe among probe frames. */
  lemma AckIdentifiesProbe(p: Bytes, q: Bytes)
    ensures AckFrameForProbe(p) == AckFrameForProbe(q) <==>
              if |p| > |PROBE_PREFIX| && |q| > |PROBE_PREFIX| then p[|PROBE_PREFIX|..] == q[|PROBE_PREFIX|..]
              else |p| <= |PROBE_PREFIX| && |q| <= |PROBE_PREFIX|
    ensures IsProbeFrame(p) && IsProbeFrame(q) ==> (AckFrameForProbe(p) == AckFrameForProbe(q) <==> p == q)
  {
    assert AckFrameForProbe(p)[|ACK_PREFIX|..] == if |p| > |PROBE_PREFIX| then p[|PROBE_PREFIX|..] else [];
    assert AckFrameForProbe(q)[|ACK_PREFIX|..] == if |q| > |PROBE_PREFIX| then q[|PROBE_PREFIX|..] else [];
    if IsProbeFrame(p) && IsProbeFrame(q) && AckFrameForProbe(p) == AckFrameForProbe(q) {
      assert p == PROBE_PREFIX + p[|PROBE_PREFIX|..] && q == PROBE_PREFIX + q[|PROBE_PREFIX|..];
    }
  }

  /** An acknowledgement is never itself taken for a probe. */
  lemma AckIsNoProbe(p: Bytes)
    ensures !IsProbeFrame(AckFrameForProbe(p))
  {
    var ack := AckFrameForProbe(p);
    if |ack| >= |PROBE_PREFIX| {
      assert ack[..|PROBE_PREFIX|][15] == 0x61 && PROBE_PREFIX[15] == 0x70;
    }
  }
}
