/** The log file of internal/wal/wal.go: reading frames back, torn tails, repair. */
module WalLog {
  import opened WalCodec

  const MAX_PAYLOAD := 0x1000_0000 // 1 << 28

  // ---------- reading frames ----------

  /** Length of the frame that `data` claims to start with. */
  function ClaimedLen(data: Bytes): nat
    requires |data| >= 4
  {
    Value(data[..4]) + 8
  }

  /** `data` starts with a frame that replay accepts. */
  predicate Readable(data: Bytes, crc: Checksum): (b: bool)
    ensures b ==> |data| >= 4 && 8 <= ClaimedLen(data) <= |data|
  {
    && |data| >= 4 && ClaimedLen(data) <= MAX_PAYLOAD + 8
    && ClaimedLen(data) <= |data|
    && Unmarshal(data[..ClaimedLen(data)], crc).Ok?
  }

  function HeadOf(data: Bytes, crc: Checksum): Record
    requires Readable(data, crc)
  {
    Unmarshal(data[..ClaimedLen(data)], crc).value
  }

  /** The records of the longest readable run of frames at the front of a file. */
  function Records(data: Bytes, crc: Checksum): seq<Record>
    decreases |data|
  {
    if Readable(data, crc) then [HeadOf(data, crc)] + Records(data[ClaimedLen(data)..], crc) else []
  }

  /** Where that run ends. */
  function GoodLen(data: Bytes, crc: Checksum): (n: nat)
    ensures n <= |data|
    decreases |data|
  {
    if Readable(data, crc) then ClaimedLen(data) + GoodLen(data[ClaimedLen(data)..], crc) else 0
  }

  // ---------- writing frames ----------

  function Frames(rs: seq<Record>, crc: Checksum): Bytes {
    if rs == [] then [] else Frame(rs[0], crc) + Frames(rs[1..], crc)
  }

  /** A record that decoding can return and that replay does not take for garbage. */
  predicate Loggable(r: Record) {
    WellFormed(r) && |Payload(r)| <= MAX_PAYLOAD
  }

  lemma FrameLen(r: Record, crc: Checksum)
    requires WellFormed(r)
    ensures |Frame(r, crc)| == |Payload(r)| + 8 && Value(Frame(r, crc)[..4]) == |Payload(r)|
  {
    hide Big, Value, Payload, CheckOp, Pow256;
    Widths();
    ReadsBack(|Payload(r)|, 4);
    assert Frame(r, crc)[..4] == Big(|Payload(r)|, 4);
  }

  lemma FrameReadable(r: Record, rest: Bytes, crc: Checksum)
    requires Loggable(r)
    ensures Readable(Frame(r, crc) + rest, crc)
    ensures ClaimedLen(Frame(r, crc) + rest) == |Frame(r, crc)| && HeadOf(Frame(r, crc) + rest, crc) == r
  {
    hide Unmarshal, Value, Payload, WellFormed, Frame;
    var data := Frame(r, crc) + rest;
    FrameLen(r, crc);
    assert data[..4] == Frame(r, crc)[..4];
    assert data[..ClaimedLen(data)] == Frame(r, crc) == Frame(r, crc) + [];
    UnmarshalsFrame(r, [], crc);
  }

  lemma ReadableIsFrame(data: Bytes, crc: Checksum)
    requires Readable(data, crc)
    ensures Loggable(HeadOf(data, crc))
    ensures data == Frame(HeadOf(data, crc), crc) + data[ClaimedLen(data)..]
  {
    hide Unmarshal, Value, Payload, WellFormed, Frame;
    var f := data[..ClaimedLen(data)];
    FrameUnmarshalled(f, crc);
    FrameLen(HeadOf(data, crc), crc);
    assert f[..4] == data[..4];
    assert Frame(HeadOf(data, crc), crc) == f;
  }

  ghost predicate AllLoggable(rs: seq<Record>) {
    forall r :: r in rs ==> Loggable(r)
  }

  lemma {:induction false} FrameRead(r: Record, rest: Bytes, crc: Checksum)
    requires Loggable(r)
    ensures Records(Frame(r, crc) + rest, crc) == [r] + Records(rest, crc)
    ensures GoodLen(Frame(r, crc) + rest, crc) == |Frame(r, crc)| + GoodLen(rest, crc)
  {
    hide Readable, ClaimedLen, HeadOf, Loggable, Frame;
    FrameReadable(r, rest, crc);
    assert (Frame(r, crc) + rest)[|Frame(r, crc)|..] == rest;
  }

  /** Reading back what was written, followed by anything. */
  lemma {:induction false} FramesRead(rs: seq<Record>, rest: Bytes, crc: Checksum)
    requires AllLoggable(rs)
    ensures Records(Frames(rs, crc) + rest, crc) == rs + Records(rest, crc)
    ensures GoodLen(Frames(rs, crc) + rest, crc) == |Frames(rs, crc)| + GoodLen(rest, crc)
  {
    hide Records, GoodLen, Loggable, Frame;
    if rs == [] {
      assert Frames(rs, crc) + rest == rest;
    } else {
      var tail := Frames(rs[1..], crc) + rest;
      FramesRead(rs[1..], rest, crc);
      FrameRead(rs[0], tail, crc);
      assert Frames(rs, crc) + rest == Frame(rs[0], crc) + tail;
    }
  }

  /** A file is the frames of its records followed by something unreadable. */
  lemma {:induction false} FileIsFrames(data: Bytes, crc: Checksum)
    ensures AllLoggable(Records(data, crc))
    ensures |Frames(Records(data, crc), crc)| == GoodLen(data, crc)
    ensures data == Frames(Records(data, crc), crc) + data[GoodLen(data, crc)..]
    ensures !Readable(data[GoodLen(data, crc)..], crc)
    decreases |data|
  {
    hide Readable, ClaimedLen, HeadOf, Loggable, Frame;
    if Readable(data, crc) {
      var n := ClaimedLen(data);
      ReadableIsFrame(data, crc);
      var rest := data[n..];
      FileIsFrames(rest, crc);
      assert |data| == |Frame(HeadOf(data, crc), crc)| + |rest|;
      assert Records(data, crc)[1..] == Records(rest, crc);
      assert data[GoodLen(data, crc)..] == rest[GoodLen(rest, crc)..];
    }
  }

  // ---------- torn tails ----------

  /** How many whole frames of `rs` lie in the first `n` bytes. */
  function WholeFrames(rs: seq<Record>, n: nat, crc: Checksum): (k: nat)
    ensures k <= |rs|
  {
    if rs == [] || n < |Frame(rs[0], crc)| then 0 else 1 + WholeFrames(rs[1..], n - |Frame(rs[0], crc)|, crc)
  }

  lemma CutFrameUnreadable(r: Record, n: nat, crc: Checksum)
    requires Loggable(r) && n < |Frame(r, crc)|
    ensures !Readable(Frame(r, crc)[..n], crc)
  {
    hide Unmarshal, Value, Payload, WellFormed, Frame;
    FrameLen(r, crc);
    assert n >= 4 ==> Frame(r, crc)[..n][..4] == Frame(r, crc)[..4];
  }

  /** The first `n` bytes are the whole frames in them and a cut frame. */
  lemma {:induction false} CutFrames(rs: seq<Record>, n: nat, crc: Checksum) returns (rest: Bytes)
    requires AllLoggable(rs) && n <= |Frames(rs, crc)|
    ensures Frames(rs, crc)[..n] == Frames(rs[..WholeFrames(rs, n, crc)], crc) + rest
    ensures !Readable(rest, crc)
    ensures WholeFrames(rs, n, crc) < |rs| ==> n < |Frames(rs[..WholeFrames(rs, n, crc) + 1], crc)|
  {
    hide Readable, Loggable, Frame;
    if rs == [] {
      rest := [];
      EmptyUnreadable(crc);
    } else if n < |Frame(rs[0], crc)| {
      rest := Frame(rs[0], crc)[..n];
      CutFrameUnreadable(rs[0], n, crc);
      assert rs[..1][1..] == [];
    } else {
      var f := Frame(rs[0], crc);
      rest := CutFrames(rs[1..], n - |f|, crc);
      var k := WholeFrames(rs[1..], n - |f|, crc);
      assert rs[..k + 1][1..] == rs[1..][..k];
      assert k + 1 < |rs| ==> rs[..k + 2][1..] == rs[1..][..k + 1];
      assert Frames(rs, crc)[..n] == f + Frames(rs[1..], crc)[..n - |f|];
    }
  }

  lemma EmptyUnreadable(crc: Checksum)
    ensures !Readable([], crc)
  {}

  lemma Unread(rest: Bytes, crc: Checksum)
    requires !Readable(rest, crc)
    ensures Records(rest, crc) == [] && GoodLen(rest, crc) == 0
  {}

  /** Torn-tail replay: whatever the cut, the records read back are exactly those whose frames survived whole,
      the file is left at that boundary, and what is appended there reads back too. */
  lemma {:induction false} TornTail(rs: seq<Record>, n: nat, more: seq<Record>, crc: Checksum)
    requires AllLoggable(rs) && AllLoggable(more) && n <= |Frames(rs, crc)|
    ensures var cut := Frames(rs, crc)[..n];
            var k := WholeFrames(rs, n, crc);
            && |Frames(rs[..k], crc)| <= n && (k < |rs| ==> n < |Frames(rs[..k + 1], crc)|)
            && Records(cut, crc) == rs[..k]
            && cut[..GoodLen(cut, crc)] == Frames(rs[..k], crc)
            && Records(cut[..GoodLen(cut, crc)] + Frames(more, crc), crc) == rs[..k] + more
  {
    hide Readable, Loggable, Frame, Frames, WholeFrames, Records, GoodLen;
    var k := WholeFrames(rs, n, crc);
    var rest := CutFrames(rs, n, crc);
    FramesRead(rs[..k], rest, crc);
    Unread(rest, crc);
    EmptyUnreadable(crc);
    Unread([], crc);
    FramesRead(more, [], crc);
    assert Frames(more, crc) + [] == Frames(more, crc);
    FramesRead(rs[..k], Frames(more, crc), crc);
  }

  /** A frame that can be written but is above the limit of replay: it and all that follows it are taken for a torn
      tail. */
  lemma {:induction false} OversizedIsTail(r: Record, rest: Bytes, crc: Checksum)
    requires WellFormed(r) && |Payload(r)| > 0x1000_0000
    ensures Records(Frame(r, crc) + rest, crc) == [] && GoodLen(Frame(r, crc) + rest, crc) == 0
  {
    hide Unmarshal, Value, Payload, WellFormed, Frame;
    var data := Frame(r, crc) + rest;
    FrameLen(r, crc);
    assert data[..4] == Frame(r, crc)[..4];
    Unread(data, crc);
  }

  /** The limit is exactly 2^28 bytes of payload: replay reads on after a frame of that size and stops at a larger
      one. */
  lemma {:induction false} LimitIsExact(r: Record, rest: Bytes, crc: Checksum)
    requires WellFormed(r)
    ensures Records(Frame(r, crc) + rest, crc) == if |Payload(r)| <= 0x1000_0000 then [r] + Records(rest, crc) else []
  {
    hide Records, Payload, WellFormed, Frame;
    if |Payload(r)| <= 0x1000_0000 {
      FrameRead(r, rest, crc);
    } else {
      OversizedIsTail(r, rest, crc);
    }
  }

  // ---------- repair ----------

  /** The weaker test of RepairTruncatesTail: a whole frame, the right checksum, room for a header. */
  predicate Repairable(data: Bytes, crc: Checksum) {
    && |data| >= 4 && ClaimedLen(data) <= MAX_PAYLOAD + 8
    && ClaimedLen(data) <= |data|
    && crc(data[4..ClaimedLen(data) - 4]) == Value(data[ClaimedLen(data) - 4..ClaimedLen(data)])
    && ClaimedLen(data) - 8 >= HEADER_LEN
  }

  function RepairLen(data: Bytes, crc: Checksum): (n: nat)
    ensures n <= |data|
    decreases |data|
  {
    if Repairable(data, crc) then ClaimedLen(data) + RepairLen(data[ClaimedLen(data)..], crc) else 0
  }

  lemma ReadableRepairable(data: Bytes, crc: Checksum)
    requires Readable(data, crc)
    ensures Repairable(data, crc)
  {
    hide Value, DecodeFields;
    var f := data[..ClaimedLen(data)];
    assert f[..4] == data[..4];
    assert f[4..ClaimedLen(data) - 4] == data[4..ClaimedLen(data) - 4];
    assert f[ClaimedLen(data) - 4..ClaimedLen(data)] == data[ClaimedLen(data) - 4..ClaimedLen(data)];
  }

  /** Cutting a file at or after the end of a frame it starts with does not change that frame. */
  lemma SameHead(data: Bytes, n: nat, crc: Checksum)
    requires |data| >= 4 && 4 <= n <= |data|
    ensures ClaimedLen(data[..n]) == ClaimedLen(data)
    ensures ClaimedLen(data) <= n && Readable(data, crc) ==>
              Readable(data[..n], crc) && HeadOf(data[..n], crc) == HeadOf(data, crc)
    ensures Readable(data[..n], crc) ==> Readable(data, crc)
  {
    hide Unmarshal, Value;
    assert data[..n][..4] == data[..4];
    assert ClaimedLen(data) <= n ==> data[..n][..ClaimedLen(data)] == data[..ClaimedLen(data)];
  }

  /** Repair keeps at least what replay keeps, and replaying the repaired file gives the same records and the
      same final file as replaying the original, on every byte string. */
  lemma {:induction false} RepairThenReplay(data: Bytes, crc: Checksum)
    ensures GoodLen(data, crc) <= RepairLen(data, crc)
    ensures Records(data[..RepairLen(data, crc)], crc) == Records(data, crc)
    ensures GoodLen(data[..RepairLen(data, crc)], crc) == GoodLen(data, crc)
    decreases |data|
  {
    hide Readable, Repairable, ClaimedLen, HeadOf;
    var m := RepairLen(data, crc);
    if Readable(data, crc) {
      ReadableRepairable(data, crc);
      var n := ClaimedLen(data);
      RepairThenReplay(data[n..], crc);
      SameHead(data, m, crc);
      assert data[..m][n..] == data[n..][..m - n];
    } else {
      UnreadableCut(data, m, crc);
    }
  }

  lemma UnreadableCut(data: Bytes, n: nat, crc: Checksum)
    requires !Readable(data, crc) && n <= |data|
    ensures !Readable(data[..n], crc)
  {
    hide Unmarshal, Value, ClaimedLen;
    if n >= 4 {
      SameHead(data, n, crc);
    }
  }

  lemma CutFrameUnrepairable(r: Record, n: nat, crc: Checksum)
    requires Loggable(r) && n < |Frame(r, crc)|
    ensures !Repairable(Frame(r, crc)[..n], crc)
  {
    hide Value, Payload, WellFormed, Frame;
    FrameLen(r, crc);
    assert n >= 4 ==> Frame(r, crc)[..n][..4] == Frame(r, crc)[..4];
  }

  /** On any cut of a well-formed log, repair and replay stop at the same offset. */
  lemma {:induction false} RepairAgreesOnCuts(rs: seq<Record>, n: nat, crc: Checksum)
    requires AllLoggable(rs) && n <= |Frames(rs, crc)|
    ensures RepairLen(Frames(rs, crc)[..n], crc) == GoodLen(Frames(rs, crc)[..n], crc)
    decreases rs
  {
    hide Readable, Repairable, ClaimedLen, HeadOf, Loggable, Frame;
    var data := Frames(rs, crc)[..n];
    if rs == [] {
      NothingToRepair(crc);
    } else {
      var f := Frame(rs[0], crc);
      if n < |f| {
        assert data == f[..n];
        CutFrameUnreadable(rs[0], n, crc);
        CutFrameUnrepairable(rs[0], n, crc);
      } else {
        var rest := Frames(rs[1..], crc)[..n - |f|];
        assert data == f + rest;
        FrameReadable(rs[0], rest, crc);
        ReadableRepairable(data, crc);
        assert data[|f|..] == rest;
        RepairAgreesOnCuts(rs[1..], n - |f|, crc);
      }
    }
  }

  lemma NothingToRepair(crc: Checksum)
    ensures !Repairable([], crc) && !Readable([], crc)
  {}

  lemma {:induction false} NextRepairable(data: Bytes, crc: Checksum)
    ensures RepairLen(data, crc) ==
              if Repairable(data, crc) then ClaimedLen(data) + RepairLen(data[ClaimedLen(data)..], crc) else 0
  {
    hide Repairable, ClaimedLen;
  }

  /** Repair looks at the length, the checksum and the room for a header, and at nothing else: it keeps a frame that
      passes, whether or not it decodes, and cuts before one that does not. */
  lemma {:induction false} RepairKeepsChecked(payload: Bytes, sum: Bytes, rest: Bytes, crc: Checksum)
    requires |payload| < 0x1_0000_0000 && |sum| == 4
    ensures RepairLen(Big(|payload|, 4) + payload + sum + rest, crc) ==
              if 15 <= |payload| <= 0x1000_0000 && crc(payload) == Value(sum)
              then |payload| + 8 + RepairLen(rest, crc) else 0
  {
    hide Big, Value, Pow256;
    var data := Big(|payload|, 4) + payload + sum + rest;
    Widths();
    ReadsBack(|payload|, 4);
    NextRepairable(data, crc);
    assert data[..4] == Big(|payload|, 4);
    assert data[4..4 + |payload|] == payload;
    assert data[4 + |payload|..8 + |payload|] == sum;
    assert data[8 + |payload|..] == rest;
  }

  /** Truncates the file to its last complete record. */
  method RepairTruncatesTail(file: Bytes, crc: Checksum) returns (repaired: Bytes)
    ensures repaired == file[..RepairLen(file, crc)]
  {
    hide Value, RepairLen;
    var goodOff: nat := 0;
    assert file[0..] == file;
    while goodOff < |file|
      invariant goodOff <= |file|
      invariant RepairLen(file, crc) == goodOff + RepairLen(file[goodOff..], crc)
    {
      ghost var data := file[goodOff..];
      NextRepairable(data, crc);
      if |file| - goodOff < 4 {
        return file[..goodOff];
      }
      var lenBuf := file[goodOff..goodOff + 4];
      assert lenBuf == data[..4];
      var payloadLen := Value(lenBuf);
      if payloadLen > MAX_PAYLOAD {
        return file[..goodOff];
      }
      if |file| - goodOff - 4 < payloadLen + 4 {
        return file[..goodOff];
      }
      var payload := file[goodOff + 4..goodOff + 4 + payloadLen];
      var got := file[goodOff + 4 + payloadLen..goodOff + 8 + payloadLen];
      assert payload == data[4..ClaimedLen(data) - 4];
      assert got == data[ClaimedLen(data) - 4..ClaimedLen(data)];
      if crc(payload) != Value(got) {
        return file[..goodOff];
      }
      if |payload| < HEADER_LEN {
        return file[..goodOff];
      }
      assert data[ClaimedLen(data)..] == file[goodOff + 8 + payloadLen..];
      goodOff := goodOff + 8 + payloadLen;
    }
    NextRepairable([], crc);
    assert file[goodOff..] == [];
    return file;
  }
}
