/** The frame codec of the write-ahead log (internal/wal/entry.go), byte for byte.
    The checksum is any fixed function from bytes to 32 bits. */
module WalCodec {

  type Byte = x: int | 0 <= x < 256
  type Bytes = seq<Byte>
  type U32 = x: int | 0 <= x < 0x1_0000_0000
  type U64 = x: int | 0 <= x < 0x1_0000_0000_0000_0000
  type Checksum = Bytes -> U32

  const MAGIC: Bytes := [75, 86, 83, 87]
  const FORMAT_VERSION := 1
  const HEADER_LEN := 15

  const OP_SET: Byte := 1
  const OP_DEL: Byte := 2
  const OP_BEGIN: Byte := 3
  const OP_COMMIT: Byte := 4
  const OP_RAFT_LOG: Byte := 5
  const OP_RAFT_META: Byte := 6

  /** One logical record. Go strings are byte strings. */
  datatype Record = Record(sequence: U64, op: Byte, table: Bytes, key: Bytes, fk: Bytes, value: Bytes)

  datatype Error =
    | Truncated
    | Corrupt
    | UnsupportedVersion(version: int)
    | InvalidOp(op: Byte)
    | EmptyTable
    | BadTxId
    | SliceOutOfRange // a run-time panic: 32-bit offsets wrap around

  datatype Result<+T> = Ok(value: T) | Err(error: Error)

  // ---------- big-endian integers ----------

  /** The low `n` bytes of `v`, most significant first. */
  function Big(v: nat, n: nat): (b: Bytes)
    ensures |b| == n
  {
    if n == 0 then [] else Big(v / 256, n - 1) + [v % 256]
  }

  function Value(b: Bytes): nat {
    if b == [] then 0 else Value(b[..|b| - 1]) * 256 + b[|b| - 1]
  }

  function Pow256(n: nat): nat {
    if n == 0 then 1 else 256 * Pow256(n - 1)
  }

  /** `v` is rendered modulo 256^n, as Go's unsigned conversions truncate. */
  lemma {:induction false} ValueOfBig(v: nat, n: nat)
    ensures Pow256(n) > 0 && Value(Big(v, n)) == v % Pow256(n)
  {
    if n > 0 {
      ValueOfBig(v / 256, n - 1);
      var b := Big(v, n);
      assert b[..n - 1] == Big(v / 256, n - 1);
      SplitModulo(v, Pow256(n - 1));
    }
  }

  lemma SplitModulo(v: nat, p: nat)
    requires p > 0
    ensures v / 256 % p * 256 + v % 256 == v % (256 * p)
  {
    var q, r := v / 256 / p, v / 256 % p;
    assert v == 256 * (v / 256) + v % 256;
    assert v / 256 == p * q + r;
    assert v == (256 * p) * q + (r * 256 + v % 256);
    Remainder(v, 256 * p, q, r * 256 + v % 256);
  }

  lemma Remainder(v: nat, d: nat, q: nat, r: nat)
    requires d > 0 && v == d * q + r && r < d
    ensures v % d == r
  {
    var k: int := v / d - q;
    assert d * k == r - v % d;
    assert k >= 1 ==> d * k >= d;
    assert k <= -1 ==> d * k + d <= 0;
  }

  lemma {:induction false} BigOfValue(b: Bytes)
    ensures Value(b) < Pow256(|b|) && Big(Value(b), |b|) == b
  {
    if b != [] {
      BigOfValue(b[..|b| - 1]);
      assert Value(b) / 256 == Value(b[..|b| - 1]) && Value(b) % 256 == b[|b| - 1];
    }
  }

  lemma Widths()
    ensures Pow256(2) == 0x1_0000 && Pow256(4) == 0x1_0000_0000 && Pow256(8) == 0x1_0000_0000_0000_0000
  {
    assert Pow256(4) == 0x1_0000_0000;
    assert Pow256(6) == 0x1_0000_0000_0000;
  }

  /** Reading back a 32-bit field. */
  lemma {:induction false} ReadsBack(v: nat, n: nat)
    requires v < Pow256(n)
    ensures Value(Big(v, n)) == v
  {
    ValueOfBig(v, n);
    Remainder(v, Pow256(n), 0, v);
  }

  // ---------- encoding ----------

  /** A length-prefixed string; a length of 2^32 or more is truncated. */
  function Str(s: Bytes): Bytes { Big(|s|, 4) + s }

  /** The value a frame holds: none for a delete. */
  function Stored(r: Record): Bytes {
    if r.op == OP_DEL then [] else r.value
  }

  function Header(r: Record): (h: Bytes)
    ensures |h| == HEADER_LEN
  {
    MAGIC + Big(FORMAT_VERSION, 2) + Big(r.sequence, 8) + [r.op]
  }

  function Payload(r: Record): Bytes {
    Header(r) + Str(r.table) + Str(r.key) + Str(r.fk) + Str(Stored(r))
  }

  function Frame(r: Record, crc: Checksum): Bytes {
    Big(|Payload(r)|, 4) + Payload(r) + Big(crc(Payload(r)), 4)
  }

  predicate HoldsValue(op: Byte) { op == OP_SET || op == OP_RAFT_LOG || op == OP_RAFT_META }

  predicate IsTxOp(op: Byte) { op == OP_BEGIN || op == OP_COMMIT }

  function Marshal(r: Record, crc: Checksum): Result<Bytes> {
    if r.table == [] then Err(EmptyTable)
    else if HoldsValue(r.op) || r.op == OP_DEL then Ok(Frame(r, crc))
    else if !IsTxOp(r.op) then Err(InvalidOp(r.op))
    else if |r.value| != 8 then Err(BadTxId)
    else Ok(Frame(r, crc))
  }

  // ---------- decoding ----------

  function ReadU32(data: Bytes, off: nat): Result<(nat, nat)> {
    if off + 4 > |data| then Err(Truncated) else Ok((Value(data[off..off + 4]), off + 4))
  }

  function ReadString(data: Bytes, off: nat): Result<(Bytes, nat)> {
    match ReadU32(data, off)
    case Err(e) => Err(e)
    case Ok((n, start)) =>
      if start > |data| || n > |data| - start then Err(Truncated) else Ok((data[start..start + n], start + n))
  }

  /** The checks on the operation after all fields are read. */
  function CheckOp(r: Record): (c: Result<Record>)
    ensures c.Ok? ==> c == Ok(r)
  {
    if HoldsValue(r.op) then Ok(r)
    else if r.op == OP_DEL then if r.value != [] then Err(Corrupt) else Ok(r)
    else if IsTxOp(r.op) then if |r.value| != 8 then Err(Corrupt) else Ok(r)
    else Err(InvalidOp(r.op))
  }

  /** The fields after the fixed header. */
  function DecodeFields(payload: Bytes, sequence: U64, op: Byte): Result<Record> {
    match ReadString(payload, HEADER_LEN)
    case Err(e) => Err(e)
    case Ok((table, off1)) =>
      match ReadString(payload, off1)
      case Err(e) => Err(e)
      case Ok((key, off2)) =>
        match ReadString(payload, off2)
        case Err(e) => Err(e)
        case Ok((fk, off3)) =>
          match ReadU32(payload, off3)
          case Err(e) => Err(e)
          case Ok((n, off4)) =>
            if off4 + n != |payload| then Err(Corrupt)
            else CheckOp(Record(sequence, op, table, key, fk, payload[off4..off4 + n]))
  }

  function DecodePayload(payload: Bytes): Result<Record> {
    if |payload| < HEADER_LEN || payload[..4] != MAGIC then Err(Corrupt)
    else if Value(payload[4..6]) != FORMAT_VERSION then Err(UnsupportedVersion(Value(payload[4..6])))
    else DecodeFields(payload, SequenceOf(payload), payload[14])
  }

  function SequenceOf(payload: Bytes): U64
    requires |payload| >= HEADER_LEN
  {
    BigOfValue(payload[6..14]);
    Widths();
    Value(payload[6..14])
  }

  function Unmarshal(data: Bytes, crc: Checksum): Result<Record> {
    if |data| < 8 then Err(Truncated)
    else
      var n := Value(data[..4]);
      if n + 8 > |data| then Err(Truncated)
      else if n + 8 >= 0x1_0000_0000 then Err(SliceOutOfRange)
      else if crc(data[4..4 + n]) != Value(data[4 + n..8 + n]) then Err(Corrupt)
      else DecodePayload(data[4..4 + n])
  }

  // ---------- the codec is a bijection ----------

  /** What decoding can return: a known operation with the value it calls for, and sizes that fit. */
  predicate WellFormed(r: Record) {
    CheckOp(r).Ok? && |Payload(r)| + 8 < 0x1_0000_0000
  }

  lemma {:induction false} ReadsBackU32(pre: Bytes, v: nat, post: Bytes, data: Bytes)
    requires data == pre + Big(v, 4) + post && v < 0x1_0000_0000
    ensures ReadU32(data, |pre|) == Ok((v, |pre| + 4))
  {
    hide Big, Value;
    Widths();
    ReadsBack(v, 4);
    assert data[|pre|..|pre| + 4] == Big(v, 4);
  }

  lemma ReadsString(pre: Bytes, s: Bytes, post: Bytes, data: Bytes)
    requires data == pre + Str(s) + post && |s| < 0x1_0000_0000
    ensures ReadString(data, |pre|) == Ok((s, |pre| + 4 + |s|))
  {
    hide Big, ReadU32;
    assert data == pre + Big(|s|, 4) + (s + post);
    ReadsBackU32(pre, |s|, s + post, data);
    assert data[|pre| + 4..|pre| + 4 + |s|] == s;
  }

  lemma StringRead(data: Bytes, off: nat)
    requires ReadString(data, off).Ok?
    ensures var (s, end) := ReadString(data, off).value;
            end == off + 4 + |s| <= |data| && data[off..end] == Str(s)
  {
    hide Big, Value;
    var (s, end) := ReadString(data, off).value;
    BigOfValue(data[off..off + 4]);
    assert data[off..end] == data[off..off + 4] + data[off + 4..end];
  }

  lemma StrLength(s: Bytes)
    ensures |Str(s)| == 4 + |s|
  {}

  /** The payload cut at each of its strings. */
  lemma PayloadCuts(r: Record)
    ensures var h1 := Header(r) + Str(r.table);
            var h2 := h1 + Str(r.key);
            var h3 := h2 + Str(r.fk);
            && Payload(r) == Header(r) + Str(r.table) + (Str(r.key) + Str(r.fk) + Str(Stored(r)))
            && Payload(r) == h1 + Str(r.key) + (Str(r.fk) + Str(Stored(r)))
            && Payload(r) == h2 + Str(r.fk) + Str(Stored(r))
            && Payload(r) == h3 + Big(|Stored(r)|, 4) + Stored(r)
            && |h1| == HEADER_LEN + 4 + |r.table| && |h2| == |h1| + 4 + |r.key| && |h3| == |h2| + 4 + |r.fk|
            && |Payload(r)| == |h3| + 4 + |Stored(r)|
  {
    hide Big, Header, Stored;
    StrLength(r.table);
    StrLength(r.key);
    StrLength(r.fk);
  }

  lemma StoredIsValue(r: Record)
    requires CheckOp(r).Ok?
    ensures Stored(r) == r.value
  {}

  lemma DecodesFields(r: Record)
    requires WellFormed(r)
    ensures DecodeFields(Payload(r), r.sequence, r.op) == Ok(r)
  {
    hide Big, Header, Payload, Str, Stored, ReadString, ReadU32, CheckOp;
    StoredIsValue(r);
    PayloadCuts(r);
    var p := Payload(r);
    var h1 := Header(r) + Str(r.table);
    var h2 := h1 + Str(r.key);
    var h3 := h2 + Str(r.fk);
    ReadsString(Header(r), r.table, Str(r.key) + Str(r.fk) + Str(r.value), p);
    ReadsString(h1, r.key, Str(r.fk) + Str(r.value), p);
    ReadsString(h2, r.fk, Str(r.value), p);
    ReadsBackU32(h3, |r.value|, r.value, p);
    assert p[|h3| + 4..|h3| + 4 + |r.value|] == r.value;
  }

  lemma HeaderCuts(r: Record, rest: Bytes, p: Bytes)
    requires p == Header(r) + rest
    ensures p[..4] == MAGIC && p[4..6] == Big(FORMAT_VERSION, 2) && p[6..14] == Big(r.sequence, 8) && p[14] == r.op
  {
    hide Big;
  }

  lemma DecodesPayload(r: Record)
    requires WellFormed(r)
    ensures DecodePayload(Payload(r)) == Ok(r)
  {
    hide Payload, Header, Str, Stored, DecodeFields, WellFormed, Big, Value, Pow256;
    PayloadCuts(r);
    DecodesFields(r);
    Widths();
    ReadsBack(FORMAT_VERSION, 2);
    ReadsBack(r.sequence, 8);
    var rest := Str(r.table) + (Str(r.key) + Str(r.fk) + Str(Stored(r)));
    assert Payload(r) == Header(r) + rest;
    HeaderCuts(r, rest, Payload(r));
  }

  /** Decoding a frame, whatever follows it, gives back the record. */
  lemma UnmarshalsFrame(r: Record, trailer: Bytes, crc: Checksum)
    requires WellFormed(r)
    ensures Unmarshal(Frame(r, crc) + trailer, crc) == Ok(r)
  {
    hide Big, Value, Pow256, DecodePayload, Payload;
    var p, data := Payload(r), Frame(r, crc) + trailer;
    DecodesPayload(r);
    Widths();
    ReadsBack(|p|, 4);
    ReadsBack(crc(p), 4);
    assert data[..4] == Big(|p|, 4);
    assert data[4..4 + |p|] == p;
    assert data[4 + |p|..8 + |p|] == Big(crc(p), 4);
  }

  lemma LastStringRead(data: Bytes, off: nat)
    requires off + 4 <= |data| && off + 4 + Value(data[off..off + 4]) == |data|
    ensures data[off..] == Str(data[off + 4..])
  {
    hide Big, Value;
    BigOfValue(data[off..off + 4]);
    assert data[off..] == data[off..off + 4] + data[off + 4..];
  }

  lemma FieldsDecoded(payload: Bytes, sequence: U64, op: Byte)
    requires DecodeFields(payload, sequence, op).Ok?
    ensures var r := DecodeFields(payload, sequence, op).value;
            && HEADER_LEN <= |payload| && r.sequence == sequence && r.op == op && CheckOp(r).Ok?
            && payload[HEADER_LEN..] == Str(r.table) + Str(r.key) + Str(r.fk) + Str(r.value)
  {
    hide Big, Value, Pow256, CheckOp, ReadString, Str;
    var r := DecodeFields(payload, sequence, op).value;
    StringRead(payload, HEADER_LEN);
    var off1 := HEADER_LEN + 4 + |r.table|;
    StringRead(payload, off1);
    var off2 := off1 + 4 + |r.key|;
    StringRead(payload, off2);
    var off3 := off2 + 4 + |r.fk|;
    LastStringRead(payload, off3);
    assert r.value == payload[off3 + 4..];
    assert payload[HEADER_LEN..] == payload[HEADER_LEN..off1] + payload[off1..off2] + payload[off2..off3] +
        payload[off3..];
  }

  lemma PayloadDecoded(payload: Bytes)
    requires DecodePayload(payload).Ok?
    ensures var r := DecodePayload(payload).value; CheckOp(r).Ok? && payload == Payload(r)
  {
    hide Big, Value, Pow256, DecodeFields, CheckOp, Str, Stored;
    var r := DecodePayload(payload).value;
    FieldsDecoded(payload, SequenceOf(payload), payload[14]);
    StoredIsValue(r);
    BigOfValue(payload[4..6]);
    BigOfValue(payload[6..14]);
    assert payload == payload[..4] + payload[4..6] + payload[6..14] + [payload[14]] + payload[HEADER_LEN..];
  }

  /** Whatever decodes starts with the frame of the record it decodes to. */
  lemma FrameUnmarshalled(data: Bytes, crc: Checksum)
    requires Unmarshal(data, crc).Ok?
    ensures var r := Unmarshal(data, crc).value;
            WellFormed(r) && Frame(r, crc) <= data && |Frame(r, crc)| == Value(data[..4]) + 8
  {
    hide Big, Value, Pow256, DecodePayload, CheckOp, Payload;
    var n := Value(data[..4]);
    PayloadDecoded(data[4..4 + n]);
    BigOfValue(data[..4]);
    BigOfValue(data[4 + n..8 + n]);
    assert data[..8 + n] == data[..4] + data[4..4 + n] + data[4 + n..8 + n];
  }

  /** Decoding accepts exactly the frames of well-formed records, and is the inverse of framing. */
  lemma DecodesExactlyFrames(data: Bytes, r: Record, crc: Checksum)
    ensures Unmarshal(data, crc) == Ok(r) <==> WellFormed(r) && Frame(r, crc) <= data
  {
    hide Unmarshal, WellFormed, Frame;
    if Unmarshal(data, crc) == Ok(r) {
      FrameUnmarshalled(data, crc);
    }
    if WellFormed(r) && Frame(r, crc) <= data {
      UnmarshalsFrame(r, data[|Frame(r, crc)|..], crc);
      assert data == Frame(r, crc) + data[|Frame(r, crc)|..];
    }
  }

  lemma SameHeader(k: Record, r: Record)
    requires k.sequence == r.sequence && k.op == r.op
    ensures Header(k) == Header(r)
  {}

  /** Decoding what MarshalBinary produced, with anything after it, returns the record (a delete's value is not
      stored) exactly when the payload's length leaves the 32-bit offsets of the decoder room. */
  lemma MarshalRoundTrip(r: Record, trailer: Bytes, crc: Checksum)
    requires Marshal(r, crc).Ok?
    ensures Unmarshal(Marshal(r, crc).value + trailer, crc) == Ok(r.(value := Stored(r)))
            <==> |Payload(r)| + 8 < 0x1_0000_0000
  {
    hide Big, Unmarshal, Header;
    var k := r.(value := Stored(r));
    assert Header(k) == Header(r) by { SameHeader(k, r); }
    assert Payload(k) == Payload(r);
    DecodesExactlyFrames(Frame(r, crc) + trailer, k, crc);
  }

  function Zeros(n: nat): (b: Bytes)
    ensures |b| == n
  {
    seq(n, _ => 0)
  }

  /** A record whose every field fits 32 bits and which is encoded, but not decoded again. */
  lemma OversizedFrameIsLost(trailer: Bytes, crc: Checksum)
    ensures var r := Record(1, OP_SET, [0], [], [], Zeros(0xFFFF_FFFF));
            && |r.table| < 0x1_0000_0000 && |r.key| < 0x1_0000_0000
            && |r.fk| < 0x1_0000_0000 && |r.value| < 0x1_0000_0000
            && Marshal(r, crc).Ok?
            && Unmarshal(Marshal(r, crc).value + trailer, crc) != Ok(r)
  {
    hide Big, Unmarshal, Header, Frame, Payload;
    var r := Record(1, OP_SET, [0], [], [], Zeros(0xFFFF_FFFF));
    PayloadCuts(r);
    MarshalRoundTrip(r, trailer, crc);
  }

  /** A frame of the exact length that decodes to a record with a table name encodes back to the same bytes. */
  lemma UnmarshalRoundTrip(data: Bytes, crc: Checksum)
    requires Unmarshal(data, crc).Ok? && Unmarshal(data, crc).value.table != []
    requires |data| == Value(data[..4]) + 8
    ensures Marshal(Unmarshal(data, crc).value, crc) == Ok(data)
  {
    hide Unmarshal, Frame, Payload;
    FrameUnmarshalled(data, crc);
    assert Frame(Unmarshal(data, crc).value, crc) == data;
  }

  // ---------- the format, written out ----------

  /** Which entries are encoded, and what is wrong with the others. */
  lemma MarshalsExactly(r: Record, crc: Checksum)
    ensures Marshal(r, crc).Ok? <==> r.table != [] && (r.op in {1, 2, 5, 6} || (r.op in {3, 4} && |r.value| == 8))
    ensures r.table == [] ==> Marshal(r, crc) == Err(EmptyTable)
    ensures r.table != [] && !(1 <= r.op <= 6) ==> Marshal(r, crc) == Err(InvalidOp(r.op))
    ensures r.table != [] && r.op in {3, 4} && |r.value| != 8 ==> Marshal(r, crc) == Err(BadTxId)
  {
    hide Frame;
  }

  /** Which records decoding can return: the value is empty for a delete and eight bytes for a transaction mark, and
      everything fits in 32 bits. */
  lemma WellFormedExactly(r: Record)
    ensures WellFormed(r) <==>
              && (r.op in {1, 5, 6} || (r.op == 2 && r.value == []) || (r.op in {3, 4} && |r.value| == 8))
              && 39 + |r.table| + |r.key| + |r.fk| + |r.value| < 0x1_0000_0000
  {
    hide Payload;
    PayloadCuts(r);
    if CheckOp(r).Ok? {
      StoredIsValue(r);
    }
  }

  /** What decoding reports of bytes that are too short, too long for the 32-bit offsets, damaged, or of another
      format; the checks are made in this order. */
  lemma UnmarshalRefuses(data: Bytes, crc: Checksum)
    ensures |data| < 8 || Value(data[..4]) + 8 > |data| ==> Unmarshal(data, crc) == Err(Truncated)
    ensures |data| >= 8 && 0x1_0000_0000 <= Value(data[..4]) + 8 <= |data| ==>
              Unmarshal(data, crc) == Err(SliceOutOfRange)
    ensures |data| >= 8 && Value(data[..4]) + 8 <= |data| && Value(data[..4]) + 8 < 0x1_0000_0000 ==>
              var n := Value(data[..4]);
              var payload := data[4..4 + n];
              && (crc(payload) != Value(data[4 + n..8 + n]) || n < 15 || payload[..4] != [75, 86, 83, 87] ==>
                    Unmarshal(data, crc) == Err(Corrupt))
              && (crc(payload) == Value(data[4 + n..8 + n]) && n >= 15 && payload[..4] == [75, 86, 83, 87]
                  && Value(payload[4..6]) != 1 ==>
                    Unmarshal(data, crc) == Err(UnsupportedVersion(Value(payload[4..6]))))
  {
    hide Value, DecodeFields;
  }

  lemma {:induction false} SmallLength(v: Byte)
    ensures Big(v, 4) == [0, 0, 0, v]
  {
    assert Big(v / 256 / 256 / 256, 1) == [0];
    assert Big(v / 256 / 256, 2) == [0, 0];
    assert Big(v / 256, 3) == [0, 0, 0];
  }

  /** The bytes of one entry's payload: magic, version, sequence number, operation, and the four fields with their
      lengths. */
  lemma PayloadOfOneSet()
    ensures Payload(Record(258, 1, [116], [107, 49], [], [7, 8, 9])) ==
            [75, 86, 83, 87] + [0, 1] + [0, 0, 0, 0, 0, 0, 1, 2] + [1]
            + ([0, 0, 0, 1] + [116]) + ([0, 0, 0, 2] + [107, 49]) + ([0, 0, 0, 0] + []) + ([0, 0, 0, 3] + [7, 8, 9])
  {
    assert Big(1, 2) == [0, 1];
    assert Big(258, 8) == [0, 0, 0, 0, 0, 0, 1, 2];
    hide Big;
    SmallLength(0);
    SmallLength(1);
    SmallLength(2);
    SmallLength(3);
  }

  /** A frame is the length, the payload and the checksum of the payload. */
  lemma FrameOfOneSet(crc: Checksum)
    ensures var r := Record(258, 1, [116], [107, 49], [], [7, 8, 9]);
            Marshal(r, crc) == Ok([0, 0, 0, 37] + Payload(r) + Big(crc(Payload(r)), 4))
  {
    hide Payload, Big;
    PayloadOfOneSet();
    SmallLength(37);
  }

  // ---------- the code ----------

  function AppendU32(dst: Bytes, v: nat): Bytes { dst + Big(v, 4) }

  function AppendString(dst: Bytes, s: Bytes): (out: Bytes)
    ensures out == dst + Str(s)
  {
    AppendU32(dst, |s|) + s
  }

  lemma PayloadBuilt(r: Record, fields: Bytes, payload: Bytes)
    requires fields == Header(r) + Str(r.table) + Str(r.key) + Str(r.fk)
    requires payload == fields + Big(|Stored(r)|, 4) + Stored(r)
    ensures payload == Payload(r)
  {
    hide Big, Header, Stored;
  }

  class Entry {
    var sequence: U64
    var op: Byte
    var table: Bytes
    var key: Bytes
    var fk: Bytes
    var value: Bytes

    function Contents(): Record
      reads this
    {
      Record(sequence, op, table, key, fk, value)
    }

    constructor (r: Record)
      ensures Contents() == r
    {
      sequence, op, table, key, fk, value := r.sequence, r.op, r.table, r.key, r.fk, r.value;
    }

    method MarshalBinary(crc: Checksum) returns (result: Result<Bytes>)
      ensures result == Marshal(Contents(), crc)
    {
      if table == [] {
        return Err(EmptyTable);
      }
      hide Big, AppendString, Str, Payload;
      var payload: Bytes := MAGIC;
      payload := payload + Big(FORMAT_VERSION, 2);
      payload := payload + Big(sequence, 8);
      payload := payload + [op];
      payload := AppendString(payload, table);
      payload := AppendString(payload, key);
      payload := AppendString(payload, fk);
      ghost var fields := payload;
      if HoldsValue(op) {
        payload := AppendU32(payload, |value|);
        payload := payload + value;
      } else if op == OP_DEL {
        payload := AppendU32(payload, 0);
      } else if IsTxOp(op) {
        if |value| != 8 {
          return Err(BadTxId);
        }
        payload := AppendU32(payload, 8);
        payload := payload + value;
      } else {
        return Err(InvalidOp(op));
      }
      PayloadBuilt(Contents(), fields, payload);
      var out := AppendU32([], |payload|);
      assert out == Big(|payload|, 4);
      out := out + payload;
      out := AppendU32(out, crc(payload));
      return Ok(out);
    }

    /** On an error some fields may already have been assigned. */
    method UnmarshalBinary(data: Bytes, crc: Checksum) returns (result: Result<()>)
      modifies this
      ensures match Unmarshal(data, crc)
              case Ok(r) => result == Ok(()) && Contents() == r
              case Err(e) => result == Err(e)
    {
      if |data| < 8 {
        return Err(Truncated);
      }
      var payloadLen := Value(data[..4]);
      if payloadLen + 8 > |data| {
        return Err(Truncated);
      }
      if payloadLen + 8 >= 0x1_0000_0000 {
        return Err(SliceOutOfRange);
      }
      var payload := data[4..4 + payloadLen];
      if crc(payload) != Value(data[4 + payloadLen..8 + payloadLen]) {
        return Err(Corrupt);
      }
      if |payload| < HEADER_LEN || payload[..4] != MAGIC {
        return Err(Corrupt);
      }
      var version := Value(payload[4..6]);
      if version != FORMAT_VERSION {
        return Err(UnsupportedVersion(version));
      }
      sequence := SequenceOf(payload);
      op := payload[14];
      result := ReadFields(payload);
    }

    method ReadFields(payload: Bytes) returns (result: Result<()>)
      modifies this
      ensures match DecodeFields(payload, old(sequence), old(op))
              case Ok(r) => result == Ok(()) && Contents() == r
              case Err(e) => result == Err(e)
    {
      var s := ReadString(payload, HEADER_LEN);
      if s.Err? {
        return Err(s.error);
      }
      var off := s.value.1;
      table := s.value.0;
      s := ReadString(payload, off);
      if s.Err? {
        return Err(s.error);
      }
      off := s.value.1;
      key := s.value.0;
      s := ReadString(payload, off);
      if s.Err? {
        return Err(s.error);
      }
      off := s.value.1;
      fk := s.value.0;
      var n := ReadU32(payload, off);
      if n.Err? {
        return Err(n.error);
      }
      off := n.value.1;
      if off + n.value.0 != |payload| {
        return Err(Corrupt);
      }
      value := payload[off..off + n.value.0];
      if HoldsValue(op) {
        return Ok(());
      } else if op == OP_DEL {
        return if value != [] then Err(Corrupt) else Ok(());
      } else if IsTxOp(op) {
        return if |value| != 8 then Err(Corrupt) else Ok(());
      }
      return Err(InvalidOp(op));
    }
  }
}
