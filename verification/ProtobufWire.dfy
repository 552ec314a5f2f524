/**
 The wire level of the bounded protobuf decoder: varints, keys, length-delimited records and
 skipped fields ("Base 128 Varints", "Message Structure" and "Length-Delimited Records" of the
 Protocol Buffers Encoding specification). Reading is specified by functions from a position in a
 buffer; an encoder is their inverse; the imperative readers move a cursor and are proved against them.
 */
module ProtobufWire {
  import opened Wrappers

  type Byte = b: int | 0 <= b < 256
  type Bytes = seq<Byte>

  const MAX_SAFE_INTEGER := 9_007_199_254_740_991
  const MAX_FIELD := 0x1fff_ffff
  const TWO_TO_64 := 0x1_0000_0000_0000_0000

  /** A value read from a buffer and the position behind it. */
  datatype Parsed<+T> = Parsed(value: T, next: nat)

  // ---------- Varints ----------

  /** The varint at `pos`, of which `index` bytes were already taken. */
  function RawVarint(b: Bytes, pos: nat, index: nat): (r: Option<Parsed<nat>>)
    ensures r.Some? ==> pos < r.value.next <= |b|
    decreases 10 - index
  {
    if index >= 10 || pos >= |b| || (index == 9 && b[pos] > 1) then None
    else if b[pos] < 128 then Some(Parsed(b[pos], pos + 1))
    else match RawVarint(b, pos + 1, index + 1)
      case None => None
      case Some(high) => Some(Parsed(b[pos] - 128 + 128 * high.value, high.next))
  }

  /** A varint that JavaScript can hold exactly. */
  function SafeVarint(b: Bytes, pos: nat): (r: Option<Parsed<nat>>)
    ensures r.Some? ==> pos < r.value.next <= |b|
  {
    var raw := RawVarint(b, pos, 0);
    if raw.Some? && raw.value.value <= MAX_SAFE_INTEGER then raw else None
  }

  function EncodeVarint(v: nat): (s: Bytes)
    ensures |s| > 0
  {
    if v < 128 then [v] else [v % 128 + 128] + EncodeVarint(v / 128)
  }

  /** `s` stands in `b` at `pos`. */
  ghost predicate At(b: Bytes, pos: nat, s: Bytes) {
    pos + |s| <= |b| && b[pos..pos + |s|] == s
  }

  lemma AtSplit(b: Bytes, pos: nat, s: Bytes, t: Bytes)
    requires At(b, pos, s + t)
    ensures At(b, pos, s) && At(b, pos + |s|, t)
  {
    var both := b[pos..pos + |s + t|];
    assert both[..|s|] == s;
    assert both[|s|..] == t;
  }

  /** One more than the largest value that fits when `index` bytes are already used. */
  function VarintBound(index: nat): nat
    decreases 9 - index
  {
    if index >= 9 then 2 else 128 * VarintBound(index + 1)
  }

  lemma {:induction false} VarintRoundTripFrom(b: Bytes, pos: nat, v: nat, index: nat)
    requires index <= 9 && v < VarintBound(index) && At(b, pos, EncodeVarint(v))
    ensures RawVarint(b, pos, index) == Some(Parsed(v, pos + |EncodeVarint(v)|))
    decreases 9 - index
  {
    if v < 128 {
      assert b[pos] == v;
    } else {
      AtSplit(b, pos, [v % 128 + 128], EncodeVarint(v / 128));
      assert b[pos] == v % 128 + 128;
      VarintRoundTripFrom(b, pos + 1, v / 128, index + 1);
    }
  }

  /** Every 64-bit value survives encoding and decoding, whatever surrounds it. */
  lemma VarintRoundTrip(b: Bytes, pos: nat, v: nat)
    requires v < TWO_TO_64 && At(b, pos, EncodeVarint(v))
    ensures RawVarint(b, pos, 0) == Some(Parsed(v, pos + |EncodeVarint(v)|))
    ensures v <= MAX_SAFE_INTEGER ==> SafeVarint(b, pos) == Some(Parsed(v, pos + |EncodeVarint(v)|))
  {
    VarintBoundIs64Bits();
    VarintRoundTripFrom(b, pos, v, 0);
  }

  lemma VarintBoundIs64Bits()
    ensures VarintBound(0) == TWO_TO_64
  {
    assert VarintBound(7) == 128 * VarintBound(8) == 128 * 128 * 2;
    assert VarintBound(5) == 128 * VarintBound(6) == 128 * 128 * VarintBound(7);
    assert VarintBound(3) == 128 * VarintBound(4) == 128 * 128 * VarintBound(5);
    assert VarintBound(1) == 128 * VarintBound(2) == 128 * 128 * VarintBound(3);
  }

  // ---------- Fields ----------

  datatype Payload = VarintPayload(value: nat) | Fixed64Payload(raw: Bytes) | BytesPayload(bytes: Bytes) | Fixed32Payload(raw: Bytes)
  datatype WireField = WireField(number: nat, payload: Payload)
  datatype Key = Key(field: nat, wireType: nat)

  function ReadKeyAt(b: Bytes, pos: nat): (r: Option<Parsed<Key>>)
    ensures r.Some? ==> pos < r.value.next <= |b|
  {
    var key := SafeVarint(b, pos);
    if key.None? || key.value.value / 8 < 1 || key.value.value / 8 > MAX_FIELD then None
    else Some(Parsed(Key(key.value.value / 8, key.value.value % 8), key.value.next))
  }

  function ReadPayloadAt(b: Bytes, pos: nat, wireType: nat): (r: Option<Parsed<Payload>>)
    ensures r.Some? ==> pos <= r.value.next <= |b|
  {
    if wireType == 0 then
      var v := RawVarint(b, pos, 0);
      if v.None? then None else Some(Parsed(VarintPayload(v.value.value), v.value.next))
    else if wireType == 1 then
      if pos + 8 <= |b| then Some(Parsed(Fixed64Payload(b[pos..pos + 8]), pos + 8)) else None
    else if wireType == 2 then
      var length := SafeVarint(b, pos);
      if length.None? || length.value.next + length.value.value > |b| then None
      else
        var end := length.value.next + length.value.value;
        Some(Parsed(BytesPayload(b[length.value.next..end]), end))
    else if wireType == 5 then
      if pos + 4 <= |b| then Some(Parsed(Fixed32Payload(b[pos..pos + 4]), pos + 4)) else None
    else None
  }

  function ReadFieldAt(b: Bytes, pos: nat): (r: Option<Parsed<WireField>>)
    ensures r.Some? ==> pos < r.value.next <= |b|
  {
    var key := ReadKeyAt(b, pos);
    if key.None? then None
    else
      var payload := ReadPayloadAt(b, key.value.next, key.value.value.wireType);
      if payload.None? then None
      else Some(Parsed(WireField(key.value.value.field, payload.value.value), payload.value.next))
  }

  /** All fields from `pos` to the end of the buffer, or nothing if any byte of them is malformed. */
  function ReadFieldsAt(b: Bytes, pos: nat): Option<seq<WireField>>
    decreases |b| - pos
  {
    if pos >= |b| then Some([])
    else
      var field := ReadFieldAt(b, pos);
      if field.None? then None
      else
        var rest := ReadFieldsAt(b, field.value.next);
        if rest.None? then None else Some([field.value.value] + rest.value)
  }

  /** A message as a left-to-right fold over its fields that may reject any of them. */
  function FoldFields<A>(fields: seq<WireField>, update: (WireField, A) -> Option<A>, acc: A): Option<A> {
    if fields == [] then Some(acc)
    else
      var next := update(fields[0], acc);
      if next.None? then None else FoldFields(fields[1..], update, next.value)
  }

  function ReadMessageAt<A>(b: Bytes, pos: nat, update: (WireField, A) -> Option<A>, acc: A): Option<A> {
    var fields := ReadFieldsAt(b, pos);
    if fields.None? then None else FoldFields(fields.value, update, acc)
  }

  /** What remains of a message after its next field. */
  function AfterField<A>(b: Bytes, field: Option<Parsed<WireField>>, update: (WireField, A) -> Option<A>,
      acc: A): Option<A> {
    if field.None? then None
    else
      var next := update(field.value.value, acc);
      if next.None? then None else ReadMessageAt(b, field.value.next, update, next.value)
  }

  /** One round of any message loop. */
  lemma ReadMessageStep<A>(b: Bytes, pos: nat, update: (WireField, A) -> Option<A>, acc: A)
    requires pos < |b|
    ensures ReadMessageAt(b, pos, update, acc) == AfterField(b, ReadFieldAt(b, pos), update, acc)
  {
    var field := ReadFieldAt(b, pos);
    if field.Some? {
      var rest := ReadFieldsAt(b, field.value.next);
      if rest.Some? {
        assert ([field.value.value] + rest.value)[1..] == rest.value;
      }
    }
  }

  // ---------- Encoding fields ----------

  predicate Encodable(f: WireField) {
    && 1 <= f.number <= MAX_FIELD
    && match f.payload
       case VarintPayload(v) => v < TWO_TO_64
       case Fixed64Payload(raw) => |raw| == 8
       case BytesPayload(bytes) => |bytes| <= MAX_SAFE_INTEGER
       case Fixed32Payload(raw) => |raw| == 4
  }

  function WireType(p: Payload): (w: nat)
    ensures w < 8
  {
    match p case VarintPayload(_) => 0 case Fixed64Payload(_) => 1 case BytesPayload(_) => 2 case Fixed32Payload(_) => 5
  }

  function EncodePayload(p: Payload): Bytes {
    match p
    case VarintPayload(v) => EncodeVarint(v)
    case Fixed64Payload(raw) => raw
    case BytesPayload(bytes) => EncodeVarint(|bytes|) + bytes
    case Fixed32Payload(raw) => raw
  }

  function EncodeKey(f: WireField): (s: Bytes)
    ensures |s| > 0
  {
    EncodeVarint(f.number * 8 + WireType(f.payload))
  }

  function EncodeField(f: WireField): (s: Bytes)
    ensures |s| > 0
  {
    EncodeKey(f) + EncodePayload(f.payload)
  }

  function EncodeFields(fields: seq<WireField>): Bytes {
    if fields == [] then [] else EncodeField(fields[0]) + EncodeFields(fields[1..])
  }

  lemma BytesRoundTrip(b: Bytes, pos: nat, bytes: Bytes)
    requires |bytes| <= MAX_SAFE_INTEGER && At(b, pos, EncodeVarint(|bytes|) + bytes)
    ensures ReadPayloadAt(b, pos, 2) == Some(Parsed(BytesPayload(bytes), pos + |EncodeVarint(|bytes|)| + |bytes|))
  {
    hide EncodeVarint, RawVarint, SafeVarint;
    var length := EncodeVarint(|bytes|);
    AtSplit(b, pos, length, bytes);
    VarintRoundTrip(b, pos, |bytes|);
  }

  lemma PayloadRoundTrip(b: Bytes, pos: nat, f: WireField)
    requires Encodable(f) && At(b, pos, EncodePayload(f.payload))
    ensures ReadPayloadAt(b, pos, WireType(f.payload)) == Some(Parsed(f.payload, pos + |EncodePayload(f.payload)|))
  {
    match f.payload {
      case VarintPayload(v) => VarintRoundTrip(b, pos, v);
      case BytesPayload(bytes) => BytesRoundTrip(b, pos, bytes);
      case _ =>
    }
  }

  lemma KeyParts(number: nat, wireType: nat)
    requires wireType < 8
    ensures (number * 8 + wireType) / 8 == number && (number * 8 + wireType) % 8 == wireType
  {
  }

  lemma KeyRoundTrip(b: Bytes, pos: nat, f: WireField)
    requires Encodable(f) && At(b, pos, EncodeKey(f))
    ensures ReadKeyAt(b, pos) == Some(Parsed(Key(f.number, WireType(f.payload)), pos + |EncodeKey(f)|))
  {
    hide EncodeVarint, RawVarint, SafeVarint;
    KeyParts(f.number, WireType(f.payload));
    VarintRoundTrip(b, pos, f.number * 8 + WireType(f.payload));
  }

  lemma FieldRoundTrip(b: Bytes, pos: nat, f: WireField)
    requires Encodable(f) && At(b, pos, EncodeField(f))
    ensures ReadFieldAt(b, pos) == Some(Parsed(f, pos + |EncodeField(f)|))
  {
    hide EncodeKey, EncodePayload, ReadKeyAt, ReadPayloadAt, At;
    AtSplit(b, pos, EncodeKey(f), EncodePayload(f.payload));
    KeyRoundTrip(b, pos, f);
    PayloadRoundTrip(b, pos + |EncodeKey(f)|, f);
  }

  lemma {:induction false} FieldsRoundTripAt(b: Bytes, pos: nat, fields: seq<WireField>)
    requires forall f :: f in fields ==> Encodable(f)
    requires At(b, pos, EncodeFields(fields)) && pos + |EncodeFields(fields)| == |b|
    ensures ReadFieldsAt(b, pos) == Some(fields)
    decreases |fields|
  {
    hide EncodeField, ReadFieldAt, Encodable, At;
    if fields != [] {
      AtSplit(b, pos, EncodeField(fields[0]), EncodeFields(fields[1..]));
      FieldRoundTrip(b, pos, fields[0]);
      FieldsRoundTripAt(b, pos + |EncodeField(fields[0])|, fields[1..]);
      assert fields == [fields[0]] + fields[1..];
    }
  }

  /** Reading what was written gives back exactly the fields, in order. */
  lemma FieldsRoundTrip(fields: seq<WireField>)
    requires forall f :: f in fields ==> Encodable(f)
    ensures ReadFieldsAt(EncodeFields(fields), 0) == Some(fields)
  {
    var b := EncodeFields(fields);
    assert b[0..0 + |b|] == b;
    FieldsRoundTripAt(b, 0, fields);
  }

  // ---------- The imperative readers ----------

  class Cursor {
    var offset: nat
    const end: nat

    constructor (end: nat)
      ensures this.offset == 0 && this.end == end
    {
      offset := 0;
      this.end := end;
    }
  }

  /** A buffer's length is a safe integer, as every typed array's is. */
  predicate InBounds(buffer: Bytes, cursor: Cursor)
    reads cursor
  {
    cursor.offset <= cursor.end == |buffer| <= MAX_SAFE_INTEGER
  }

  /** What a reader promises: it succeeds exactly when the value is there, and then stands behind it. */
  ghost predicate Read<T>(cursor: Cursor, buffer: Bytes, r: Result<T, string>, parsed: Option<Parsed<T>>)
    reads cursor
  {
    && (r.Ok? <==> parsed.Some?)
    && (r.Ok? ==> InBounds(buffer, cursor) && parsed.value == Parsed(r.value, cursor.offset))
  }

  /** `v` moved up by `index` groups of seven bits. */
  function Shifted(v: nat, index: nat): nat {
    if index == 0 then v else 128 * Shifted(v, index - 1)
  }

  lemma {:induction false} ShiftedAdds(low: nat, v: nat, index: nat)
    ensures Shifted(low + 128 * v, index) == Shifted(low, index) + Shifted(v, index + 1)
  {
    if index > 0 {
      ShiftedAdds(low, v, index - 1);
    }
  }

  lemma {:induction false} ShiftedIsProduct(low: nat, index: nat)
    ensures low * Shifted(1, index) == Shifted(low, index)
  {
    if index > 0 {
      ShiftedIsProduct(low, index - 1);
      var unit := Shifted(1, index - 1);
      assert low * (128 * unit) == 128 * (low * unit);
    }
  }

  /**
   The state of a varint scan that took `index` bytes: either the bytes still to come complete the
   value, or the terminator was seen on a value too large to be safe.
   */
  ghost predicate Scanning(whole: Option<Parsed<nat>>, rest: Option<Parsed<nat>>, value: nat, index: nat,
      terminated: bool) {
    if terminated then value > MAX_SAFE_INTEGER && whole.Some? && whole.value.value > MAX_SAFE_INTEGER
    else
      && (whole.Some? <==> rest.Some?)
      && (whole.Some? ==> whole.value == Parsed(value + Shifted(rest.value.value, index), rest.value.next))
  }

  lemma ScanByte(whole: Option<Parsed<nat>>, b: Bytes, pos: nat, value: nat, index: nat, terminated: bool)
    requires index < 10 && pos < |b| && !(index == 9 && b[pos] > 1)
    requires Scanning(whole, RawVarint(b, pos, index), value, index, terminated)
    ensures var next := value + Shifted(b[pos] % 128, index);
      if b[pos] < 128 && next <= MAX_SAFE_INTEGER then whole == Some(Parsed(next, pos + 1))
      else Scanning(whole, RawVarint(b, pos + 1, index + 1), next, index + 1, terminated || b[pos] < 128)
  {
    var rest := RawVarint(b, pos + 1, index + 1);
    if b[pos] >= 128 && rest.Some? {
      ShiftedAdds(b[pos] % 128, rest.value.value, index);
    }
  }

  /** The low seven bits of a byte times the current multiplier. */
  method Group(byte: Byte, multiplier: nat, ghost index: nat) returns (group: nat)
    requires multiplier == Shifted(1, index)
    ensures group == Shifted(byte % 128, index)
  {
    group := byte % 128 * multiplier;
    ShiftedIsProduct(byte % 128, index);
  }

  /** Ten bytes at most; a terminated but unsafe value keeps the loop reading until it fails. */
  method ReadVarint(buffer: Bytes, cursor: Cursor) returns (r: Result<nat, string>)
    requires InBounds(buffer, cursor)
    modifies cursor
    ensures Read(cursor, buffer, r, SafeVarint(buffer, old(cursor.offset)))
  {
    var value: nat, multiplier: nat := 0, 1;
    var index := 0;
    ghost var whole, terminated := RawVarint(buffer, cursor.offset, 0), false;
    while index < 10 && cursor.offset < cursor.end
      invariant 0 <= index <= 10 && InBounds(buffer, cursor)
      invariant multiplier == Shifted(1, index)
      invariant Scanning(whole, RawVarint(buffer, cursor.offset, index), value, index, terminated)
      decreases 10 - index
    {
      var byte := buffer[cursor.offset];
      if index == 9 && byte > 1 {
        cursor.offset := cursor.offset + 1;
        return Err("overflowing protobuf varint");
      }
      ScanByte(whole, buffer, cursor.offset, value, index, terminated);
      cursor.offset := cursor.offset + 1;
      var group := Group(byte, multiplier, index);
      value := value + group;
      if byte < 128 && value <= MAX_SAFE_INTEGER {
        return Ok(value);
      }
      terminated := terminated || byte < 128;
      multiplier := multiplier * 128;
      index := index + 1;
    }
    r := Err("invalid protobuf varint");
  }

  method SkipVarint(buffer: Bytes, cursor: Cursor) returns (r: Result<(), string>)
    requires InBounds(buffer, cursor)
    modifies cursor
    ensures r.Ok? <==> RawVarint(buffer, old(cursor.offset), 0).Some?
    ensures r.Ok? ==> InBounds(buffer, cursor) && cursor.offset == RawVarint(buffer, old(cursor.offset), 0).value.next
  {
    var index := 0;
    ghost var whole := RawVarint(buffer, cursor.offset, 0);
    while index < 10 && cursor.offset < cursor.end
      invariant 0 <= index <= 10 && InBounds(buffer, cursor)
      invariant whole.Some? <==> RawVarint(buffer, cursor.offset, index).Some?
      invariant whole.Some? ==> whole.value.next == RawVarint(buffer, cursor.offset, index).value.next
      decreases 10 - index
    {
      var byte := buffer[cursor.offset];
      cursor.offset := cursor.offset + 1;
      if index == 9 && byte > 1 {
        return Err("overflowing protobuf varint field");
      }
      if byte < 128 {
        return Ok(());
      }
      index := index + 1;
    }
    r := Err("invalid protobuf varint field");
  }

  method ReadBytes(buffer: Bytes, cursor: Cursor) returns (r: Result<Bytes, string>)
    requires InBounds(buffer, cursor)
    modifies cursor
    ensures r.Ok? <==> ReadPayloadAt(buffer, old(cursor.offset), 2).Some?
    ensures r.Ok? ==> InBounds(buffer, cursor) && |r.value| <= |buffer|
    ensures r.Ok? ==> ReadPayloadAt(buffer, old(cursor.offset), 2) == Some(Parsed(BytesPayload(r.value), cursor.offset))
  {
    var length :- ReadVarint(buffer, cursor);
    var end := cursor.offset + length;
    if end > MAX_SAFE_INTEGER || end > cursor.end {
      return Err("invalid protobuf byte field");
    }
    var value := buffer[cursor.offset..end];
    cursor.offset := end;
    r := Ok(value);
  }

  method ReadKey(buffer: Bytes, cursor: Cursor) returns (r: Result<Key, string>)
    requires InBounds(buffer, cursor)
    modifies cursor
    ensures Read(cursor, buffer, r, ReadKeyAt(buffer, old(cursor.offset)))
  {
    var key :- ReadVarint(buffer, cursor);
    var field, wireType := key / 8, key % 8;
    if field < 1 || field > MAX_FIELD {
      return Err("invalid protobuf field number");
    }
    r := Ok(Key(field, wireType));
  }

  /** Step over a field of any supported wire type; on success the cursor is still inside the buffer. */
  method SkipField(buffer: Bytes, cursor: Cursor, wireType: nat) returns (r: Result<(), string>)
    requires InBounds(buffer, cursor)
    modifies cursor
    ensures r.Ok? <==> ReadPayloadAt(buffer, old(cursor.offset), wireType).Some?
    ensures r.Ok? ==>
      InBounds(buffer, cursor) && cursor.offset == ReadPayloadAt(buffer, old(cursor.offset), wireType).value.next
  {
    if wireType == 0 {
      r := SkipVarint(buffer, cursor);
      return;
    }
    if wireType == 1 {
      cursor.offset := cursor.offset + 8;
    } else if wireType == 2 {
      var skipped :- ReadBytes(buffer, cursor);
    } else if wireType == 5 {
      cursor.offset := cursor.offset + 4;
    } else {
      return Err("unsupported protobuf wire type");
    }
    r := if cursor.offset > cursor.end then Err("truncated protobuf field") else Ok(());
  }

  /** `requireWireType(2)` followed by a length-delimited read. */
  method ReadDelimited(buffer: Bytes, cursor: Cursor, wireType: nat) returns (r: Result<Bytes, string>)
    requires InBounds(buffer, cursor)
    modifies cursor
    ensures r.Ok? <==> wireType == 2 && ReadPayloadAt(buffer, old(cursor.offset), 2).Some?
    ensures r.Ok? ==> InBounds(buffer, cursor) && |r.value| <= |buffer|
    ensures r.Ok? ==> ReadPayloadAt(buffer, old(cursor.offset), 2) == Some(Parsed(BytesPayload(r.value), cursor.offset))
  {
    if wireType != 2 {
      return Err("invalid protobuf wire type for known field");
    }
    r := ReadBytes(buffer, cursor);
  }
}
