/**
  The protobuf wire codec and the gRPC-web framing of xconsole_client/grpcweb.py.

  Python's shifts and masks are written as arithmetic: `value & 0x7F` is `value % 128`,
  `byte | 0x80` is `byte + 128` for a byte below 128, and `x << k` is `x * Pow2(k)`.
*/
module GrpcWeb {
  import opened Common

  type byte = x: int | 0 <= x < 256
  type Bytes = seq<byte>

  const WT_VARINT := 0
  const WT_FIXED64 := 1
  const WT_LEN := 2
  const WT_FIXED32 := 5
  const UINT32_LIMIT := 0x1_0000_0000

  datatype CodecError =
    | NegativeVarint
    | Truncated
    | UnsupportedWireType(wireType: nat)
    | MessageTooLong
    | BadGrpcStatus

  /** The library operations on text that the codec calls. */
  datatype TextCodec = TextCodec(
    encode: string -> Bytes,            // str.encode("utf-8")
    decode: Bytes -> Option<string>,    // bytes.decode("utf-8"), None when it raises
    lenient: Bytes -> string,           // bytes.decode("utf-8", "replace")
    printable: string -> bool,          // str.isprintable
    strip: string -> string,
    lower: string -> string,
    toInt: string -> Option<int>)       // int(...), None when it raises
  {
    /** UTF-8 decoding inverts UTF-8 encoding, in both error modes. */
    ghost predicate Lossless() {
      forall s: string :: decode(encode(s)) == Some(s) && lenient(encode(s)) == s
    }
  }

  // ---------------------------------------------------------------- varints

  function Varint(v: nat): (r: Bytes)
    ensures |r| >= 1
  {
    if v < 128 then [v] else [v % 128 + 128] + Varint(v / 128)
  }

  method EncodeVarint(value: int) returns (r: Result<Bytes, CodecError>)
    ensures r == if value < 0 then Err(NegativeVarint) else Ok(Varint(value))
  {
    if value < 0 {
      return Err(NegativeVarint);
    }
    var out: Bytes, rest := [], value;
    while true
      invariant rest >= 0
      invariant out + Varint(rest) == Varint(value)
      decreases rest
    {
      var low := rest % 128;
      if rest / 128 != 0 {
        out := out + [low + 128];
        rest := rest / 128;
      } else {
        return Ok(out + [low]);
      }
    }
  }

  /** Reading at `i` gives the value and the position just after it. */
  function ReadVarint(data: Bytes, i: nat): (r: Result<(nat, nat), CodecError>)
    ensures r.Ok? ==> i < r.value.1 <= |data|
    decreases |data| - i
  {
    if i >= |data| then Err(Truncated)
    else if data[i] < 128 then Ok((data[i], i + 1))
    else
      match ReadVarint(data, i + 1)
      case Err(e) => Err(e)
      case Ok(p) => Ok((data[i] % 128 + 128 * p.0, p.1))
  }

  function Pow2(n: nat): (p: nat)
    ensures p > 0
  {
    if n == 0 then 1 else 2 * Pow2(n - 1)
  }

  lemma Pow2Add7(n: nat)
    ensures Pow2(n + 7) == 128 * Pow2(n)
  {
    assert Pow2(n + 7) == 2 * Pow2(n + 6) == 4 * Pow2(n + 5) == 8 * Pow2(n + 4);
    assert Pow2(n + 4) == 2 * Pow2(n + 3) == 4 * Pow2(n + 2) == 8 * Pow2(n + 1);
  }

  /** The reading at `i`, given what the bytes before it contributed. */
  function Accumulate(low: nat, scale: nat, tail: Result<(nat, nat), CodecError>): Result<(nat, nat), CodecError> {
    match tail
    case Err(e) => Err(e)
    case Ok(p) => Ok((low + scale * p.0, p.1))
  }

  lemma AccumulateDigit(data: Bytes, i: nat, low: nat, scale: nat)
    requires i < |data| && data[i] >= 128
    ensures Accumulate(low, scale, ReadVarint(data, i)) ==
            Accumulate(low + data[i] % 128 * scale, 128 * scale, ReadVarint(data, i + 1))
  {
    var digit: nat := data[i] % 128;
    if ReadVarint(data, i + 1).Ok? {
      var rest := ReadVarint(data, i + 1).value.0;
      assert scale * (digit + 128 * rest) == digit * scale + 128 * scale * rest;
    }
  }

  method ScanVarint(data: Bytes, start: nat) returns (r: Result<(nat, nat), CodecError>)
    ensures r == ReadVarint(data, start)
  {
    var result: nat, shift: nat, i: nat := 0, 0, start;
    while true
      invariant Accumulate(result, Pow2(shift), ReadVarint(data, i)) == ReadVarint(data, start)
      decreases |data| - i
    {
      if i >= |data| {
        return Err(Truncated);
      }
      var b: nat := data[i];
      if b < 128 {
        return Ok((result + b * Pow2(shift), i + 1));
      }
      AccumulateDigit(data, i, result, Pow2(shift));
      Pow2Add7(shift);
      result := result + b % 128 * Pow2(shift);
      shift := shift + 7;
      i := i + 1;
    }
  }

  lemma AtTail(data: Bytes, i: nat, w: Bytes)
    requires At(data, i, w) && w != []
    ensures At(data, i + 1, w[1..])
  {
    forall k | 0 <= k < |w| - 1 ensures data[i + 1 + k] == w[1..][k] {
      assert data[i + (k + 1)] == w[k + 1];
    }
  }

  /** Round trip inside any surrounding bytes. */
  lemma {:induction false} VarintRoundTrip(data: Bytes, i: nat, v: nat)
    requires At(data, i, Varint(v))
    ensures ReadVarint(data, i) == Ok((v, i + |Varint(v)|))
    decreases v
  {
    assert data[i] == Varint(v)[0];
    if v >= 128 {
      AtTail(data, i, Varint(v));
      VarintRoundTrip(data, i + 1, v / 128);
    }
  }

  /** Reading succeeds exactly when some byte ends the number. */
  lemma {:induction false} VarintReadable(data: Bytes, i: nat)
    ensures ReadVarint(data, i).Ok? <==> exists j :: i <= j < |data| && data[j] < 128
    ensures ReadVarint(data, i).Err? ==> ReadVarint(data, i) == Err(Truncated)
    decreases |data| - i
  {
    if i < |data| && data[i] >= 128 {
      VarintReadable(data, i + 1);
      if j :| i <= j < |data| && data[j] < 128 {
        assert i + 1 <= j;
      }
    }
  }

  /** Seven bits a byte, lowest first, whether or not the encoding is minimal. */
  lemma VarintDigits(data: Bytes, i: nat)
    requires ReadVarint(data, i).Ok?
    ensures var (v, j) := ReadVarint(data, i).value;
            if data[i] < 128 then v == data[i] && j == i + 1
            else
              && v % 128 == data[i] - 128 && ReadVarint(data, i + 1).Ok?
              && ReadVarint(data, i + 1).value == (v / 128, j)
  {
    if data[i] >= 128 {
      HighDigits(data[i], ReadVarint(data, i + 1).value.0);
    }
  }

  lemma HighDigits(b: byte, high: nat)
    requires b >= 128
    ensures (b % 128 + 128 * high) / 128 == high && (b % 128 + 128 * high) % 128 == b - 128
  {
  }

  /** A continued byte in front of a reading that is already minimal. */
  lemma MinimalThen(b: byte, high: nat, tail: Bytes)
    requires b >= 128 && |Varint(high)| <= |tail| && (|Varint(high)| == |tail| ==> tail == Varint(high))
    ensures var w := Varint(b % 128 + 128 * high);
            |w| <= 1 + |tail| && (|w| == 1 + |tail| ==> [b] + tail == w)
  {
    HighDigits(b, high);
    if high > 0 {
      assert Varint(b % 128 + 128 * high) == [b] + Varint(high);
    } else {
      assert |Varint(0)| == 1;
    }
  }

  /** Nothing shorter reads as `v`, and nothing else of the same length does. */
  lemma {:induction false} VarintMinimal(data: Bytes, i: nat)
    requires ReadVarint(data, i).Ok?
    ensures var (v, j) := ReadVarint(data, i).value;
            && |Varint(v)| <= j - i
            && (|Varint(v)| == j - i ==> data[i..j] == Varint(v))
    decreases |data| - i
  {
    if data[i] >= 128 {
      VarintMinimal(data, i + 1);
      var (high, j) := ReadVarint(data, i + 1).value;
      MinimalThen(data[i], high, data[i + 1..j]);
      assert data[i..j] == [data[i]] + data[i + 1..j];
    }
  }

  // ---------------------------------------------------------------- messages

  /** What one call of an encoder writes. */
  datatype Part =
    | Text(field: int, text: string)     // encode_string
    | Raw(field: int, raw: Bytes)        // encode_bytes
    | Number(field: int, value: int)     // encode_varint_field

  predicate Encodable(part: Part) {
    part.field >= 0 && (part.Number? ==> part.value >= 0)
  }

  predicate AllEncodable(parts: seq<Part>) {
    forall k :: 0 <= k < |parts| ==> Encodable(parts[k])
  }

  function LengthDelimited(field: nat, raw: Bytes): Bytes {
    Varint(field * 8 + WT_LEN) + Varint(|raw|) + raw
  }

  function PartBytes(codec: TextCodec, part: Part): Bytes
    requires Encodable(part)
  {
    match part
    case Text(field, text) => LengthDelimited(field, codec.encode(text))
    case Raw(field, raw) => LengthDelimited(field, raw)
    case Number(field, value) => Varint(field * 8 + WT_VARINT) + Varint(value)
  }

  function MessageBytes(codec: TextCodec, parts: seq<Part>): Bytes
    requires AllEncodable(parts)
  {
    if parts == [] then [] else PartBytes(codec, parts[0]) + MessageBytes(codec, parts[1..])
  }

  method EncodeTag(field: int, wireType: nat) returns (r: Result<Bytes, CodecError>)
    requires wireType < 8
    ensures r == if field < 0 then Err(NegativeVarint) else Ok(Varint(field * 8 + wireType))
  {
    r := EncodeVarint(field * 8 + wireType);
  }

  method EncodeBytes(field: int, raw: Bytes) returns (r: Result<Bytes, CodecError>)
    ensures r == if field < 0 then Err(NegativeVarint) else Ok(LengthDelimited(field, raw))
  {
    var tag := EncodeTag(field, WT_LEN);
    var length := EncodeVarint(|raw|);
    if tag.Err? {
      return tag;
    }
    r := Ok(tag.value + length.value + raw);
  }

  method EncodeString(codec: TextCodec, field: int, text: string) returns (r: Result<Bytes, CodecError>)
    ensures r == if field < 0 then Err(NegativeVarint) else Ok(PartBytes(codec, Text(field, text)))
  {
    r := EncodeBytes(field, codec.encode(text));
  }

  /** The fields of `encode_message` are all strings. */
  function TextParts(fields: seq<(int, string)>): (parts: seq<Part>)
    ensures |parts| == |fields|
    ensures forall k :: 0 <= k < |fields| ==> parts[k] == Text(fields[k].0, fields[k].1)
  {
    seq(|fields|, k requires 0 <= k < |fields| => Text(fields[k].0, fields[k].1))
  }

  lemma MessageBytesAppend(codec: TextCodec, parts: seq<Part>, last: Part)
    requires AllEncodable(parts) && Encodable(last)
    ensures MessageBytes(codec, parts + [last]) == MessageBytes(codec, parts) + PartBytes(codec, last)
  {
    if parts == [] {
      assert [last][1..] == [];
    } else {
      assert (parts + [last])[1..] == parts[1..] + [last];
      MessageBytesAppend(codec, parts[1..], last);
    }
  }

  method EncodeMessage(codec: TextCodec, fields: seq<(int, string)>) returns (r: Result<Bytes, CodecError>)
    ensures r.Ok? <==> forall k :: 0 <= k < |fields| ==> fields[k].0 >= 0
    ensures r.Ok? ==> AllEncodable(TextParts(fields)) && r.value == MessageBytes(codec, TextParts(fields))
  {
    var out: Bytes := [];
    ghost var parts := TextParts(fields);
    for k := 0 to |fields|
      invariant AllEncodable(parts[..k])
      invariant out == MessageBytes(codec, parts[..k])
    {
      var chunk := EncodeString(codec, fields[k].0, fields[k].1);
      if chunk.Err? {
        return Err(chunk.error);
      }
      assert parts[..k + 1] == parts[..k] + [parts[k]];
      MessageBytesAppend(codec, parts[..k], parts[k]);
      out := out + chunk.value;
    }
    assert parts[..|fields|] == parts;
    r := Ok(out);
  }

  datatype Field =
    | VarintField(field: nat, value: nat)
    | Fixed64Field(field: nat, chunk: Bytes)
    | StringField(field: nat, text: string)
    | BytesField(field: nat, chunk: Bytes, length: nat)
    | Fixed32Field(field: nat, chunk: Bytes)

  /** Python's `data[i:i + n]`, which stops at the end of the data. */
  function Slice(data: Bytes, i: nat, n: nat): (s: Bytes)
    ensures |s| <= n
    ensures i + n <= |data| ==> s == data[i..i + n]
  {
    if i >= |data| then []
    else if i + n <= |data| then data[i..i + n]
    else data[i..]
  }

  /** A length-delimited chunk is shown as text when it is printable UTF-8. */
  function ChunkField(codec: TextCodec, field: nat, chunk: Bytes, length: nat): Field {
    match codec.decode(chunk)
    case Some(s) => if codec.printable(s) then StringField(field, s) else BytesField(field, chunk, length)
    case None => BytesField(field, chunk, length)
  }

  function DecodeField(codec: TextCodec, data: Bytes, i: nat): (r: Result<(Field, nat), CodecError>)
    ensures r.Ok? ==> r.value.1 > i
  {
    match ReadVarint(data, i)
    case Err(e) => Err(e)
    case Ok((tag, j)) =>
      var field, wireType := tag / 8, tag % 8;
      if wireType == WT_VARINT then
        match ReadVarint(data, j)
        case Err(e) => Err(e)
        case Ok((value, k)) => Ok((VarintField(field, value), k))
      else if wireType == WT_FIXED64 then
        Ok((Fixed64Field(field, Slice(data, j, 8)), j + 8))
      else if wireType == WT_LEN then
        match ReadVarint(data, j)
        case Err(e) => Err(e)
        case Ok((length, k)) => Ok((ChunkField(codec, field, Slice(data, k, length), length), k + length))
      else if wireType == WT_FIXED32 then
        Ok((Fixed32Field(field, Slice(data, j, 4)), j + 4))
      else
        Err(UnsupportedWireType(wireType))
  }

  function Prepend<T>(first: seq<T>, rest: Result<seq<T>, CodecError>): Result<seq<T>, CodecError> {
    match rest
    case Err(e) => Err(e)
    case Ok(xs) => Ok(first + xs)
  }

  function DecodeFrom(codec: TextCodec, data: Bytes, i: nat): Result<seq<Field>, CodecError>
    decreases |data| - i
  {
    if i >= |data| then Ok([])
    else
      match DecodeField(codec, data, i)
      case Err(e) => Err(e)
      case Ok((f, j)) => Prepend([f], DecodeFrom(codec, data, j))
  }

  method ScanField(codec: TextCodec, data: Bytes, start: nat) returns (r: Result<(Field, nat), CodecError>)
    ensures r == DecodeField(codec, data, start)
  {
    var tag := ScanVarint(data, start);
    if tag.Err? {
      return Err(tag.error);
    }
    var i := tag.value.1;
    var field, wireType := tag.value.0 / 8, tag.value.0 % 8;
    if wireType == WT_VARINT {
      var value := ScanVarint(data, i);
      if value.Err? {
        return Err(value.error);
      }
      return Ok((VarintField(field, value.value.0), value.value.1));
    } else if wireType == WT_FIXED64 {
      return Ok((Fixed64Field(field, Slice(data, i, 8)), i + 8));
    } else if wireType == WT_LEN {
      var length := ScanVarint(data, i);
      if length.Err? {
        return Err(length.error);
      }
      var chunk := Slice(data, length.value.1, length.value.0);
      return Ok((ChunkField(codec, field, chunk, length.value.0), length.value.1 + length.value.0));
    } else if wireType == WT_FIXED32 {
      return Ok((Fixed32Field(field, Slice(data, i, 4)), i + 4));
    }
    r := Err(UnsupportedWireType(wireType));
  }

  method DecodeMessage(codec: TextCodec, data: Bytes) returns (r: Result<seq<Field>, CodecError>)
    ensures r == DecodeFrom(codec, data, 0)
  {
    var fields: seq<Field>, i: nat := [], 0;
    PrependNothing(DecodeFrom(codec, data, 0));
    while i < |data|
      invariant Prepend(fields, DecodeFrom(codec, data, i)) == DecodeFrom(codec, data, 0)
      decreases |data| - i
    {
      var next := ScanField(codec, data, i);
      if next.Err? {
        return Err(next.error);
      }
      PrependTwice(fields, [next.value.0], DecodeFrom(codec, data, next.value.1));
      fields, i := fields + [next.value.0], next.value.1;
    }
    assert fields + [] == fields;
    r := Ok(fields);
  }

  lemma PrependNothing<T>(r: Result<seq<T>, CodecError>)
    ensures Prepend([], r) == r
  {
    if r.Ok? {
      assert [] + r.value == r.value;
    }
  }

  lemma PrependTwice<T>(a: seq<T>, b: seq<T>, rest: Result<seq<T>, CodecError>)
    ensures Prepend(a, Prepend(b, rest)) == Prepend(a + b, rest)
  {
    if rest.Ok? {
      assert a + (b + rest.value) == a + b + rest.value;
    }
  }

  /** The bytes are printable text, and as such this text. */
  predicate Shows(codec: TextCodec, raw: Bytes, text: string) {
    codec.decode(raw) == Some(text) && codec.printable(text)
  }

  /** How a chunk is to be shown: printable text as a string, other bytes as they are. */
  function ShownAs(codec: TextCodec, field: nat, raw: Bytes, length: nat): Field {
    if codec.decode(raw).Some? && Shows(codec, raw, codec.decode(raw).value)
    then StringField(field, codec.decode(raw).value)
    else BytesField(field, raw, length)
  }

  lemma ChunkShown(codec: TextCodec, field: nat, raw: Bytes, length: nat)
    ensures ChunkField(codec, field, raw, length) == ShownAs(codec, field, raw, length)
  {
  }

  /** How a written part is to be read back. */
  function PartField(codec: TextCodec, part: Part): Field
    requires Encodable(part)
  {
    match part
    case Text(field, text) => ShownAs(codec, field, codec.encode(text), |codec.encode(text)|)
    case Raw(field, raw) => ShownAs(codec, field, raw, |raw|)
    case Number(field, value) => VarintField(field, value)
  }

  function PartFields(codec: TextCodec, parts: seq<Part>): (fields: seq<Field>)
    requires AllEncodable(parts)
    ensures |fields| == |parts|
    ensures forall k :: 0 <= k < |parts| ==> fields[k] == PartField(codec, parts[k])
  {
    if parts == [] then [] else [PartField(codec, parts[0])] + PartFields(codec, parts[1..])
  }

  /** `w` stands at position `i` of the data. */
  predicate At(data: Bytes, i: nat, w: Bytes) {
    i + |w| <= |data| && forall k :: 0 <= k < |w| ==> data[i + k] == w[k]
  }

  lemma AtSplit(data: Bytes, i: nat, a: Bytes, b: Bytes)
    requires At(data, i, a + b)
    ensures At(data, i, a) && At(data, i + |a|, b)
  {
    forall k | 0 <= k < |b| ensures data[i + |a| + k] == b[k] {
      assert (a + b)[|a| + k] == b[k];
    }
    forall k | 0 <= k < |a| ensures data[i + k] == a[k] {
      assert (a + b)[k] == a[k];
    }
  }

  lemma AtSlice(data: Bytes, i: nat, w: Bytes)
    requires At(data, i, w)
    ensures Slice(data, i, |w|) == w
  {
    assert data[i..i + |w|] == w;
  }

  lemma LengthDelimitedReads(codec: TextCodec, data: Bytes, i: nat, j: nat, k: nat, field: nat, raw: Bytes)
    requires ReadVarint(data, i) == Ok((field * 8 + WT_LEN, j))
    requires ReadVarint(data, j) == Ok((|raw|, k))
    requires At(data, k, raw)
    ensures DecodeField(codec, data, i) == Ok((ShownAs(codec, field, raw, |raw|), k + |raw|))
  {
    assert (field * 8 + WT_LEN) / 8 == field && (field * 8 + WT_LEN) % 8 == WT_LEN;
    AtSlice(data, k, raw);
    ChunkShown(codec, field, raw, |raw|);
  }

  lemma LengthDelimitedReadBack(codec: TextCodec, data: Bytes, i: nat, field: nat, raw: Bytes)
    requires At(data, i, LengthDelimited(field, raw))
    ensures DecodeField(codec, data, i) ==
            Ok((ShownAs(codec, field, raw, |raw|), i + |LengthDelimited(field, raw)|))
  {
    var tag, length := Varint(field * 8 + WT_LEN), Varint(|raw|);
    AtSplit(data, i, tag + length, raw);
    AtSplit(data, i, tag, length);
    VarintRoundTrip(data, i, field * 8 + WT_LEN);
    VarintRoundTrip(data, i + |tag|, |raw|);
    LengthDelimitedReads(codec, data, i, i + |tag|, i + |tag| + |length|, field, raw);
  }

  lemma NumberReads(codec: TextCodec, data: Bytes, i: nat, j: nat, k: nat, field: nat, value: nat)
    requires ReadVarint(data, i) == Ok((field * 8 + WT_VARINT, j))
    requires ReadVarint(data, j) == Ok((value, k))
    ensures DecodeField(codec, data, i) == Ok((VarintField(field, value), k))
  {
    assert (field * 8 + WT_VARINT) / 8 == field && (field * 8 + WT_VARINT) % 8 == WT_VARINT;
  }

  lemma NumberReadBack(codec: TextCodec, data: Bytes, i: nat, field: nat, value: nat)
    requires At(data, i, Varint(field * 8 + WT_VARINT) + Varint(value))
    ensures DecodeField(codec, data, i) ==
            Ok((VarintField(field, value), i + |Varint(field * 8 + WT_VARINT) + Varint(value)|))
  {
    var tag := Varint(field * 8 + WT_VARINT);
    AtSplit(data, i, tag, Varint(value));
    VarintRoundTrip(data, i, field * 8 + WT_VARINT);
    VarintRoundTrip(data, i + |tag|, value);
    NumberReads(codec, data, i, i + |tag|, i + |tag| + |Varint(value)|, field, value);
  }

  lemma PartReadBack(codec: TextCodec, data: Bytes, i: nat, part: Part)
    requires Encodable(part) && At(data, i, PartBytes(codec, part))
    ensures DecodeField(codec, data, i) == Ok((PartField(codec, part), i + |PartBytes(codec, part)|))
  {
    match part
    case Text(field, text) => LengthDelimitedReadBack(codec, data, i, field, codec.encode(text));
    case Raw(field, raw) => LengthDelimitedReadBack(codec, data, i, field, raw);
    case Number(field, value) => NumberReadBack(codec, data, i, field, value);
  }

  /** The fields `fs` stand one after the other in the data, from `i` to `k`. */
  predicate FieldsAt(codec: TextCodec, data: Bytes, i: nat, k: nat, fs: seq<Field>)
    decreases |fs|
  {
    if fs == [] then i == k
    else
      match DecodeField(codec, data, i)
      case Err(_) => false
      case Ok((f, j)) => f == fs[0] && FieldsAt(codec, data, j, k, fs[1..])
  }

  lemma FieldThen(codec: TextCodec, data: Bytes, i: nat, j: nat, k: nat, f: Field, fs: seq<Field>)
    requires DecodeField(codec, data, i) == Ok((f, j)) && FieldsAt(codec, data, j, k, fs)
    ensures FieldsAt(codec, data, i, k, [f] + fs)
  {
    assert ([f] + fs)[1..] == fs;
  }

  /** Such fields are what decoding yields first. */
  lemma {:induction false} FieldsDecode(codec: TextCodec, data: Bytes, i: nat, k: nat, fs: seq<Field>)
    requires FieldsAt(codec, data, i, k, fs)
    ensures DecodeFrom(codec, data, i) == Prepend(fs, DecodeFrom(codec, data, k))
    decreases |fs|
  {
    if fs == [] {
      PrependNothing(DecodeFrom(codec, data, k));
    } else {
      var j := DecodeField(codec, data, i).value.1;
      FieldsDecode(codec, data, j, k, fs[1..]);
      PrependTwice([fs[0]], fs[1..], DecodeFrom(codec, data, k));
      assert [fs[0]] + fs[1..] == fs;
    }
  }

  /** The pieces stand one after the other in the data, from `i` to `k`. */
  predicate Tiled(data: Bytes, i: nat, k: nat, pieces: seq<Bytes>)
    decreases |pieces|
  {
    if pieces == [] then i == k
    else At(data, i, pieces[0]) && Tiled(data, i + |pieces[0]|, k, pieces[1..])
  }

  lemma TiledHead(data: Bytes, i: nat, k: nat, first: Bytes, rest: seq<Bytes>)
    requires Tiled(data, i, k, [first] + rest)
    ensures At(data, i, first) && Tiled(data, i + |first|, k, rest)
  {
    assert ([first] + rest)[1..] == rest;
  }

  function Concat(pieces: seq<Bytes>): Bytes {
    if pieces == [] then [] else pieces[0] + Concat(pieces[1..])
  }

  lemma {:induction false} ConcatTiles(data: Bytes, i: nat, pieces: seq<Bytes>)
    requires At(data, i, Concat(pieces))
    ensures Tiled(data, i, i + |Concat(pieces)|, pieces)
    decreases |pieces|
  {
    if pieces != [] {
      AtSplit(data, i, pieces[0], Concat(pieces[1..]));
      ConcatTiles(data, i + |pieces[0]|, pieces[1..]);
    }
  }

  function PartPieces(codec: TextCodec, parts: seq<Part>): (pieces: seq<Bytes>)
    requires AllEncodable(parts)
    ensures |pieces| == |parts| && Concat(pieces) == MessageBytes(codec, parts)
  {
    if parts == [] then [] else
      var rest := PartPieces(codec, parts[1..]);
      assert ([PartBytes(codec, parts[0])] + rest)[1..] == rest;
      [PartBytes(codec, parts[0])] + rest
  }

  lemma PiecesApart(codec: TextCodec, parts: seq<Part>)
    requires AllEncodable(parts) && parts != []
    ensures PartPieces(codec, parts) == [PartBytes(codec, parts[0])] + PartPieces(codec, parts[1..])
  {
  }

  lemma FirstPart(codec: TextCodec, data: Bytes, i: nat, k: nat, parts: seq<Part>)
    requires AllEncodable(parts) && parts != [] && Tiled(data, i, k, PartPieces(codec, parts))
    ensures At(data, i, PartBytes(codec, parts[0]))
    ensures Tiled(data, i + |PartBytes(codec, parts[0])|, k, PartPieces(codec, parts[1..]))
  {
    var first, rest := PartBytes(codec, parts[0]), PartPieces(codec, parts[1..]);
    PiecesApart(codec, parts);
    TiledHead(data, i, k, first, rest);
  }

  lemma PartThenFields(codec: TextCodec, data: Bytes, i: nat, k: nat, part: Part, fs: seq<Field>)
    requires Encodable(part) && At(data, i, PartBytes(codec, part))
    requires FieldsAt(codec, data, i + |PartBytes(codec, part)|, k, fs)
    ensures FieldsAt(codec, data, i, k, [PartField(codec, part)] + fs)
  {
    PartReadBack(codec, data, i, part);
    FieldThen(codec, data, i, i + |PartBytes(codec, part)|, k, PartField(codec, part), fs);
  }

  lemma {:induction false} TiledReadBack(codec: TextCodec, data: Bytes, i: nat, k: nat, parts: seq<Part>)
    requires AllEncodable(parts) && Tiled(data, i, k, PartPieces(codec, parts))
    ensures FieldsAt(codec, data, i, k, PartFields(codec, parts))
    decreases |parts|
  {
    if parts != [] {
      FirstPart(codec, data, i, k, parts);
      TiledReadBack(codec, data, i + |PartBytes(codec, parts[0])|, k, parts[1..]);
      PartThenFields(codec, data, i, k, parts[0], PartFields(codec, parts[1..]));
    }
  }

  lemma MessageTiles(codec: TextCodec, data: Bytes, i: nat, parts: seq<Part>)
    requires AllEncodable(parts) && At(data, i, MessageBytes(codec, parts))
    ensures Tiled(data, i, i + |MessageBytes(codec, parts)|, PartPieces(codec, parts))
  {
    ConcatTiles(data, i, PartPieces(codec, parts));
  }

  /** An encoded message is read field by field, whatever stands around it. */
  lemma MessageReadBack(codec: TextCodec, data: Bytes, i: nat, parts: seq<Part>)
    requires AllEncodable(parts) && At(data, i, MessageBytes(codec, parts))
    ensures FieldsAt(codec, data, i, i + |MessageBytes(codec, parts)|, PartFields(codec, parts))
  {
    MessageTiles(codec, data, i, parts);
    TiledReadBack(codec, data, i, i + |MessageBytes(codec, parts)|, parts);
  }

  // ---------------------------------------------------------------- fields no encoder writes, and bad ones

  lemma TagReads(data: Bytes, i: nat, field: nat, wireType: nat, rest: Bytes)
    requires wireType < 8 && At(data, i, Varint(field * 8 + wireType) + rest)
    ensures ReadVarint(data, i) == Ok((field * 8 + wireType, i + |Varint(field * 8 + wireType)|))
    ensures (field * 8 + wireType) / 8 == field && (field * 8 + wireType) % 8 == wireType
    ensures At(data, i + |Varint(field * 8 + wireType)|, rest)
  {
    AtSplit(data, i, Varint(field * 8 + wireType), rest);
    VarintRoundTrip(data, i, field * 8 + wireType);
  }

  lemma CutSlice(data: Bytes, i: nat, raw: Bytes, n: nat)
    requires At(data, i, raw) && |raw| <= n && (|raw| < n ==> i + |raw| == |data|)
    ensures Slice(data, i, n) == raw
  {
    AtSlice(data, i, raw);
    if |raw| < n && i < |data| {
      assert data[i..] == data[i..i + |raw|];
    }
  }

  /** A fixed-width field is its eight or four bytes, or what is left of them at the end of the data. */
  lemma FixedReadBack(codec: TextCodec, data: Bytes, i: nat, field: nat, wide: bool, raw: Bytes)
    requires var width, tag := if wide then 8 else 4, Varint(field * 8 + (if wide then 1 else 5));
             |raw| <= width && At(data, i, tag + raw) && (|raw| < width ==> i + |tag| + |raw| == |data|)
    ensures var end := i + |Varint(field * 8 + (if wide then 1 else 5))|;
            DecodeField(codec, data, i) ==
            if wide then Ok((Fixed64Field(field, raw), end + 8)) else Ok((Fixed32Field(field, raw), end + 4))
  {
    var wireType := if wide then 1 else 5;
    TagReads(data, i, field, wireType, raw);
    CutSlice(data, i + |Varint(field * 8 + wireType)|, raw, if wide then 8 else 4);
  }

  /** A chunk whose declared length runs past the end shows what is there, with the declared length. */
  lemma CutChunkReadBack(codec: TextCodec, data: Bytes, i: nat, field: nat, length: nat, raw: Bytes)
    requires |raw| < length && At(data, i, Varint(field * 8 + 2) + (Varint(length) + raw))
    requires i + |Varint(field * 8 + 2)| + |Varint(length)| + |raw| == |data|
    ensures DecodeField(codec, data, i).Ok? && DecodeField(codec, data, i).value.1 >= |data|
    ensures DecodeField(codec, data, i).value.0 == ShownAs(codec, field, raw, length)
  {
    TagReads(data, i, field, 2, Varint(length) + raw);
    var j := i + |Varint(field * 8 + 2)|;
    AtSplit(data, j, Varint(length), raw);
    VarintRoundTrip(data, j, length);
    CutSlice(data, j + |Varint(length)|, raw, length);
    ChunkShown(codec, field, raw, length);
  }

  /** The four wire types the decoder does not know. */
  lemma UnknownWireType(codec: TextCodec, data: Bytes, i: nat, field: nat, wireType: nat)
    requires wireType in {3, 4, 6, 7} && At(data, i, Varint(field * 8 + wireType))
    ensures DecodeField(codec, data, i) == Err(UnsupportedWireType(wireType))
  {
    assert Varint(field * 8 + wireType) + [] == Varint(field * 8 + wireType);
    TagReads(data, i, field, wireType, []);
  }

  /** Good fields before a bad one do not help: the whole message is refused with the bad field's error. */
  lemma BadFieldRefused(codec: TextCodec, data: Bytes, i: nat, k: nat, fs: seq<Field>)
    requires FieldsAt(codec, data, i, k, fs) && k < |data| && DecodeField(codec, data, k).Err?
    ensures DecodeFrom(codec, data, i) == Err(DecodeField(codec, data, k).error)
  {
    FieldsDecode(codec, data, i, k, fs);
  }

  lemma WholeAt(data: Bytes)
    ensures At(data, 0, data)
  {
    assert data[0..|data|] == data;
  }

  /** Data that is nothing but the fields. */
  lemma AllFieldsDecode(codec: TextCodec, data: Bytes, fs: seq<Field>)
    requires FieldsAt(codec, data, 0, |data|, fs)
    ensures DecodeFrom(codec, data, 0) == Ok(fs)
  {
    FieldsDecode(codec, data, 0, |data|, fs);
    assert fs + [] == fs;
  }

  /** `decode_message` inverts the encoders on every list of parts. */
  lemma MessageRoundTrip(codec: TextCodec, parts: seq<Part>)
    requires AllEncodable(parts)
    ensures DecodeFrom(codec, MessageBytes(codec, parts), 0) == Ok(PartFields(codec, parts))
  {
    var data := MessageBytes(codec, parts);
    WholeAt(data);
    MessageReadBack(codec, data, 0, parts);
    AllFieldsDecode(codec, data, PartFields(codec, parts));
  }

  /** What each part comes back as: numbers and unprintable bytes as they were written. */
  lemma PartsComeBack(codec: TextCodec, parts: seq<Part>, k: nat)
    requires AllEncodable(parts) && k < |parts|
    ensures var r := DecodeFrom(codec, MessageBytes(codec, parts), 0);
            && r.Ok? && |r.value| == |parts|
            && (parts[k].Number? ==> r.value[k] == VarintField(parts[k].field, parts[k].value))
            && (parts[k].Raw? && (forall text :: !Shows(codec, parts[k].raw, text)) ==>
                  r.value[k] == BytesField(parts[k].field, parts[k].raw, |parts[k].raw|))
  {
    MessageRoundTrip(codec, parts);
  }

  /** `encode_message` then `decode_message`: the same printable strings, in order. */
  lemma StringMessageRoundTrip(codec: TextCodec, fields: seq<(int, string)>)
    requires codec.Lossless()
    requires forall k :: 0 <= k < |fields| ==> fields[k].0 >= 0 && codec.printable(fields[k].1)
    ensures AllEncodable(TextParts(fields))
    ensures var r := DecodeFrom(codec, MessageBytes(codec, TextParts(fields)), 0);
            && r.Ok? && |r.value| == |fields|
            && forall k :: 0 <= k < |fields| ==> r.value[k] == StringField(fields[k].0, fields[k].1)
  {
    MessageRoundTrip(codec, TextParts(fields));
  }

  // ---------------------------------------------------------------- frames

  datatype Frame = Frame(flag: byte, payload: Bytes)

  function BigEndian32(n: nat): (b: Bytes)
    requires n < UINT32_LIMIT
    ensures |b| == 4
  {
    [n / 256 / 256 / 256, n / 256 / 256 % 256, n / 256 % 256, n % 256]
  }

  function ReadBigEndian32(data: Bytes, i: nat): nat
    requires i + 4 <= |data|
  {
    var b0: nat, b1: nat, b2: nat, b3: nat := data[i], data[i + 1], data[i + 2], data[i + 3];
    b0 * 0x100_0000 + b1 * 0x1_0000 + b2 * 256 + b3
  }

  lemma BigEndian32RoundTrip(data: Bytes, i: nat, n: nat)
    requires n < UINT32_LIMIT && At(data, i, BigEndian32(n))
    ensures ReadBigEndian32(data, i) == n
  {
    var b := BigEndian32(n);
    assert data[i] == b[0] && data[i + 1] == b[1] && data[i + 2] == b[2] && data[i + 3] == b[3];
  }

  predicate Framable(frame: Frame) {
    |frame.payload| < UINT32_LIMIT
  }

  predicate AllFramable(frames: seq<Frame>) {
    forall k :: 0 <= k < |frames| ==> Framable(frames[k])
  }

  function FrameBytes(frame: Frame): (b: Bytes)
    requires Framable(frame)
    ensures |b| == 5 + |frame.payload|
  {
    [frame.flag] + BigEndian32(|frame.payload|) + frame.payload
  }

  function StreamBytes(frames: seq<Frame>): Bytes
    requires AllFramable(frames)
  {
    if frames == [] then [] else FrameBytes(frames[0]) + StreamBytes(frames[1..])
  }

  method FrameRequest(message: Bytes) returns (r: Result<Bytes, CodecError>)
    ensures r == if |message| < UINT32_LIMIT then Ok(FrameBytes(Frame(0, message))) else Err(MessageTooLong)
  {
    if |message| >= UINT32_LIMIT {
      return Err(MessageTooLong);
    }
    r := Ok([0] + BigEndian32(|message|) + message);
  }

  /** The frames of a body from position `i`: fewer than five bytes left end the scan. */
  function SplitFrames(body: Bytes, i: nat): seq<Frame>
    decreases |body| - i
  {
    if i + 5 > |body| then []
    else
      var length := ReadBigEndian32(body, i + 1);
      [Frame(body[i], Slice(body, i + 5, length))] + SplitFrames(body, i + 5 + length)
  }

  /** The scan reads this frame at `i`. */
  predicate FrameAt(body: Bytes, i: nat, frame: Frame) {
    && i + 5 + |frame.payload| <= |body|
    && body[i] == frame.flag && ReadBigEndian32(body, i + 1) == |frame.payload|
    && Slice(body, i + 5, |frame.payload|) == frame.payload
  }

  lemma FrameReadBack(body: Bytes, i: nat, frame: Frame)
    requires Framable(frame) && At(body, i, FrameBytes(frame))
    ensures FrameAt(body, i, frame)
  {
    var length := BigEndian32(|frame.payload|);
    AtSplit(body, i, [frame.flag] + length, frame.payload);
    AtSplit(body, i, [frame.flag], length);
    assert body[i + 0] == [frame.flag][0];
    BigEndian32RoundTrip(body, i + 1, |frame.payload|);
    AtSlice(body, i + 5, frame.payload);
  }

  predicate FramesAt(body: Bytes, i: nat, k: nat, frames: seq<Frame>)
    decreases |frames|
  {
    if frames == [] then i == k
    else FrameAt(body, i, frames[0]) && FramesAt(body, i + 5 + |frames[0].payload|, k, frames[1..])
  }

  lemma FrameThen(body: Bytes, i: nat, frame: Frame, rest: seq<Frame>)
    requires FrameAt(body, i, frame) && SplitFrames(body, i + 5 + |frame.payload|) == rest
    ensures SplitFrames(body, i) == [frame] + rest
  {
  }

  lemma FirstApart<T>(items: seq<T>, rest: seq<T>)
    requires items != []
    ensures items + rest == [items[0]] + (items[1..] + rest)
  {
  }

  /** Frames that are read one after the other are what the scan yields before the rest. */
  lemma {:induction false} FramesSplit(body: Bytes, i: nat, k: nat, frames: seq<Frame>, rest: seq<Frame>)
    requires FramesAt(body, i, k, frames) && SplitFrames(body, k) == rest
    ensures SplitFrames(body, i) == frames + rest
    decreases |frames|
  {
    if frames == [] {
      assert frames + rest == rest;
    } else {
      FramesSplit(body, i + 5 + |frames[0].payload|, k, frames[1..], rest);
      FrameThen(body, i, frames[0], frames[1..] + rest);
      FirstApart(frames, rest);
    }
  }

  /** A last frame whose payload is cut short is read with what is there of it. */
  lemma CutFrameReadBack(body: Bytes, i: nat, flag: byte, length: nat, payload: Bytes)
    requires length < UINT32_LIMIT && |payload| < length && i + 5 + |payload| == |body|
    requires At(body, i, [flag] + (BigEndian32(length) + payload))
    ensures SplitFrames(body, i) == [Frame(flag, payload)]
  {
    AtSplit(body, i, [flag], BigEndian32(length) + payload);
    AtSplit(body, i + 1, BigEndian32(length), payload);
    assert body[i + 0] == [flag][0];
    BigEndian32RoundTrip(body, i + 1, length);
    CutSlice(body, i + 5, payload, length);
  }

  function FramePieces(frames: seq<Frame>): (pieces: seq<Bytes>)
    requires AllFramable(frames)
    ensures |pieces| == |frames| && Concat(pieces) == StreamBytes(frames)
  {
    if frames == [] then [] else
      var rest := FramePieces(frames[1..]);
      assert ([FrameBytes(frames[0])] + rest)[1..] == rest;
      [FrameBytes(frames[0])] + rest
  }

  lemma FirstFrame(body: Bytes, i: nat, k: nat, frames: seq<Frame>)
    requires AllFramable(frames) && frames != [] && Tiled(body, i, k, FramePieces(frames))
    ensures At(body, i, FrameBytes(frames[0]))
    ensures Tiled(body, i + 5 + |frames[0].payload|, k, FramePieces(frames[1..]))
  {
    TiledHead(body, i, k, FrameBytes(frames[0]), FramePieces(frames[1..]));
  }

  lemma {:induction false} TiledFrames(body: Bytes, i: nat, k: nat, frames: seq<Frame>)
    requires AllFramable(frames) && Tiled(body, i, k, FramePieces(frames))
    ensures FramesAt(body, i, k, frames)
    decreases |frames|
  {
    if frames != [] {
      FirstFrame(body, i, k, frames);
      FrameReadBack(body, i, frames[0]);
      TiledFrames(body, i + 5 + |frames[0].payload|, k, frames[1..]);
    }
  }

  lemma StreamFrames(body: Bytes, i: nat, frames: seq<Frame>)
    requires AllFramable(frames) && At(body, i, StreamBytes(frames))
    ensures FramesAt(body, i, i + |StreamBytes(frames)|, frames)
  {
    ConcatTiles(body, i, FramePieces(frames));
    TiledFrames(body, i, i + |StreamBytes(frames)|, frames);
  }

  /** The frames of a stream come first, then whatever the rest of the body splits into. */
  lemma FramesReadBack(body: Bytes, i: nat, frames: seq<Frame>)
    requires AllFramable(frames) && At(body, i, StreamBytes(frames))
    ensures SplitFrames(body, i) == frames + SplitFrames(body, i + |StreamBytes(frames)|)
    ensures |body| < i + |StreamBytes(frames)| + 5 ==> SplitFrames(body, i) == frames
  {
    var k := i + |StreamBytes(frames)|;
    StreamFrames(body, i, frames);
    FramesSplit(body, i, k, frames, SplitFrames(body, k));
    assert frames + [] == frames;
  }

  /** Position of the first `c`, or the length when there is none. */
  function IndexOf(s: string, c: char): (k: nat)
    ensures k <= |s|
    ensures forall j :: 0 <= j < k ==> s[j] != c
    ensures k < |s| ==> s[k] == c
  {
    if s == [] || s[0] == c then 0 else 1 + IndexOf(s[1..], c)
  }

  /** `s.split("\r\n")`, with `line` the text since the last separator. */
  function SplitLines(s: string, line: string): seq<string>
    decreases |s|
  {
    if s == [] then [line]
    else if |s| >= 2 && s[0] == '\r' && s[1] == '\n' then [line] + SplitLines(s[2..], "")
    else SplitLines(s[1..], line + [s[0]])
  }

  function AddHeader(codec: TextCodec, trailers: map<string, string>, line: string): map<string, string> {
    var colon := IndexOf(line, ':');
    if colon == |line| then trailers
    else trailers[codec.lower(codec.strip(line[..colon])) := codec.strip(line[colon + 1..])]
  }

  function AddHeaders(codec: TextCodec, trailers: map<string, string>, lines: seq<string>): map<string, string>
    decreases |lines|
  {
    if lines == [] then trailers
    else AddHeaders(codec, AddHeader(codec, trailers, lines[0]), lines[1..])
  }

  function MergeTrailer(codec: TextCodec, trailers: map<string, string>, payload: Bytes): map<string, string> {
    AddHeaders(codec, trailers, SplitLines(codec.lenient(payload), ""))
  }

  datatype Response = Response(messages: seq<seq<Field>>, trailers: map<string, string>, grpcStatus: Option<int>)

  function Finish(
      codec: TextCodec, messages: seq<seq<Field>>, trailers: map<string, string>): Result<Response, CodecError>
  {
    if "grpc-status" !in trailers then Ok(Response(messages, trailers, None))
    else
      match codec.toInt(trailers["grpc-status"])
      case None => Err(BadGrpcStatus)
      case Some(n) => Ok(Response(messages, trailers, Some(n)))
  }

  function Interpret(
      codec: TextCodec, frames: seq<Frame>, messages: seq<seq<Field>>,
      trailers: map<string, string>): Result<Response, CodecError>
  {
    if frames == [] then Finish(codec, messages, trailers)
    else if frames[0].flag >= 128 then
      Interpret(codec, frames[1..], messages, MergeTrailer(codec, trailers, frames[0].payload))
    else
      match DecodeFrom(codec, frames[0].payload, 0)
      case Err(e) => Err(e)
      case Ok(fields) => Interpret(codec, frames[1..], messages + [fields], trailers)
  }

  lemma InterpretFirst(
      codec: TextCodec, frame: Frame, rest: seq<Frame>, messages: seq<seq<Field>>, trailers: map<string, string>)
    ensures var all, fields := Interpret(codec, [frame] + rest, messages, trailers),
              DecodeFrom(codec, frame.payload, 0);
            if frame.flag >= 128 then
              all == Interpret(codec, rest, messages, MergeTrailer(codec, trailers, frame.payload))
            else if fields.Err? then all == Err(fields.error)
            else all == Interpret(codec, rest, messages + [fields.value], trailers)
  {
    assert ([frame] + rest)[1..] == rest;
  }

  method ReadTrailer(codec: TextCodec, trailers: map<string, string>, payload: Bytes)
    returns (merged: map<string, string>)
    ensures merged == MergeTrailer(codec, trailers, payload)
  {
    var lines := SplitLines(codec.lenient(payload), "");
    merged := trailers;
    for k := 0 to |lines|
      invariant AddHeaders(codec, merged, lines[k..]) == MergeTrailer(codec, trailers, payload)
    {
      merged := AddHeader(codec, merged, lines[k]);
    }
  }

  method ReadFrame(body: Bytes, i: nat) returns (frame: Frame, next: nat)
    requires i + 5 <= |body|
    ensures next > i && SplitFrames(body, i) == [frame] + SplitFrames(body, next)
  {
    var flag, length := body[i], ReadBigEndian32(body, i + 1);
    frame, next := Frame(flag, Slice(body, i + 5, length)), i + 5 + length;
  }

  method ParseResponse(codec: TextCodec, body: Bytes) returns (r: Result<Response, CodecError>)
    ensures r == Interpret(codec, SplitFrames(body, 0), [], map[])
  {
    var messages: seq<seq<Field>>, trailers: map<string, string>, i: nat := [], map[], 0;
    while i + 5 <= |body|
      invariant Interpret(codec, SplitFrames(body, i), messages, trailers) ==
                Interpret(codec, SplitFrames(body, 0), [], map[])
      decreases |body| - i
    {
      var frame, next := ReadFrame(body, i);
      InterpretFirst(codec, frame, SplitFrames(body, next), messages, trailers);
      i := next;
      if frame.flag >= 128 {
        trailers := ReadTrailer(codec, trailers, frame.payload);
      } else {
        var fields := DecodeMessage(codec, frame.payload);
        if fields.Err? {
          return Err(fields.error);
        }
        messages := messages + [fields.value];
      }
    }
    r := Finish(codec, messages, trailers);
  }

  // ---------------------------------------------------------------- whole responses

  /** What a server puts into one frame. */
  datatype Sent =
    | Message(parts: seq<Part>)
    | Trailer(headers: seq<(string, string)>)

  /** A header that survives the line format and the reader's normalisation. */
  predicate PlainHeader(codec: TextCodec, h: (string, string)) {
    && ':' !in h.0 && '\r' !in h.0 && '\r' !in h.1
    && codec.lower(codec.strip(h.0)) == h.0 && codec.strip(h.1) == h.1
  }

  function HeaderText(headers: seq<(string, string)>): string {
    if headers == [] then "" else headers[0].0 + ":" + headers[0].1 + "\r\n" + HeaderText(headers[1..])
  }

  function HeaderMap(trailers: map<string, string>, headers: seq<(string, string)>): map<string, string>
    decreases |headers|
  {
    if headers == [] then trailers else HeaderMap(trailers[headers[0].0 := headers[0].1], headers[1..])
  }

  predicate Sendable(codec: TextCodec, sent: Sent) {
    match sent
    case Message(parts) => AllEncodable(parts) && |MessageBytes(codec, parts)| < UINT32_LIMIT
    case Trailer(headers) =>
      && (forall k :: 0 <= k < |headers| ==> PlainHeader(codec, headers[k]))
      && |codec.encode(HeaderText(headers))| < UINT32_LIMIT
  }

  predicate AllSendable(codec: TextCodec, stream: seq<Sent>) {
    forall k :: 0 <= k < |stream| ==> Sendable(codec, stream[k])
  }

  function SentFrame(codec: TextCodec, sent: Sent): (f: Frame)
    requires Sendable(codec, sent)
    ensures Framable(f)
  {
    match sent
    case Message(parts) => Frame(0, MessageBytes(codec, parts))
    case Trailer(headers) => Frame(0x80, codec.encode(HeaderText(headers)))
  }

  function SentFrames(codec: TextCodec, stream: seq<Sent>): (frames: seq<Frame>)
    requires AllSendable(codec, stream)
    ensures AllFramable(frames)
    ensures |frames| == |stream|
    ensures forall k :: 0 <= k < |stream| ==> frames[k] == SentFrame(codec, stream[k])
  {
    seq(|stream|, k requires 0 <= k < |stream| => SentFrame(codec, stream[k]))
  }

  function SentMessages(codec: TextCodec, stream: seq<Sent>): seq<seq<Field>>
    requires AllSendable(codec, stream)
  {
    if stream == [] then []
    else (if stream[0].Message? then [PartFields(codec, stream[0].parts)] else []) + SentMessages(codec, stream[1..])
  }

  function SentHeaders(stream: seq<Sent>): seq<(string, string)> {
    if stream == [] then []
    else (if stream[0].Trailer? then stream[0].headers else []) + SentHeaders(stream[1..])
  }

  lemma {:induction false} SplitLinesSkips(plain: string, rest: string, line: string)
    requires '\r' !in plain
    ensures SplitLines(plain + rest, line) == SplitLines(rest, line + plain)
    decreases |plain|
  {
    if plain == [] {
      assert plain + rest == rest && line + plain == line;
    } else {
      assert plain[0] in plain;
      assert (plain + rest)[0] == plain[0];
      assert (plain + rest)[1..] == plain[1..] + rest;
      SplitLinesSkips(plain[1..], rest, line + [plain[0]]);
      assert line + [plain[0]] + plain[1..] == line + plain;
    }
  }

  lemma HeaderLineReadBack(codec: TextCodec, h: (string, string), trailers: map<string, string>)
    requires PlainHeader(codec, h)
    ensures AddHeader(codec, trailers, h.0 + ":" + h.1) == trailers[h.0 := h.1]
  {
    var line := h.0 + ":" + h.1;
    assert line[|h.0|] == ':';
    assert forall j :: 0 <= j < |h.0| ==> line[j] == h.0[j] && h.0[j] in h.0;
    assert IndexOf(line, ':') == |h.0|;
    assert line[..|h.0|] == h.0 && line[|h.0| + 1..] == h.1;
  }

  lemma FirstLine(line: string, rest: string)
    requires '\r' !in line
    ensures SplitLines(line + "\r\n" + rest, "") == [line] + SplitLines(rest, "")
  {
    assert line + "\r\n" + rest == line + ("\r\n" + rest);
    SplitLinesSkips(line, "\r\n" + rest, "");
    assert "" + line == line;
    assert ("\r\n" + rest)[2..] == rest;
  }

  lemma {:induction false} HeaderTextReadBack(
      codec: TextCodec, headers: seq<(string, string)>, trailers: map<string, string>)
    requires forall k :: 0 <= k < |headers| ==> PlainHeader(codec, headers[k])
    ensures AddHeaders(codec, trailers, SplitLines(HeaderText(headers), "")) == HeaderMap(trailers, headers)
    decreases |headers|
  {
    if headers == [] {
      assert SplitLines("", "") == [""];
    } else {
      var h := headers[0];
      var line, rest := h.0 + ":" + h.1, HeaderText(headers[1..]);
      assert HeaderText(headers) == line + "\r\n" + rest;
      FirstLine(line, rest);
      HeaderLineReadBack(codec, h, trailers);
      assert ([line] + SplitLines(rest, ""))[1..] == SplitLines(rest, "");
      HeaderTextReadBack(codec, headers[1..], trailers[h.0 := h.1]);
    }
  }

  lemma {:induction false} HeaderMapAppend(
      trailers: map<string, string>, a: seq<(string, string)>, b: seq<(string, string)>)
    ensures HeaderMap(trailers, a + b) == HeaderMap(HeaderMap(trailers, a), b)
    decreases |a|
  {
    if a == [] {
      assert a + b == b;
    } else {
      assert (a + b)[1..] == a[1..] + b;
      HeaderMapAppend(trailers[a[0].0 := a[0].1], a[1..], b);
    }
  }

  lemma {:induction false} InterpretSent(
      codec: TextCodec, stream: seq<Sent>, messages: seq<seq<Field>>, trailers: map<string, string>)
    requires codec.Lossless() && AllSendable(codec, stream)
    ensures Interpret(codec, SentFrames(codec, stream), messages, trailers) ==
            Finish(codec, messages + SentMessages(codec, stream), HeaderMap(trailers, SentHeaders(stream)))
    decreases |stream|
  {
    if stream == [] {
      assert messages + [] == messages;
    } else {
      var frames := SentFrames(codec, stream);
      assert frames[1..] == SentFrames(codec, stream[1..]);
      match stream[0]
      case Message(parts) =>
        MessageRoundTrip(codec, parts);
        InterpretSent(codec, stream[1..], messages + [PartFields(codec, parts)], trailers);
        assert messages + ([PartFields(codec, parts)] + SentMessages(codec, stream[1..])) ==
               messages + [PartFields(codec, parts)] + SentMessages(codec, stream[1..]);
        assert [] + SentHeaders(stream[1..]) == SentHeaders(stream[1..]);
      case Trailer(headers) =>
        HeaderTextReadBack(codec, headers, trailers);
        HeaderMapAppend(trailers, headers, SentHeaders(stream[1..]));
        InterpretSent(codec, stream[1..], messages, HeaderMap(trailers, headers));
        assert [] + SentMessages(codec, stream[1..]) == SentMessages(codec, stream[1..]);
    }
  }

  /** The headers of all trailer frames, later ones winning. */
  function MergedHeaders(stream: seq<Sent>): map<string, string> {
    HeaderMap(map[], SentHeaders(stream))
  }

  /**
    Any interleaving of message and trailer frames, followed by up to four stray bytes, parses to
    exactly the messages sent, in order, the merged headers, and the status they carry, if any.  A
    status that is no integer is the one error.
  */
  lemma ResponseRoundTrip(codec: TextCodec, stream: seq<Sent>, stray: Bytes)
    requires codec.Lossless() && AllSendable(codec, stream) && |stray| < 5
    ensures var r := Interpret(codec, SplitFrames(StreamBytes(SentFrames(codec, stream)) + stray, 0), [], map[]);
            var headers := MergedHeaders(stream);
            && (r == Err(BadGrpcStatus) <==>
                  "grpc-status" in headers && codec.toInt(headers["grpc-status"]).None?)
            && (r != Err(BadGrpcStatus) ==>
                  && r.Ok? && r.value.messages == SentMessages(codec, stream) && r.value.trailers == headers
                  && r.value.grpcStatus ==
                       if "grpc-status" in headers then codec.toInt(headers["grpc-status"]) else None)
  {
    var frames := SentFrames(codec, stream);
    var body := StreamBytes(frames) + stray;
    assert At(body, 0, StreamBytes(frames));
    FramesReadBack(body, 0, frames);
    InterpretSent(codec, stream, [], map[]);
    assert [] + SentMessages(codec, stream) == SentMessages(codec, stream);
  }
}
