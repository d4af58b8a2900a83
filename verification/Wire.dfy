/**
 The part of the Protocol Buffers wire format that a Chunk message needs: base-128
 varints, tags, the lengths of field values of every wire type, and the decoder that a
 proto3 message with the single field "bytes data = 1" gets. Parsing is as in Go's
 protowire package and message decoder: non-minimal varints are accepted, varints end by
 the tenth byte, unknown fields are skipped, groups nest up to a limit, and of several
 data fields the last one wins.
 */
module Wire {
  import opened Common

  const UINT64 := 0x1_0000_0000_0000_0000
  const INT64_MAX := 0x7fff_ffff_ffff_ffff
  const INT32_MAX := 0x7fff_ffff
  const MAX_FIELD := 0x1fff_ffff
  const RECURSION_LIMIT := 10000

  const VARINT := 0
  const FIXED64 := 1
  const BYTES := 2
  const START_GROUP := 3
  const END_GROUP := 4
  const FIXED32 := 5

  datatype Error = Truncated | Overflow | BadFieldNumber | BadEndGroup | ReservedType | TooDeep

  /** A parsed value and how many bytes it took. */
  datatype Parsed<T> = Ok(value: T, n: nat) | Bad(err: Error)

  datatype Result<T> = Success(value: T) | Failure

  /** The rest of a varint whose first k bytes are already consumed. */
  function VarintFrom(b: Bytes, k: nat): (r: Parsed<nat>)
    requires k <= 9
    ensures r.Ok? ==> 1 <= r.n <= |b| && r.n <= 10 - k
    decreases |b|
  {
    if b == [] then Bad(Truncated)
    else if k == 9 then (if b[0] < 2 then Ok(b[0], 1) else Bad(Overflow))
    else if b[0] < 0x80 then Ok(b[0], 1)
    else match VarintFrom(b[1..], k + 1)
      case Bad(e) => Bad(e)
      case Ok(v, n) => Ok(b[0] - 0x80 + 0x80 * v, n + 1)
  }

  function ConsumeVarint(b: Bytes): (r: Parsed<nat>)
    ensures r.Ok? ==> 1 <= r.n <= |b|
  {
    VarintFrom(b, 0)
  }

  function AppendVarint(v: nat): (b: Bytes)
    ensures |b| > 0
  {
    if v < 0x80 then [v] else [v % 0x80 + 0x80] + AppendVarint(v / 0x80)
  }

  /** Field number and wire type. */
  function ConsumeTag(b: Bytes): (r: Parsed<(int, int)>)
    ensures r.Ok? ==> 1 <= r.n <= |b|
  {
    match ConsumeVarint(b)
    case Bad(e) => Bad(e)
    case Ok(v, n) =>
      var num := if v / 8 > INT32_MAX then -1 else v / 8;
      if num < 1 then Bad(BadFieldNumber) else Ok((num, v % 8), n)
  }

  function ConsumeBytes(b: Bytes): (r: Parsed<Bytes>)
    ensures r.Ok? ==> 1 <= r.n <= |b|
  {
    match ConsumeVarint(b)
    case Bad(e) => Bad(e)
    case Ok(size, n) => if size > |b| - n then Bad(Truncated) else Ok(b[n..n + size], n + size)
  }

  /** The length of a field value that is to be skipped. */
  function FieldLength(num: int, typ: int, b: Bytes, depth: int): (r: Parsed<()>)
    ensures r.Ok? ==> r.n <= |b|
    decreases |b|, 1
  {
    if typ == VARINT then (match ConsumeVarint(b) case Bad(e) => Bad(e) case Ok(_, n) => Ok((), n))
    else if typ == FIXED32 then (if |b| < 4 then Bad(Truncated) else Ok((), 4))
    else if typ == FIXED64 then (if |b| < 8 then Bad(Truncated) else Ok((), 8))
    else if typ == BYTES then (match ConsumeBytes(b) case Bad(e) => Bad(e) case Ok(_, n) => Ok((), n))
    else if typ == START_GROUP then (if depth < 0 then Bad(TooDeep) else GroupLength(num, b, depth))
    else if typ == END_GROUP then Bad(BadEndGroup)
    else Bad(ReservedType)
  }

  function GroupLength(num: int, b: Bytes, depth: int): (r: Parsed<()>)
    ensures r.Ok? ==> r.n <= |b|
    decreases |b|, 0
  {
    match ConsumeTag(b)
    case Bad(e) => Bad(e)
    case Ok((num2, typ2), n) =>
      if typ2 == END_GROUP then (if num != num2 then Bad(BadEndGroup) else Ok((), n))
      else match FieldLength(num2, typ2, b[n..], depth - 1)
        case Bad(e) => Bad(e)
        case Ok(_, m) =>
          match GroupLength(num, b[n + m..], depth)
          case Bad(e) => Bad(e)
          case Ok(_, k) => Ok((), n + m + k)
  }

  /** The Data field of a Chunk after decoding b on top of what was decoded before. */
  function DecodeChunk(b: Bytes, data: Bytes): Result<Bytes>
    decreases |b|
  {
    if b == [] then Success(data) else
    match ConsumeVarint(b)
    case Bad(_) => Failure
    case Ok(tag, n) =>
      var num, typ, rest := tag / 8, tag % 8, b[n..];
      if num < 1 || num > MAX_FIELD || typ == END_GROUP then Failure
      else if num == 1 && typ == BYTES then
        match ConsumeBytes(rest)
        case Bad(_) => Failure
        case Ok(payload, m) => DecodeChunk(rest[m..], payload)
      else
        match FieldLength(num, typ, rest, RECURSION_LIMIT)
        case Bad(_) => Failure
        case Ok(_, m) => DecodeChunk(rest[m..], data)
  }

  /** proto3 leaves an empty bytes field out. */
  function EncodeChunk(payload: Bytes): Bytes
  {
    if payload == [] then [] else AppendVarint(8 * 1 + BYTES) + AppendVarint(|payload|) + payload
  }

  // ------------------------------------------------------------------- lemmas

  /** A varint that parses is not affected by what follows it. */
  lemma {:induction false} VarintPrefix(a: Bytes, b: Bytes, k: nat)
    requires k <= 9 && VarintFrom(a, k).Ok?
    ensures VarintFrom(a + b, k) == VarintFrom(a, k)
  {
    assert (a + b)[0] == a[0] && (a + b)[1..] == a[1..] + b;
    if k < 9 && a[0] >= 0x80 {
      VarintPrefix(a[1..], b, k + 1);
    }
  }

  /** The number a varint's bytes denote, least significant group first. */
  function Groups(b: Bytes): nat { if b == [] then 0 else b[0] % 0x80 + 0x80 * Groups(b[1..]) }

  /** The first n bytes make a varint, minimal or not, when k bytes came before. */
  predicate IsVarint(b: Bytes, n: nat, k: nat)
  {
    && 1 <= n <= |b| && n + k <= 10
    && (forall i :: 0 <= i < n - 1 ==> b[i] >= 0x80)
    && b[n - 1] < 0x80 && (n + k == 10 ==> b[n - 1] < 2)
  }

  /** Parsing accepts exactly the varints of at most ten bytes that fit 64 bits, minimal or
      not, and yields the number their groups denote. */
  lemma {:induction false} VarintExact(b: Bytes, n: nat, k: nat)
    requires k <= 9
    ensures IsVarint(b, n, k) <==> VarintFrom(b, k).Ok? && VarintFrom(b, k).n == n
    ensures IsVarint(b, n, k) ==> VarintFrom(b, k).value == Groups(b[..n])
  {
    if b != [] && k < 9 && b[0] >= 0x80 && n > 0 {
      VarintExact(b[1..], n - 1, k + 1);
      if 1 < n <= |b| {
        assert b[n - 1] == b[1..][n - 2] && b[..n][1..] == b[1..][..n - 1];
        assert forall i :: 0 <= i < n - 2 ==> b[1..][i] == b[i + 1];
        if IsVarint(b[1..], n - 1, k + 1) {
          forall i | 0 <= i < n - 1 ensures b[i] >= 0x80 { assert i > 0 ==> b[i] == b[1..][i - 1]; }
        }
      }
    } else if n == 1 && b != [] {
      assert b[..1][1..] == [];
    }
  }

  function Pow128(k: nat): nat { if k == 0 then 1 else 0x80 * Pow128(k - 1) }

  /** Appending and consuming are inverse as long as the value fits the remaining bytes. */
  lemma {:induction false} VarintRoundTrip(v: nat, rest: Bytes, k: nat)
    requires k <= 9 && v < 2 * Pow128(9 - k)
    ensures VarintFrom(AppendVarint(v) + rest, k) == Ok(v, |AppendVarint(v)|)
  {
    var b := AppendVarint(v) + rest;
    if v < 0x80 {
      assert k == 9 ==> v < 2 by { assert Pow128(0) == 1; }
    } else {
      assert k < 9 by { assert Pow128(0) == 1; }
      assert b[1..] == AppendVarint(v / 0x80) + rest;
      VarintRoundTrip(v / 0x80, rest, k + 1);
    }
  }

  lemma UInt64FitsVarint()
    ensures 2 * Pow128(9) == UINT64
  {
    assert Pow128(3) == 0x20_0000 by { assert Pow128(1) == 0x80; assert Pow128(2) == 0x4000; }
    assert Pow128(6) == 0x400_0000_0000 by { assert Pow128(4) == 0x1000_0000; assert Pow128(5) == 0x8_0000_0000; }
    assert Pow128(7) == 0x2_0000_0000_0000;
    assert Pow128(8) == 0x100_0000_0000_0000;
  }

  lemma {:induction false} VarintIsUInt64(b: Bytes, k: nat)
    requires k <= 9 && VarintFrom(b, k).Ok?
    ensures VarintFrom(b, k).value < 2 * Pow128(9 - k)
  {
    if k < 9 && b[0] >= 0x80 {
      VarintIsUInt64(b[1..], k + 1);
    } else if k < 9 {
      assert Pow128(9 - k) >= 0x80 by { PowPositive(8 - k); }
    }
  }

  lemma {:induction false} PowPositive(k: nat)
    ensures Pow128(k) >= 1
  {
    if k > 0 { PowPositive(k - 1); }
  }

  /** One turn of the decoder on a data field, and on any other one. */
  lemma {:induction false} DataTurn(b: Bytes, n: nat, payload: Bytes, m: nat, data: Bytes)
    requires ConsumeVarint(b) == Ok(8 * 1 + BYTES, n) && ConsumeBytes(b[n..]) == Ok(payload, m)
    ensures DecodeChunk(b, data) == DecodeChunk(b[n..][m..], payload)
  {
  }

  lemma {:induction false} SkipTurn(b: Bytes, tag: nat, n: nat, data: Bytes)
    requires ConsumeVarint(b) == Ok(tag, n) && 1 <= tag / 8 <= MAX_FIELD && tag % 8 != END_GROUP && tag != 8 * 1 + BYTES
    ensures var r := FieldLength(tag / 8, tag % 8, b[n..], RECURSION_LIMIT);
      if r.Bad? then DecodeChunk(b, data).Failure? else DecodeChunk(b, data) == DecodeChunk(b[n..][r.n..], data)
  {
  }

  /** What a message that decodes starts with. */
  lemma {:induction false} DecodesTurn(b: Bytes, data: Bytes)
    requires b != [] && DecodeChunk(b, data).Success?
    ensures ConsumeVarint(b).Ok?
    ensures var tag, n := ConsumeVarint(b).value, ConsumeVarint(b).n;
      if tag == 8 * 1 + BYTES then ConsumeBytes(b[n..]).Ok?
      else 1 <= tag / 8 <= MAX_FIELD && tag % 8 != END_GROUP && FieldLength(tag / 8, tag % 8, b[n..], RECURSION_LIMIT).Ok?
  {
  }

  /** A message that is one data field up to its end decodes to that field's bytes. */
  lemma SingleField(b: Bytes, n: nat, m: nat, size: nat)
    requires ConsumeVarint(b) == Ok(8 * 1 + BYTES, n)
    requires ConsumeVarint(b[n..]) == Ok(size, m) && size == |b| - n - m
    ensures DecodeChunk(b, []) == Success(b[n + m..])
  {
    hide DecodeChunk, ConsumeVarint;
    var rest := b[n..];
    assert rest[m..m + size] == b[n + m..];
    assert ConsumeBytes(rest) == Ok(b[n + m..], m + size);
    DataTurn(b, n, b[n + m..], m + size, []);
    assert rest[m + size..] == [];
    NothingLeft(b[n + m..]);
  }

  lemma NothingLeft(data: Bytes)
    ensures DecodeChunk([], data) == Success(data)
  {
  }

  /** Decoding an encoded chunk gives the payload back, for every payload a Go slice can hold. */
  lemma ChunkRoundTrip(payload: Bytes)
    requires |payload| <= 0x7fff_ffff_ffff_ffff
    ensures DecodeChunk(EncodeChunk(payload), []) == Success(payload)
  {
    if payload != [] {
      var tag, len := AppendVarint(8 * 1 + BYTES), AppendVarint(|payload|);
      var b := EncodeChunk(payload);
      UInt64FitsVarint();
      assert b == tag + (len + payload);
      VarintRoundTrip(8 * 1 + BYTES, len + payload, 0);
      assert b[|tag|..] == len + payload;
      VarintRoundTrip(|payload|, payload, 0);
      SingleField(b, |tag|, |len|, |payload|);
      assert b[|tag| + |len|..] == payload;
    }
  }

  // ------------------------------------------------- messages with other fields

  /** A field as a sender writes it, with minimal varints. */
  datatype Field =
    | Varint(num: nat, v: nat)
    | Fixed32(num: nat, bytes: Bytes)
    | Fixed64(num: nat, bytes: Bytes)
    | LengthDelimited(num: nat, bytes: Bytes)
    | Group(num: nat, fields: seq<Field>)

  function WireType(f: Field): nat
  {
    match f
    case Varint(_, _) => VARINT
    case Fixed32(_, _) => FIXED32
    case Fixed64(_, _) => FIXED64
    case LengthDelimited(_, _) => BYTES
    case Group(_, _) => START_GROUP
  }

  predicate ValidField(f: Field)
  {
    && 1 <= f.num <= 0x1fff_ffff
    && match f
       case Varint(_, v) => v < UINT64
       case Fixed32(_, bytes) => |bytes| == 4
       case Fixed64(_, bytes) => |bytes| == 8
       case LengthDelimited(_, bytes) => |bytes| < UINT64
       case Group(_, fields) => ValidFields(fields)
  }

  predicate ValidFields(fs: seq<Field>) { fs == [] || (ValidField(fs[0]) && ValidFields(fs[1..])) }

  function Tag(num: nat, typ: nat): Bytes
  {
    AppendVarint(8 * num + typ)
  }

  function EncodeValue(f: Field): Bytes
    requires ValidField(f)
  {
    match f
    case Varint(_, v) => AppendVarint(v)
    case Fixed32(_, bytes) => bytes
    case Fixed64(_, bytes) => bytes
    case LengthDelimited(_, bytes) => AppendVarint(|bytes|) + bytes
    case Group(num, fields) => EncodeFields(fields) + Tag(num, END_GROUP)
  }

  function EncodeFields(fs: seq<Field>): Bytes
    requires ValidFields(fs)
  {
    if fs == [] then [] else Tag(fs[0].num, WireType(fs[0])) + EncodeValue(fs[0]) + EncodeFields(fs[1..])
  }

  /** How deep the groups of a field nest. */
  function Nesting(f: Field): nat { if f.Group? then 1 + Deepest(f.fields) else 0 }

  function Deepest(fs: seq<Field>): nat
  {
    if fs == [] then 0 else if Nesting(fs[0]) > Deepest(fs[1..]) then Nesting(fs[0]) else Deepest(fs[1..])
  }

  lemma TagRoundTrip(num: nat, typ: nat, rest: Bytes)
    requires 1 <= num <= MAX_FIELD && typ < 8
    ensures ConsumeVarint(Tag(num, typ) + rest) == Ok(8 * num + typ, |Tag(num, typ)|)
    ensures ConsumeTag(Tag(num, typ) + rest) == Ok((num, typ), |Tag(num, typ)|)
  {
    UInt64FitsVarint();
    VarintRoundTrip(8 * num + typ, rest, 0);
  }

  lemma BytesRoundTrip(bytes: Bytes, rest: Bytes)
    requires |bytes| < UINT64
    ensures ConsumeBytes(AppendVarint(|bytes|) + bytes + rest) == Ok(bytes, |AppendVarint(|bytes|)| + |bytes|)
  {
    var len := AppendVarint(|bytes|);
    var b := len + bytes + rest;
    UInt64FitsVarint();
    assert b == len + (bytes + rest);
    VarintRoundTrip(|bytes|, bytes + rest, 0);
    assert b[|len|..|len| + |bytes|] == bytes;
  }

  /** One turn of the loop that skips a group. */
  lemma GroupTurn(num: int, b: Bytes, depth: int, num2: int, typ2: int, n: nat)
    requires ConsumeTag(b) == Ok((num2, typ2), n) && typ2 != END_GROUP
    ensures match FieldLength(num2, typ2, b[n..], depth - 1)
            case Bad(_) => GroupLength(num, b, depth).Bad?
            case Ok(_, m) =>
              match GroupLength(num, b[n + m..], depth)
              case Bad(_) => GroupLength(num, b, depth).Bad?
              case Ok(_, k) => GroupLength(num, b, depth) == Ok((), n + m + k)
  {
  }

  lemma GroupEnd(num: nat, rest: Bytes, depth: int)
    requires 1 <= num <= MAX_FIELD
    ensures GroupLength(num, Tag(num, END_GROUP) + rest, depth) == Ok((), |Tag(num, END_GROUP)|)
  {
    TagRoundTrip(num, END_GROUP, rest);
  }

  /** A field value is skipped to exactly its end, whatever follows, unless its groups nest
      deeper than the limit. */
  lemma {:induction false} SkipsValue(f: Field, rest: Bytes, depth: int)
    requires ValidField(f) && depth >= -1
    ensures Nesting(f) <= depth + 1 ==> FieldLength(f.num, WireType(f), EncodeValue(f) + rest, depth) == Ok((), |EncodeValue(f)|)
    ensures Nesting(f) > depth + 1 ==> FieldLength(f.num, WireType(f), EncodeValue(f) + rest, depth).Bad?
    decreases f, 0
  {
    match f
    case Varint(_, v) =>
      UInt64FitsVarint();
      VarintRoundTrip(v, rest, 0);
    case Fixed32(_, _) =>
    case Fixed64(_, _) =>
    case LengthDelimited(_, bytes) => BytesRoundTrip(bytes, rest);
    case Group(num, fields) =>
      var end := Tag(num, END_GROUP);
      if depth >= 0 { SkipsGroup(num, fields, rest, depth); }
      assert EncodeValue(f) + rest == EncodeFields(fields) + end + rest;
  }

  lemma {:induction false} SkipsGroup(num: nat, fs: seq<Field>, rest: Bytes, depth: int)
    requires 1 <= num <= MAX_FIELD && ValidFields(fs) && depth >= 0
    ensures var b := EncodeFields(fs) + Tag(num, END_GROUP);
      && (Deepest(fs) <= depth ==> GroupLength(num, b + rest, depth) == Ok((), |b|))
      && (Deepest(fs) > depth ==> GroupLength(num, b + rest, depth).Bad?)
    decreases fs, 1
  {
    hide GroupLength, Tag, EncodeValue, Nesting;
    var end := Tag(num, END_GROUP);
    if fs == [] {
      assert EncodeFields(fs) + end == end;
      GroupEnd(num, rest, depth);
    } else {
      var more := EncodeFields(fs[1..]) + end + rest;
      SkipsGroup(num, fs[1..], rest, depth);
      SkipsInGroup(num, fs[0], more, depth);
      assert EncodeFields(fs) + end + rest == Tag(fs[0].num, WireType(fs[0])) + (EncodeValue(fs[0]) + more);
    }
  }

  lemma {:induction false} SkipsInGroup(num: nat, f: Field, more: Bytes, depth: int)
    requires ValidField(f) && depth >= 0
    ensures var tag, value := Tag(f.num, WireType(f)), EncodeValue(f);
      && (Nesting(f) > depth || GroupLength(num, more, depth).Bad? ==> GroupLength(num, tag + (value + more), depth).Bad?)
      && (Nesting(f) <= depth && GroupLength(num, more, depth).Ok? ==>
            GroupLength(num, tag + (value + more), depth) == Ok((), |tag| + |value| + GroupLength(num, more, depth).n))
    decreases f, 1
  {
    hide GroupLength, FieldLength, ConsumeTag, Tag, EncodeValue, Nesting;
    var tag, value := Tag(f.num, WireType(f)), EncodeValue(f);
    var b := tag + (value + more);
    TagRoundTrip(f.num, WireType(f), value + more);
    GroupTurn(num, b, depth, f.num, WireType(f), |tag|);
    assert b[|tag|..] == value + more;
    SkipsValue(f, more, depth - 1);
    assert b[|tag| + |value|..] == more;
  }

  /** A field other than data is skipped: an unknown field, or number 1 with another type. */
  lemma SkipsField(f: Field, rest: Bytes, data: Bytes)
    requires ValidField(f) && !(f.num == 1 && f.LengthDelimited?)
    ensures var b := Tag(f.num, WireType(f)) + EncodeValue(f) + rest;
      DecodeChunk(b, data) == if Nesting(f) <= 10001 then DecodeChunk(rest, data) else Failure
  {
    var tag, value := Tag(f.num, WireType(f)), EncodeValue(f);
    var b := tag + value + rest;
    assert b == tag + (value + rest);
    TagRoundTrip(f.num, WireType(f), value + rest);
    assert b[|tag|..] == value + rest;
    SkipsValue(f, rest, RECURSION_LIMIT);
    assert (value + rest)[|value|..] == rest;
  }

  /** A data field replaces what was decoded before. */
  lemma TakesData(payload: Bytes, rest: Bytes, data: Bytes)
    requires |payload| < UINT64
    ensures DecodeChunk(Tag(1, BYTES) + AppendVarint(|payload|) + payload + rest, data) == DecodeChunk(rest, payload)
  {
    var tag, value := Tag(1, BYTES), AppendVarint(|payload|) + payload;
    var b := tag + AppendVarint(|payload|) + payload + rest;
    assert b == tag + (value + rest);
    TagRoundTrip(1, BYTES, value + rest);
    assert b[|tag|..] == value + rest;
    BytesRoundTrip(payload, rest);
    assert (value + rest)[|value|..] == rest;
  }

  /** What a message made of these fields says: the payload of its last data field. */
  function LastData(fs: seq<Field>, data: Bytes): Bytes
  {
    if fs == [] then data
    else LastData(fs[1..], if fs[0].num == 1 && fs[0].LengthDelimited? then fs[0].bytes else data)
  }

  /** Every message of valid fields decodes to its last data field, or to what was there
      before if it has none; it fails exactly if some group nests too deep. */
  lemma {:induction false} DecodesToLastData(fs: seq<Field>, data: Bytes)
    requires ValidFields(fs)
    ensures DecodeChunk(EncodeFields(fs), data) ==
            if Deepest(fs) <= 10001 then Success(LastData(fs, data)) else Failure
  {
    if fs != [] {
      var f, rest := fs[0], EncodeFields(fs[1..]);
      if f.num == 1 && f.LengthDelimited? {
        assert EncodeFields(fs) == Tag(1, BYTES) + AppendVarint(|f.bytes|) + f.bytes + rest;
        TakesData(f.bytes, rest, data);
        DecodesToLastData(fs[1..], f.bytes);
      } else {
        SkipsField(f, rest, data);
        DecodesToLastData(fs[1..], data);
      }
    }
  }

  // -------------------------------------------------------- parsing is prefix-stable

  lemma BytesPrefix(a: Bytes, b: Bytes)
    requires ConsumeBytes(a).Ok?
    ensures ConsumeBytes(a + b) == ConsumeBytes(a)
  {
    VarintPrefix(a, b, 0);
    var n, size := ConsumeVarint(a).n, ConsumeVarint(a).value;
    assert (a + b)[n..n + size] == a[n..n + size];
  }

  /** A value that parses is not affected by what follows it. */
  lemma {:induction false} FieldPrefix(num: int, typ: int, a: Bytes, b: Bytes, depth: int)
    requires FieldLength(num, typ, a, depth).Ok?
    ensures FieldLength(num, typ, a + b, depth) == FieldLength(num, typ, a, depth)
    decreases |a|, 1
  {
    if typ == VARINT {
      VarintPrefix(a, b, 0);
    } else if typ == BYTES {
      BytesPrefix(a, b);
    } else if typ == START_GROUP {
      GroupPrefix(num, a, b, depth);
    }
  }

  lemma {:induction false} GroupPrefix(num: int, a: Bytes, b: Bytes, depth: int)
    requires GroupLength(num, a, depth).Ok?
    ensures GroupLength(num, a + b, depth) == GroupLength(num, a, depth)
    decreases |a|, 0
  {
    hide GroupLength, FieldLength, ConsumeTag;
    GroupHasTag(num, a, depth);
    TagPrefix(a, b);
    var num2, typ2, n := ConsumeTag(a).value.0, ConsumeTag(a).value.1, ConsumeTag(a).n;
    if typ2 == END_GROUP {
      GroupEndsAlike(num, a, a + b, depth);
    } else {
      GroupTurn(num, a, depth, num2, typ2, n);
      GroupTurn(num, a + b, depth, num2, typ2, n);
      assert (a + b)[n..] == a[n..] + b;
      FieldPrefix(num2, typ2, a[n..], b, depth - 1);
      var m := FieldLength(num2, typ2, a[n..], depth - 1).n;
      assert (a + b)[n + m..] == a[n + m..] + b;
      GroupPrefix(num, a[n + m..], b, depth);
    }
  }

  lemma GroupHasTag(num: int, a: Bytes, depth: int)
    requires GroupLength(num, a, depth).Ok?
    ensures ConsumeTag(a).Ok?
  {
  }

  lemma GroupEndsAlike(num: int, a: Bytes, b: Bytes, depth: int)
    requires ConsumeTag(a).Ok? && ConsumeTag(b) == ConsumeTag(a) && ConsumeTag(a).value.1 == END_GROUP
    ensures GroupLength(num, b, depth) == GroupLength(num, a, depth)
  {
  }

  lemma TagPrefix(a: Bytes, b: Bytes)
    requires ConsumeTag(a).Ok?
    ensures ConsumeTag(a + b) == ConsumeTag(a)
  {
    VarintPrefix(a, b, 0);
  }

  /** Decoding is incremental: a message that decodes may be cut off and decoded on. So of
      two data fields the last one wins, whatever lies between. */
  lemma {:induction false} DecodesOn(a: Bytes, b: Bytes, data: Bytes)
    requires DecodeChunk(a, data).Success?
    ensures DecodeChunk(a + b, data) == DecodeChunk(b, DecodeChunk(a, data).value)
    decreases |a|
  {
    hide DecodeChunk, FieldLength, ConsumeBytes;
    if a == [] {
      assert a + b == b;
      NothingLeft(data);
    } else {
      DecodesTurn(a, data);
      VarintPrefix(a, b, 0);
      var tag, n := ConsumeVarint(a).value, ConsumeVarint(a).n;
      var rest := a[n..];
      assert (a + b)[n..] == rest + b;
      if tag == 8 * 1 + BYTES {
        var payload, m := ConsumeBytes(rest).value, ConsumeBytes(rest).n;
        BytesPrefix(rest, b);
        DataTurn(a, n, payload, m, data);
        DataTurn(a + b, n, payload, m, data);
        assert (rest + b)[m..] == rest[m..] + b;
        DecodesOn(rest[m..], b, payload);
      } else {
        var m := FieldLength(tag / 8, tag % 8, rest, RECURSION_LIMIT).n;
        FieldPrefix(tag / 8, tag % 8, rest, b, RECURSION_LIMIT);
        SkipTurn(a, tag, n, data);
        SkipTurn(a + b, tag, n, data);
        assert (rest + b)[m..] == rest[m..] + b;
        DecodesOn(rest[m..], b, data);
      }
    }
  }

  /** A value that is cut short does not parse. */
  lemma TruncatedValueFails(f: Field, k: nat, depth: int)
    requires ValidField(f) && depth >= -1 && k < |EncodeValue(f)|
    ensures FieldLength(f.num, WireType(f), EncodeValue(f)[..k], depth).Bad?
  {
    var v := EncodeValue(f);
    if FieldLength(f.num, WireType(f), v[..k], depth).Ok? {
      FieldPrefix(f.num, WireType(f), v[..k], v[k..], depth);
      assert v[..k] + v[k..] == v && v + [] == v;
      SkipsValue(f, [], depth);
    }
  }

  lemma TruncatedFieldFails(f: Field, k: nat, data: Bytes)
    requires ValidField(f) && k < |EncodeValue(f)|
    ensures DecodeChunk(Tag(f.num, WireType(f)) + EncodeValue(f)[..k], data).Failure?
  {
    hide FieldLength, Tag;
    var tag, value := Tag(f.num, WireType(f)), EncodeValue(f)[..k];
    TagRoundTrip(f.num, WireType(f), value);
    assert (tag + value)[|tag|..] == value;
    TruncatedValueFails(f, k, RECURSION_LIMIT);
    if f.num == 1 && f.LengthDelimited? { BytesFail(value); }
  }

  lemma BytesFail(b: Bytes)
    requires FieldLength(1, BYTES, b, RECURSION_LIMIT).Bad?
    ensures ConsumeBytes(b).Bad?
  {
  }

  /** A message whose last field has its value cut short fails. */
  lemma {:induction false} TruncatedMessageFails(fs: seq<Field>, f: Field, k: nat, data: Bytes)
    requires ValidFields(fs) && ValidField(f) && k < |EncodeValue(f)|
    ensures DecodeChunk(EncodeFields(fs) + (Tag(f.num, WireType(f)) + EncodeValue(f)[..k]), data).Failure?
    decreases |fs|
  {
    hide DecodeChunk, Tag;
    var end := Tag(f.num, WireType(f)) + EncodeValue(f)[..k];
    if fs == [] {
      assert EncodeFields(fs) + end == end;
      TruncatedFieldFails(f, k, data);
    } else {
      var g, more := fs[0], EncodeFields(fs[1..]);
      FirstFieldFirst(fs, end);
      if g.num == 1 && g.LengthDelimited? {
        TakesData(g.bytes, more + end, data);
        TruncatedMessageFails(fs[1..], f, k, g.bytes);
      } else {
        SkipsField(g, more + end, data);
        TruncatedMessageFails(fs[1..], f, k, data);
      }
    }
  }

  lemma FirstFieldFirst(fs: seq<Field>, end: Bytes)
    requires fs != [] && ValidFields(fs)
    ensures EncodeFields(fs) + end == Tag(fs[0].num, WireType(fs[0])) + EncodeValue(fs[0]) + (EncodeFields(fs[1..]) + end)
    ensures fs[0].num == 1 && fs[0].LengthDelimited? ==>
      EncodeFields(fs) + end == Tag(1, BYTES) + AppendVarint(|fs[0].bytes|) + fs[0].bytes + (EncodeFields(fs[1..]) + end)
  {
    hide Tag, AppendVarint;
  }

  /** A field number out of range, an end of group that nothing started, and the reserved
      wire types 6 and 7 make the message fail. */
  lemma BadTagFails(num: nat, typ: nat, rest: Bytes, data: Bytes)
    requires typ < 8 && 8 * num + typ < UINT64
    requires num == 0 || num > 0x1fff_ffff || typ == END_GROUP || typ == 6 || typ == 7
    ensures DecodeChunk(Tag(num, typ) + rest, data).Failure?
  {
    hide FieldLength, AppendVarint, ConsumeBytes;
    UInt64FitsVarint();
    VarintRoundTrip(8 * num + typ, rest, 0);
    var b, n := Tag(num, typ) + rest, |Tag(num, typ)|;
    assert (8 * num + typ) / 8 == num && (8 * num + typ) % 8 == typ;
    ReservedFails(num, typ, b[n..]);
  }

  lemma ReservedFails(num: int, typ: int, b: Bytes)
    ensures typ == 6 || typ == 7 ==> FieldLength(num, typ, b, RECURSION_LIMIT).Bad?
  {
  }

  /** Inside a group a tag fails it if its field number is 0 or does not fit 31 bits, if its
      type is reserved, or if it ends another group. */
  predicate BreaksGroup(num: nat, num2: nat, typ2: nat)
  {
    num2 == 0 || num2 > 0x7fff_ffff || typ2 == 6 || typ2 == 7 || (typ2 == END_GROUP && num2 != num)
  }

  lemma TagBreaksGroup(num: nat, num2: nat, typ2: nat, rest: Bytes, depth: int)
    requires typ2 < 8 && 8 * num2 + typ2 < UINT64 && BreaksGroup(num, num2, typ2)
    ensures GroupLength(num, Tag(num2, typ2) + rest, depth).Bad?
  {
    hide AppendVarint;
    UInt64FitsVarint();
    VarintRoundTrip(8 * num2 + typ2, rest, 0);
    assert (8 * num2 + typ2) / 8 == num2 && (8 * num2 + typ2) % 8 == typ2;
  }

  /** A group with such a tag after any fields fails, and so does the message. */
  lemma {:induction false} BrokenGroupFails(num: nat, fs: seq<Field>, num2: nat, typ2: nat, rest: Bytes, depth: int)
    requires ValidFields(fs) && typ2 < 8 && 8 * num2 + typ2 < UINT64 && BreaksGroup(num, num2, typ2) && depth >= 0
    ensures GroupLength(num, EncodeFields(fs) + (Tag(num2, typ2) + rest), depth).Bad?
    decreases |fs|
  {
    hide GroupLength, Tag, EncodeValue, Nesting, BreaksGroup;
    var end := Tag(num2, typ2) + rest;
    if fs == [] {
      assert EncodeFields(fs) + end == end;
      TagBreaksGroup(num, num2, typ2, rest, depth);
    } else {
      BrokenGroupFails(num, fs[1..], num2, typ2, rest, depth);
      SkipsInGroup(num, fs[0], EncodeFields(fs[1..]) + end, depth);
      assert EncodeFields(fs) + end == Tag(fs[0].num, WireType(fs[0])) + (EncodeValue(fs[0]) + (EncodeFields(fs[1..]) + end));
    }
  }

  lemma BrokenGroupFailsMessage(num: nat, fs: seq<Field>, num2: nat, typ2: nat, rest: Bytes, data: Bytes)
    requires 1 <= num <= 0x1fff_ffff && ValidFields(fs) && typ2 < 8 && 8 * num2 + typ2 < UINT64 && BreaksGroup(num, num2, typ2)
    ensures DecodeChunk(Tag(num, START_GROUP) + (EncodeFields(fs) + (Tag(num2, typ2) + rest)), data).Failure?
  {
    hide GroupLength, Tag, BreaksGroup, EncodeFields;
    var tag, value := Tag(num, START_GROUP), EncodeFields(fs) + (Tag(num2, typ2) + rest);
    TagRoundTrip(num, START_GROUP, value);
    assert (tag + value)[|tag|..] == value;
    BrokenGroupFails(num, fs, num2, typ2, rest, RECURSION_LIMIT);
  }
}
