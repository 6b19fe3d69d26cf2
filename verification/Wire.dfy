/** The record layer of the Protocol Buffers encoding: base-128 varints, tags, and the five
    kinds of record, including groups, which nest. */
module Wire {
  import opened Options

  type Byte = n: nat | n < 256

  /** Every length is below 2 GiB. */
  const MAX_LENGTH: nat := 0x7FFF_FFFF
  const TWO_TO_THE_64: nat := 0x1_0000_0000_0000_0000
  const MAX_NUMBER: nat := 0x1FFF_FFFF

  /** A record; the fixed-width kinds keep their bytes. */
  datatype Field =
    | Varint(number: nat, value: nat)
    | Fixed64(number: nat, bits: seq<Byte>)
    | Len(number: nat, payload: seq<Byte>)
    | Group(number: nat, fields: seq<Field>)
    | Fixed32(number: nat, bits: seq<Byte>)

  /** What a reader finds at the front of the input, and what follows it. */
  datatype Read<T> = Got(value: T, rest: seq<Byte>) | Bad

  /** The records up to the end of the input, or up to a tag that ends a group; or malformed
      input. */
  datatype Records = Records(fields: seq<Field>, stop: Option<nat>, rest: seq<Byte>) | Broken

  // ---------- Varints ----------

  function EncodeVarint(n: nat): (r: seq<Byte>)
    ensures |r| > 0
  {
    if n < 128 then [n] else [n % 128 + 128] + EncodeVarint(n / 128)
  }

  function ReadVarint(s: seq<Byte>, limit: nat): (r: Read<nat>)
    ensures r.Got? ==> |r.rest| < |s|
    decreases limit
  {
    if s == [] || limit == 0 then Bad
    else if s[0] < 128 then Got(s[0], s[1..])
    else
      match ReadVarint(s[1..], limit - 1)
      case Got(high, rest) => Got(s[0] - 128 + 128 * high, rest)
      case Bad => Bad
  }

  function Power128(k: nat): nat {
    if k == 0 then 1 else 128 * Power128(k - 1)
  }

  /** The number written by the low seven bits of each byte, least significant first. */
  function Positional(s: seq<Byte>): nat {
    if s == [] then 0 else Positional(s[..|s| - 1]) + s[|s| - 1] % 128 * Power128(|s| - 1)
  }

  lemma {:induction false} PositionalFront(s: seq<Byte>)
    requires s != []
    ensures Positional(s) == s[0] % 128 + 128 * Positional(s[1..])
    decreases |s|
  {
    var init, last := s[..|s| - 1], s[|s| - 1] % 128;
    if init == [] {
      assert Positional(init) == 0 && Positional(s[1..]) == 0;
    } else {
      PositionalFront(init);
      assert init[1..] == s[1..][..|s| - 2];
      assert last * Power128(|s| - 1) == 128 * (last * Power128(|s| - 2));
    }
  }

  /** Bytes with the high bit set, then one without: the only shape of a varint. */
  predicate OneVarint(s: seq<Byte>) {
    && s != []
    && s[|s| - 1] < 128
    && forall i :: 0 <= i < |s| - 1 ==> s[i] >= 128
  }

  /** What is written is one varint of this value, without a superfluous last byte. */
  lemma {:induction false} VarintMeaning(n: nat)
    ensures var r := EncodeVarint(n);
            OneVarint(r) && Positional(r) == n && (|r| > 1 ==> r[|r| - 1] != 0)
  {
    var r := EncodeVarint(n);
    PositionalFront(r);
    if n < 128 {
      assert r[1..] == [];
    } else {
      VarintMeaning(n / 128);
      assert r[1..] == EncodeVarint(n / 128);
    }
  }

  /** Reading takes the one varint at the front and gives its value. */
  lemma {:induction false} ReadVarintMeaning(s: seq<Byte>, limit: nat) returns (k: nat)
    requires ReadVarint(s, limit).Got?
    ensures 0 < k <= limit && k <= |s| && OneVarint(s[..k])
    ensures ReadVarint(s, limit) == Got(Positional(s[..k]), s[k..])
    decreases limit
  {
    if s[0] < 128 {
      k := 1;
      assert s[..1][..0] == [];
    } else {
      var j := ReadVarintMeaning(s[1..], limit - 1);
      k := j + 1;
      assert s[..k][1..] == s[1..][..j];
      PositionalFront(s[..k]);
    }
  }

  lemma {:induction false} PowerGrows(k: nat)
    ensures k > 0 ==> Power128(k) >= 128
    ensures Power128(k) > 0
  {
    if k > 0 { PowerGrows(k - 1); }
  }

  /** Whatever follows, a varint of at most `limit` bytes reads back, and a longer one is
      refused. */
  lemma {:induction false} VarintRoundTrip(n: nat, t: seq<Byte>, limit: nat)
    requires limit > 0
    ensures ReadVarint(EncodeVarint(n) + t, limit) == if n < Power128(limit) then Got(n, t) else Bad
    decreases limit
  {
    var s := EncodeVarint(n) + t;
    PowerGrows(limit);
    if n < 128 {
      assert s == [n] + t;
    } else {
      assert s[1..] == EncodeVarint(n / 128) + t;
      if limit > 1 { VarintRoundTrip(n / 128, t, limit - 1); }
    }
  }

  /** A varint is read the same way when more bytes follow. */
  lemma {:induction false} VarintPrefix(s: seq<Byte>, t: seq<Byte>, limit: nat)
    requires ReadVarint(s, limit).Got?
    ensures var r := ReadVarint(s, limit); ReadVarint(s + t, limit) == Got(r.value, r.rest + t)
    decreases limit
  {
    if s[0] >= 128 {
      VarintPrefix(s[1..], t, limit - 1);
      assert (s + t)[1..] == s[1..] + t;
    } else {
      assert (s + t)[1..] == s[1..] + t;
    }
  }

  // ---------- Records ----------

  /** A tag has at most five bytes and 32 bits. */
  function ReadTag(s: seq<Byte>): (r: Read<nat>)
    ensures r.Got? ==> |r.rest| < |s|
  {
    match ReadVarint(s, 5)
    case Got(n, rest) => Got(n % 0x1_0000_0000, rest)
    case Bad => Bad
  }

  function ReadInt64(s: seq<Byte>): (r: Read<nat>)
    ensures r.Got? ==> |r.rest| < |s|
  {
    match ReadVarint(s, 10)
    case Got(n, rest) => Got(n % TWO_TO_THE_64, rest)
    case Bad => Bad
  }

  function ReadBytes(s: seq<Byte>, n: nat): (r: Read<seq<Byte>>)
    ensures r.Got? ==> |r.rest| <= |s|
  {
    if n <= |s| then Got(s[..n], s[n..]) else Bad
  }

  function ReadPayload(s: seq<Byte>): (r: Read<seq<Byte>>)
    ensures r.Got? ==> |r.rest| < |s|
  {
    match ReadVarint(s, 5)
    case Got(n, rest) => if n <= MAX_LENGTH then ReadBytes(rest, n) else Bad
    case Bad => Bad
  }

  /** The record that starts with `tag`; `depth` bounds the nesting. */
  function ReadField(tag: nat, s: seq<Byte>, depth: nat): (r: Read<Field>)
    ensures r.Got? ==> |r.rest| <= |s|
    decreases |s|, 1
  {
    var number := tag / 8;
    if number == 0 then Bad
    else if tag % 8 == 0 then
      match ReadInt64(s) case Got(n, rest) => Got(Varint(number, n), rest) case Bad => Bad
    else if tag % 8 == 1 then
      match ReadBytes(s, 8) case Got(b, rest) => Got(Fixed64(number, b), rest) case Bad => Bad
    else if tag % 8 == 2 then
      match ReadPayload(s) case Got(p, rest) => Got(Len(number, p), rest) case Bad => Bad
    else if tag % 8 == 3 then
      if depth == 0 then Bad
      else
        match ReadFields(s, depth - 1)
        case Records(fs, stop, rest) => if stop == Some(tag + 1) then Got(Group(number, fs), rest) else Bad
        case Broken => Bad
    else if tag % 8 == 5 then
      match ReadBytes(s, 4) case Got(b, rest) => Got(Fixed32(number, b), rest) case Bad => Bad
    else Bad
  }

  predicate Stops(tag: nat) {
    tag == 0 || tag % 8 == 4
  }

  function Prepend(fs: seq<Field>, r: Records): (p: Records)
  {
    match r
    case Records(more, stop, rest) => Records(fs + more, stop, rest)
    case Broken => Broken
  }

  function ReadFields(s: seq<Byte>, depth: nat): (r: Records)
    ensures r.Records? ==> |r.rest| <= |s| && (r.stop.None? ==> r.rest == [])
    decreases |s|, 0
  {
    if s == [] then Records([], None, [])
    else
      match ReadTag(s)
      case Bad => Broken
      case Got(tag, s1) =>
        if Stops(tag) then Records([], Some(tag), s1)
        else
          match ReadField(tag, s1, depth)
          case Bad => Broken
          case Got(f, s2) => Prepend([f], ReadFields(s2, depth))
  }

  function TagOf(f: Field): nat {
    8 * f.number + (match f case Varint(_, _) => 0 case Fixed64(_, _) => 1 case Len(_, _) => 2 case Group(_, _) => 3
                            case Fixed32(_, _) => 5)
  }

  function Encode(f: Field): (r: seq<Byte>)
    ensures |r| > 0
    decreases f, 1
  {
    EncodeVarint(TagOf(f)) + Body(f)
  }

  /** What follows the tag. */
  function Body(f: Field): seq<Byte>
    decreases f, 0
  {
    match f
    case Varint(_, n) => EncodeVarint(n)
    case Fixed64(_, b) => b
    case Len(_, p) => EncodeVarint(|p|) + p
    case Group(number, fs) => EncodeFields(fs) + EncodeVarint(8 * number + 4)
    case Fixed32(_, b) => b
  }

  function EncodeFields(fs: seq<Field>): seq<Byte>
    decreases fs, 2
  {
    if fs == [] then [] else Encode(fs[0]) + EncodeFields(fs[1..])
  }

  /** The records that a reader with this much depth can produce. */
  predicate GoodField(f: Field, depth: nat)
    decreases f, 0
  {
    && 1 <= f.number <= MAX_NUMBER
    && match f
       case Varint(_, n) => n < TWO_TO_THE_64
       case Fixed64(_, b) => |b| == 8
       case Len(_, p) => |p| <= MAX_LENGTH
       case Group(_, fs) => depth > 0 && GoodFields(fs, depth - 1)
       case Fixed32(_, b) => |b| == 4
  }

  predicate GoodFields(fs: seq<Field>, depth: nat)
    decreases fs, 1
  {
    fs == [] || (GoodField(fs[0], depth) && GoodFields(fs[1..], depth))
  }

  // ---------- Reading what was written ----------

  lemma Powers()
    ensures Power128(5) == 0x8_0000_0000
    ensures Power128(10) == 64 * TWO_TO_THE_64
  {}

  lemma FiveBytes(n: nat, t: seq<Byte>)
    ensures ReadVarint(EncodeVarint(n) + t, 5) == if n < 0x8_0000_0000 then Got(n, t) else Bad
  {
    Powers();
    VarintRoundTrip(n, t, 5);
  }

  lemma TagRoundTrip(tag: nat, t: seq<Byte>)
    requires tag < 0x1_0000_0000
    ensures ReadTag(EncodeVarint(tag) + t) == Got(tag, t)
  {
    FiveBytes(tag, t);
  }

  lemma Int64RoundTrip(n: nat, t: seq<Byte>)
    requires n < TWO_TO_THE_64
    ensures ReadInt64(EncodeVarint(n) + t) == Got(n, t)
  {
    Powers();
    VarintRoundTrip(n, t, 10);
  }

  lemma BytesRoundTrip(b: seq<Byte>, t: seq<Byte>)
    ensures ReadBytes(b + t, |b|) == Got(b, t)
  {}

  lemma Regroup(a: seq<Byte>, b: seq<Byte>, c: seq<Byte>)
    ensures a + b + c == a + (b + c)
  {}

  lemma LengthRoundTrip(n: nat, s: seq<Byte>)
    ensures ReadPayload(EncodeVarint(n) + s) == if n <= MAX_LENGTH then ReadBytes(s, n) else Bad
  {
    FiveBytes(n, s);
  }

  lemma PayloadRoundTrip(p: seq<Byte>, t: seq<Byte>)
    ensures ReadPayload(EncodeVarint(|p|) + p + t) == if |p| <= MAX_LENGTH then Got(p, t) else Bad
  {
    Regroup(EncodeVarint(|p|), p, t);
    LengthRoundTrip(|p|, p + t);
    if |p| <= MAX_LENGTH { BytesRoundTrip(p, t); }
  }

  lemma StopRoundTrip(tag: nat, t: seq<Byte>, depth: nat)
    requires Stops(tag) && tag < 0x1_0000_0000
    ensures ReadFields(EncodeVarint(tag) + t, depth) == Records([], Some(tag), t)
  {
    TagRoundTrip(tag, t);
  }

  lemma {:induction false} GroupRoundTrip(number: nat, fs: seq<Field>, t: seq<Byte>, depth: nat)
    requires GoodFields(fs, depth) && number <= MAX_NUMBER
    ensures ReadFields(EncodeFields(fs) + EncodeVarint(8 * number + 4) + t, depth)
            == Records(fs, Some(8 * number + 4), t)
    decreases fs, 2
  {
    var rest := EncodeVarint(8 * number + 4) + t;
    assert EncodeFields(fs) + EncodeVarint(8 * number + 4) + t == EncodeFields(fs) + rest;
    StopRoundTrip(8 * number + 4, t, depth);
    FieldsRoundTrip(fs, rest, depth);
    assert fs + [] == fs;
  }

  lemma TagParts(f: Field)
    ensures TagOf(f) / 8 == f.number
    ensures TagOf(f) % 8 == match f case Varint(_, _) => 0 case Fixed64(_, _) => 1 case Len(_, _) => 2
                                    case Group(_, _) => 3 case Fixed32(_, _) => 5
  {}

  lemma NumberRoundTrip(f: Field, t: seq<Byte>, depth: nat)
    requires GoodField(f, depth) && f.Varint?
    ensures ReadField(TagOf(f), Body(f) + t, depth) == Got(f, t)
  {
    TagParts(f);
    Int64RoundTrip(f.value, t);
  }

  lemma FixedRoundTrip(f: Field, t: seq<Byte>, depth: nat)
    requires GoodField(f, depth) && (f.Fixed64? || f.Fixed32?)
    ensures ReadField(TagOf(f), Body(f) + t, depth) == Got(f, t)
  {
    TagParts(f);
    BytesRoundTrip(f.bits, t);
  }

  lemma LenRoundTrip(f: Field, t: seq<Byte>, depth: nat)
    requires GoodField(f, depth) && f.Len?
    ensures ReadField(TagOf(f), Body(f) + t, depth) == Got(f, t)
  {
    TagParts(f);
    PayloadRoundTrip(f.payload, t);
  }

  lemma {:induction false} FieldRoundTrip(f: Field, t: seq<Byte>, depth: nat)
    requires GoodField(f, depth)
    ensures ReadField(TagOf(f), Body(f) + t, depth) == Got(f, t)
    decreases f, 0
  {
    match f
    case Varint(_, _) => NumberRoundTrip(f, t, depth);
    case Len(_, _) => LenRoundTrip(f, t, depth);
    case Group(number, fs) =>
      TagParts(f);
      GroupRoundTrip(number, fs, t, depth - 1);
    case Fixed64(_, _) | Fixed32(_, _) => FixedRoundTrip(f, t, depth);
  }

  lemma HeadRoundTrip(f: Field, s: seq<Byte>, depth: nat)
    requires f.number <= MAX_NUMBER && !Stops(TagOf(f)) && ReadField(TagOf(f), Body(f) + s, depth) == Got(f, s)
    ensures ReadFields(EncodeVarint(TagOf(f)) + (Body(f) + s), depth) == Prepend([f], ReadFields(s, depth))
  {
    TagRoundTrip(TagOf(f), Body(f) + s);
  }

  lemma PrependNone(r: Records)
    ensures Prepend([], r) == r
  {}

  lemma PrependTwice(a: seq<Field>, b: seq<Field>, r: Records)
    ensures Prepend(a, Prepend(b, r)) == Prepend(a + b, r)
  {}

  /** Records that were written are read back, whatever follows them. */
  lemma {:induction false} FieldsRoundTrip(fs: seq<Field>, t: seq<Byte>, depth: nat)
    requires GoodFields(fs, depth)
    ensures ReadFields(EncodeFields(fs) + t, depth) == Prepend(fs, ReadFields(t, depth))
    decreases fs, 1
  {
    if fs == [] {
      assert EncodeFields(fs) + t == t;
      PrependNone(ReadFields(t, depth));
    } else {
      var f, s := fs[0], EncodeFields(fs[1..]) + t;
      assert EncodeFields(fs) + t == EncodeVarint(TagOf(f)) + (Body(f) + s);
      FieldRoundTrip(f, s, depth);
      HeadRoundTrip(f, s, depth);
      FieldsRoundTrip(fs[1..], t, depth);
      PrependTwice([f], fs[1..], ReadFields(t, depth));
      assert [f] + fs[1..] == fs;
    }
  }

  lemma BadHead(tag: nat, s: seq<Byte>, depth: nat)
    requires tag < 0x1_0000_0000 && !Stops(tag) && ReadField(tag, s, depth) == Bad
    ensures ReadFields(EncodeVarint(tag) + s, depth) == Broken
  {
    TagRoundTrip(tag, s);
  }

  /** A payload of 2 GiB or more can be written but not read. */
  lemma LongPayloadBreaks(number: nat, p: seq<Byte>, t: seq<Byte>, depth: nat)
    requires 1 <= number <= MAX_NUMBER && |p| > MAX_LENGTH
    ensures ReadFields(Encode(Len(number, p)) + t, depth) == Broken
  {
    var f := Len(number, p);
    assert Encode(f) + t == EncodeVarint(TagOf(f)) + (Body(f) + t);
    PayloadRoundTrip(p, t);
    BadHead(TagOf(f), Body(f) + t, depth);
  }

  // ---------- Everything read is good, and reads the same with more input behind it ----------

  lemma {:induction false} ReadFieldGood(tag: nat, s: seq<Byte>, depth: nat)
    requires tag < 0x1_0000_0000 && ReadField(tag, s, depth).Got?
    ensures GoodField(ReadField(tag, s, depth).value, depth) && TagOf(ReadField(tag, s, depth).value) == tag
    decreases |s|, 1
  {
    if tag % 8 == 3 { ReadFieldsGood(s, depth - 1); }
  }

  lemma {:induction false} ReadFieldsGood(s: seq<Byte>, depth: nat)
    requires ReadFields(s, depth).Records?
    ensures GoodFields(ReadFields(s, depth).fields, depth)
    decreases |s|, 0
  {
    if s != [] {
      var tag, s1 := ReadTag(s).value, ReadTag(s).rest;
      if !Stops(tag) {
        ReadFieldGood(tag, s1, depth);
        var f, s2 := ReadField(tag, s1, depth).value, ReadField(tag, s1, depth).rest;
        ReadFieldsGood(s2, depth);
        var more := ReadFields(s2, depth).fields;
        assert ([f] + more)[1..] == more;
      }
    }
  }

  lemma BytesPrefix(s: seq<Byte>, t: seq<Byte>, n: nat)
    requires n <= |s|
    ensures (s + t)[..n] == s[..n] && (s + t)[n..] == s[n..] + t
  {}

  lemma Int64Prefix(s: seq<Byte>, t: seq<Byte>)
    requires ReadInt64(s).Got?
    ensures ReadInt64(s + t) == Got(ReadInt64(s).value, ReadInt64(s).rest + t)
  {
    VarintPrefix(s, t, 10);
  }

  lemma PayloadPrefix(s: seq<Byte>, t: seq<Byte>)
    requires ReadPayload(s).Got?
    ensures ReadPayload(s + t) == Got(ReadPayload(s).value, ReadPayload(s).rest + t)
  {
    VarintPrefix(s, t, 5);
    BytesPrefix(ReadVarint(s, 5).rest, t, ReadVarint(s, 5).value);
  }

  lemma {:induction false} FieldPrefix(tag: nat, s: seq<Byte>, t: seq<Byte>, depth: nat)
    requires ReadField(tag, s, depth).Got?
    ensures var r := ReadField(tag, s, depth); ReadField(tag, s + t, depth) == Got(r.value, r.rest + t)
    decreases |s|, 1
  {
    var kind := tag % 8;
    if kind == 0 {
      Int64Prefix(s, t);
    } else if kind == 2 {
      PayloadPrefix(s, t);
    } else if kind == 3 {
      FieldsPrefix(s, t, depth - 1);
    } else {
      BytesPrefix(s, t, if kind == 1 then 8 else 4);
    }
  }

  /** Input behind a complete list of records is read after them; input behind the end of a
      group is left alone. */
  lemma {:induction false} FieldsPrefix(s: seq<Byte>, t: seq<Byte>, depth: nat)
    requires ReadFields(s, depth).Records?
    ensures var r := ReadFields(s, depth);
            ReadFields(s + t, depth) ==
              if r.stop.None? then Prepend(r.fields, ReadFields(t, depth)) else Records(r.fields, r.stop, r.rest + t)
    decreases |s|, 0
  {
    if s == [] {
      assert s + t == t;
      PrependNone(ReadFields(t, depth));
    } else {
      VarintPrefix(s, t, 5);
      var tag, s1 := ReadTag(s).value, ReadTag(s).rest;
      if !Stops(tag) {
        FieldPrefix(tag, s1, t, depth);
        var f, s2 := ReadField(tag, s1, depth).value, ReadField(tag, s1, depth).rest;
        FieldsPrefix(s2, t, depth);
        PrependTwice([f], ReadFields(s2, depth).fields, ReadFields(t, depth));
      }
    }
  }

  // ---------- Lists of records ----------

  lemma {:induction false} EncodeAppend(a: seq<Field>, b: seq<Field>)
    ensures EncodeFields(a + b) == EncodeFields(a) + EncodeFields(b)
  {
    if a == [] {
      assert a + b == b;
    } else {
      assert (a + b)[1..] == a[1..] + b;
      EncodeAppend(a[1..], b);
    }
  }

  lemma {:induction false} GoodAppend(a: seq<Field>, b: seq<Field>, depth: nat)
    ensures GoodFields(a + b, depth) <==> GoodFields(a, depth) && GoodFields(b, depth)
  {
    if a == [] {
      assert a + b == b;
    } else {
      assert (a + b)[1..] == a[1..] + b;
      GoodAppend(a[1..], b, depth);
    }
  }

  // ---------- Sizes ----------

  function VarintSize(n: nat): nat {
    if n < 128 then 1 else 1 + VarintSize(n / 128)
  }

  lemma {:induction false} VarintSizeIsLength(n: nat)
    ensures VarintSize(n) == |EncodeVarint(n)|
  {
    if n >= 128 { VarintSizeIsLength(n / 128); }
  }

  function FieldSize(f: Field): nat
    decreases f, 0
  {
    VarintSize(TagOf(f)) +
    match f
    case Varint(_, n) => VarintSize(n)
    case Fixed64(_, b) => |b|
    case Len(_, p) => VarintSize(|p|) + |p|
    case Group(number, fs) => FieldsSize(fs) + VarintSize(8 * number + 4)
    case Fixed32(_, b) => |b|
  }

  function FieldsSize(fs: seq<Field>): nat
    decreases fs, 1
  {
    if fs == [] then 0 else FieldSize(fs[0]) + FieldsSize(fs[1..])
  }

  lemma {:induction false} FieldSizeIsLength(f: Field)
    ensures FieldSize(f) == |Encode(f)|
    decreases f, 0
  {
    VarintSizeIsLength(TagOf(f));
    match f
    case Varint(_, n) => VarintSizeIsLength(n);
    case Len(_, p) => VarintSizeIsLength(|p|);
    case Group(number, fs) =>
      VarintSizeIsLength(8 * number + 4);
      FieldsSizeIsLength(fs);
    case Fixed64(_, _) | Fixed32(_, _) =>
  }

  lemma {:induction false} FieldsSizeIsLength(fs: seq<Field>)
    ensures FieldsSize(fs) == |EncodeFields(fs)|
    decreases fs, 1
  {
    if fs != [] {
      FieldSizeIsLength(fs[0]);
      FieldsSizeIsLength(fs[1..]);
    }
  }

  lemma {:induction false} VarintLength(n: nat, limit: nat)
    requires n < Power128(limit) && limit > 0
    ensures |EncodeVarint(n)| <= limit
    decreases limit
  {
    if n >= 128 { VarintLength(n / 128, limit - 1); }
  }

  // ---------- Rewriting never needs more bytes than were read ----------

  lemma {:induction false} VarintMonotone(a: nat, b: nat)
    requires a <= b
    ensures |EncodeVarint(a)| <= |EncodeVarint(b)|
    decreases b
  {
    if a >= 128 { VarintMonotone(a / 128, b / 128); }
  }

  lemma {:induction false} VarintShrinks(s: seq<Byte>, limit: nat)
    requires ReadVarint(s, limit).Got?
    ensures |EncodeVarint(ReadVarint(s, limit).value)| + |ReadVarint(s, limit).rest| <= |s|
    decreases limit
  {
    if s[0] >= 128 { VarintShrinks(s[1..], limit - 1); }
  }

  lemma TagShrinks(s: seq<Byte>)
    requires ReadTag(s).Got?
    ensures |EncodeVarint(ReadTag(s).value)| + |ReadTag(s).rest| <= |s|
  {
    VarintShrinks(s, 5);
    VarintMonotone(ReadTag(s).value, ReadVarint(s, 5).value);
  }

  lemma {:induction false} FieldShrinks(tag: nat, s: seq<Byte>, depth: nat)
    requires tag < 0x1_0000_0000 && ReadField(tag, s, depth).Got?
    ensures var r := ReadField(tag, s, depth); |Body(r.value)| + |r.rest| <= |s|
    decreases |s|, 1
  {
    var kind := tag % 8;
    if kind == 0 {
      VarintShrinks(s, 10);
      VarintMonotone(ReadInt64(s).value, ReadVarint(s, 10).value);
    } else if kind == 2 {
      VarintShrinks(s, 5);
    } else if kind == 3 {
      FieldsShrink(s, depth - 1);
    }
  }

  lemma {:induction false} FieldsShrink(s: seq<Byte>, depth: nat)
    requires ReadFields(s, depth).Records?
    ensures var r := ReadFields(s, depth);
            |EncodeFields(r.fields)| + (if r.stop.Some? then |EncodeVarint(r.stop.value)| else 0) + |r.rest| <= |s|
    decreases |s|, 0
  {
    if s != [] {
      TagShrinks(s);
      var tag, s1 := ReadTag(s).value, ReadTag(s).rest;
      if !Stops(tag) {
        FieldShrinks(tag, s1, depth);
        ReadFieldGood(tag, s1, depth);
        var f, s2 := ReadField(tag, s1, depth).value, ReadField(tag, s1, depth).rest;
        FieldsShrink(s2, depth);
        assert ([f] + ReadFields(s2, depth).fields)[1..] == ReadFields(s2, depth).fields;
      }
    }
  }
}
