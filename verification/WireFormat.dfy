/** The format of the messages in its own numbers: which bytes stand for which field, how long and how
    deep a message may be, and how numbers are represented. */
module WireFormats {
  import opened Options
  import opened Texts
  import opened Wire
  import opened Messages

  // ---------- Which bytes ----------

  function TextRecord(tag: Byte, s: seq<Byte>): seq<Byte> {
    if s == [] then [] else [tag] + EncodeVarint(|s|) + s
  }

  function NumberRecord(tag: Byte, i: int): seq<Byte>
    requires -0x8000_0000_0000_0000 <= i
  {
    if i == 0 then [] else [tag] + EncodeVarint(if i > 0 then i else i + 0x1_0000_0000_0000_0000)
  }

  lemma OneField(f: Field)
    ensures EncodeFields([f]) == EncodeVarint(TagOf(f)) + Body(f)
  {
    assert EncodeFields([f]) == Encode(f) + [];
  }

  lemma TextOnTheWire(number: nat, s: seq<Byte>)
    requires 1 <= number < 16
    ensures EncodeFields(Text(number, s)) == TextRecord(8 * number + 2, s)
  {
    if s != [] {
      OneField(Len(number, s));
      assert EncodeVarint(8 * number + 2) == [8 * number + 2];
      assert [8 * number + 2] + (EncodeVarint(|s|) + s) == [8 * number + 2] + EncodeVarint(|s|) + s;
    }
  }

  lemma NumberOnTheWire(number: nat, i: int)
    requires 1 <= number < 16 && -0x8000_0000_0000_0000 <= i < 0x8000_0000_0000_0000
    ensures EncodeFields(if i != 0 then [Varint(number, FromInt(i))] else []) == NumberRecord(8 * number, i)
  {
    if i != 0 {
      OneField(Varint(number, FromInt(i)));
      assert EncodeVarint(8 * number) == [8 * number];
    }
  }

  /** Seconds under tag 8, nanoseconds under tag 16, then what the parser did not know. */
  lemma TimeOnTheWire(t: Time)
    requires -0x8000_0000_0000_0000 <= t.seconds < 0x8000_0000_0000_0000
    requires -0x8000_0000 <= t.nanos < 0x8000_0000
    ensures EncodeFields(TimeFields(t))
            == NumberRecord(8, t.seconds) + NumberRecord(16, t.nanos) + EncodeFields(t.unknown)
  {
    var s := if t.seconds != 0 then [Varint(1, FromInt(t.seconds))] else [];
    var n := if t.nanos != 0 then [Varint(2, FromInt(t.nanos))] else [];
    NumberOnTheWire(1, t.seconds);
    NumberOnTheWire(2, t.nanos);
    EncodeAppend(s + n, t.unknown);
    EncodeAppend(s, n);
  }

  function StampRecord(t: Option<Time>): seq<Byte>
    requires t.Some? ==> InRange(t.value)
  {
    if t.None? then []
    else
      var p := EncodeFields(TimeFields(t.value));
      [26] + EncodeVarint(|p|) + p
  }

  lemma StampOnTheWire(t: Option<Time>)
    requires t.Some? ==> InRange(t.value)
    ensures EncodeFields(Stamp(t)) == StampRecord(t)
  {
    if t.Some? {
      var p := EncodeFields(TimeFields(t.value));
      OneField(Len(3, p));
      assert EncodeVarint(26) == [26];
      assert [26] + (EncodeVarint(|p|) + p) == [26] + EncodeVarint(|p|) + p;
    }
  }

  lemma FourParts(a: seq<Field>, b: seq<Field>, c: seq<Field>, d: seq<Field>)
    ensures EncodeFields(a + b + c + d) == EncodeFields(a) + EncodeFields(b) + EncodeFields(c) + EncodeFields(d)
  {
    EncodeAppend(a + b + c, d);
    EncodeAppend(a + b, c);
    EncodeAppend(a, b);
  }

  /** The topic under tag 10, the data under 18, the timestamp under 26, each only if it is there. */
  lemma DataOnTheWire(m: Data)
    requires m.timestamp.Some? ==> InRange(m.timestamp.value)
    ensures SerializeData(m)
            == TextRecord(10, m.topic) + TextRecord(18, m.data) + StampRecord(m.timestamp) + EncodeFields(m.unknown)
  {
    FourParts(Text(1, m.topic), Text(2, m.data), Stamp(m.timestamp), m.unknown);
    TextOnTheWire(1, m.topic);
    TextOnTheWire(2, m.data);
    StampOnTheWire(m.timestamp);
  }

  /** The topic of a request under tag 18. */
  lemma RequestOnTheWire(m: Request)
    ensures SerializeRequest(m) == TextRecord(18, m.topic) + EncodeFields(m.unknown)
  {
    EncodeAppend(Text(2, m.topic), m.unknown);
    TextOnTheWire(2, m.topic);
  }

  /** The kinds of the records that a parser keeps without knowing them. */
  lemma KindsOnTheWire(number: nat, n: nat, b: seq<Byte>, fs: seq<Field>)
    ensures Encode(Varint(number, n)) == EncodeVarint(8 * number) + EncodeVarint(n)
    ensures Encode(Fixed64(number, b)) == EncodeVarint(8 * number + 1) + b
    ensures Encode(Len(number, b)) == EncodeVarint(8 * number + 2) + (EncodeVarint(|b|) + b)
    ensures Encode(Group(number, fs))
            == EncodeVarint(8 * number + 3) + (EncodeFields(fs) + EncodeVarint(8 * number + 4))
    ensures Encode(Fixed32(number, b)) == EncodeVarint(8 * number + 5) + b
  {}

  // ---------- Numbers ----------

  /** What a parsed number means: 64 bits for the seconds and the low 32 for the nanoseconds, in two's
      complement. */
  lemma TwosComplement(n: nat)
    requires n < 0x1_0000_0000_0000_0000
    ensures -0x8000_0000_0000_0000 <= ToInt64(n) < 0x8000_0000_0000_0000
    ensures ToInt64(n) == n || ToInt64(n) == n - 0x1_0000_0000_0000_0000
    ensures -0x8000_0000 <= ToInt32(n) < 0x8000_0000 && (n - ToInt32(n)) % 0x1_0000_0000 == 0
    ensures ApplyTime(NO_TIME, Varint(1, n)) == Time(ToInt64(n), 0, [])
    ensures ApplyTime(NO_TIME, Varint(2, n)) == Time(0, ToInt32(n), [])
  {}

  // ---------- How long ----------

  lemma TextIsShorter(number: nat, s: seq<Byte>)
    ensures |s| <= |EncodeFields(Text(number, s))|
  {
    if s != [] { OneField(Len(number, s)); }
  }

  lemma PartsAreShorter(m: Data)
    requires m.timestamp.Some? ==> InRange(m.timestamp.value)
    ensures |m.topic| <= |SerializeData(m)| && |m.data| <= |SerializeData(m)|
    ensures m.timestamp.Some? ==> |EncodeFields(TimeFields(m.timestamp.value))| <= |SerializeData(m)|
  {
    DataOnTheWire(m);
  }

  /** A message whose fields are all known, with numbers of 64 and 32 bits, is one the results on
      good messages speak of. */
  lemma KnownIsGood(m: Data)
    requires m.unknown == []
    requires m.timestamp.Some? ==>
               var t := m.timestamp.value;
               t.unknown == [] && -0x8000_0000_0000_0000 <= t.seconds < 0x8000_0000_0000_0000
               && -0x8000_0000 <= t.nanos < 0x8000_0000
    ensures GoodData(m)
  {}

  /** Whatever takes less than 2 GiB in all reads back ... */
  lemma DataBelowTwoGiB(m: Data)
    requires GoodData(m) && Utf8(m.topic) && Utf8(m.data) && |SerializeData(m)| < 0x8000_0000
    ensures ParseData(NO_DATA, SerializeData(m)) == Some(m)
  {
    PartsAreShorter(m);
    DataRoundTrip(m);
  }

  /** ... and a message with a text or a timestamp of 2 GiB is refused. */
  lemma DataFromTwoGiB(m: Data)
    requires GoodData(m)
    requires || |m.topic| >= 0x8000_0000 || |m.data| >= 0x8000_0000
             || (m.timestamp.Some? && |EncodeFields(TimeFields(m.timestamp.value))| >= 0x8000_0000)
    ensures ParseData(NO_DATA, SerializeData(m)) == None
  {
    DataRoundTrip(m);
  }

  lemma RequestBelowTwoGiB(m: Request)
    requires GoodRequest(m) && Utf8(m.topic) && |SerializeRequest(m)| < 0x8000_0000
    ensures ParseRequest(NO_REQUEST, SerializeRequest(m)) == Some(m)
  {
    RequestOnTheWire(m);
    RequestRoundTrip(m);
  }

  lemma RequestFromTwoGiB(m: Request)
    requires GoodRequest(m) && |m.topic| >= 0x8000_0000
    ensures ParseRequest(NO_REQUEST, SerializeRequest(m)) == None
  {
    RequestRoundTrip(m);
  }

  // ---------- How deep ----------

  /** n groups inside each other, with a number in the innermost. */
  function Nest(n: nat): Field {
    if n == 0 then Varint(15, 0) else Group(15, [Nest(n - 1)])
  }

  lemma {:induction false} NestIsGood(n: nat, depth: nat)
    ensures n <= depth ==> GoodField(Nest(n), depth)
  {
    if 0 < n <= depth { NestIsGood(n - 1, depth - 1); }
  }

  lemma {:induction false} NestIsTooDeep(n: nat, depth: nat, t: seq<Byte>)
    requires n > depth
    ensures ReadFields(EncodeFields([Nest(n)]) + t, depth) == Broken
    decreases n
  {
    var f, inner := Nest(n), [Nest(n - 1)];
    var s := EncodeVarint(124) + t;
    OneField(f);
    assert EncodeFields([f]) + t == EncodeVarint(123) + (EncodeFields(inner) + s);
    if depth > 0 { NestIsTooDeep(n - 1, depth - 1, s); }
    BadHead(123, EncodeFields(inner) + s, depth);
  }

  /** Groups may nest a hundred deep in a message, and no deeper. */
  lemma HundredDeep(n: nat)
    ensures ParseData(NO_DATA, EncodeFields([Nest(n)])).Some? <==> n <= 100
    ensures ParseRequest(NO_REQUEST, EncodeFields([Nest(n)])).Some? <==> n <= 100
  {
    var s := EncodeFields([Nest(n)]);
    assert s + [] == s;
    if n <= 100 {
      NestIsGood(n, 100);
      FieldsRoundTrip([Nest(n)], [], 100);
      assert [Nest(n)] + [] == [Nest(n)];
      OneRecord(NO_DATA, Nest(n));
      assert FoldRequest(NO_REQUEST, [Nest(n)]) == ApplyRequest(NO_REQUEST, Nest(n));
    } else {
      NestIsTooDeep(n, 100, []);
    }
  }

  // ---------- A message that a publisher sends ----------

  lemma {:induction false} AsciiIsUtf8(s: seq<Byte>)
    requires forall i :: 0 <= i < |s| ==> s[i] < 128
    ensures Utf8(s)
  {
    if s != [] { AsciiIsUtf8(s[1..]); }
  }

  lemma OneMoreByte(low: nat, high: nat)
    requires low < 128 && high > 0
    ensures EncodeVarint(low + 128 * high) == [low + 128] + EncodeVarint(high)
  {
    assert (low + 128 * high) / 128 == high && (low + 128 * high) % 128 == low;
  }

  lemma FiveByteVarint(a: nat, b: nat, c: nat, d: nat, e: nat)
    requires a < 128 && b < 128 && c < 128 && d < 128 && 0 < e < 128
    ensures EncodeVarint(a + 128 * (b + 128 * (c + 128 * (d + 128 * e)))) == [a + 128, b + 128, c + 128, d + 128, e]
  {
    OneMoreByte(d, e);
    OneMoreByte(c, d + 128 * e);
    OneMoreByte(b, c + 128 * (d + 128 * e));
    OneMoreByte(a, b + 128 * (c + 128 * (d + 128 * e)));
  }

  /** A timestamp with half a second, and a message as a publisher of topic "0" sends it, with the
      data "test". */
  predicate HalfSecond(t: Time) {
    t.seconds == 1_600_000_000 && t.nanos == 500_000_000 && t.unknown == []
  }

  predicate Sent(m: Data) {
    && m.topic == [48] && m.data == [116, 101, 115, 116] && m.unknown == []
    && m.timestamp.Some? && HalfSecond(m.timestamp.value)
  }

  lemma SentNumbers(seconds: int, nanos: int)
    requires seconds == 1_600_000_000 && nanos == 500_000_000
    ensures NumberRecord(8, seconds) == [8, 128, 160, 248, 250, 5]
    ensures NumberRecord(16, nanos) == [16, 128, 202, 181, 238, 1]
  {
    FiveByteVarint(0, 32, 120, 122, 5);
    FiveByteVarint(0, 74, 53, 110, 1);
    assert NumberRecord(8, seconds) == [8] + EncodeVarint(seconds);
    assert NumberRecord(16, nanos) == [16] + EncodeVarint(nanos);
  }

  lemma SentTime(t: Time)
    requires HalfSecond(t)
    ensures EncodeFields(TimeFields(t)) == [8, 128, 160, 248, 250, 5, 16, 128, 202, 181, 238, 1]
  {
    TimeOnTheWire(t);
    SentNumbers(t.seconds, t.nanos);
    assert EncodeFields(t.unknown) == [];
  }

  lemma SentTexts()
    ensures TextRecord(10, [48]) == [10, 1, 48]
    ensures TextRecord(18, [116, 101, 115, 116]) == [18, 4, 116, 101, 115, 116]
  {}

  lemma SentStamp(t: Time)
    requires HalfSecond(t)
    ensures StampRecord(Some(t)) == [26, 12, 8, 128, 160, 248, 250, 5, 16, 128, 202, 181, 238, 1]
  {
    SentTime(t);
    assert EncodeVarint(12) == [12];
  }

  lemma JoinedRecords(m: Data, topic: seq<Byte>, data: seq<Byte>, stamp: seq<Byte>)
    requires m.unknown == [] && (m.timestamp.Some? ==> InRange(m.timestamp.value))
    requires TextRecord(10, m.topic) == topic && TextRecord(18, m.data) == data && StampRecord(m.timestamp) == stamp
    ensures SerializeData(m) == topic + data + stamp
  {
    DataOnTheWire(m);
  }

  lemma SentOnTheWire(m: Data)
    requires Sent(m)
    ensures SerializeData(m) == [10, 1, 48, 18, 4, 116, 101, 115, 116,
                                 26, 12, 8, 128, 160, 248, 250, 5, 16, 128, 202, 181, 238, 1]
  {
    SentTexts();
    SentStamp(m.timestamp.value);
    JoinedRecords(m, [10, 1, 48], [18, 4, 116, 101, 115, 116],
                  [26, 12, 8, 128, 160, 248, 250, 5, 16, 128, 202, 181, 238, 1]);
  }

  /** The bytes of such a message, and what they are read as. */
  lemma SentIsReceived(m: Data)
    requires Sent(m)
    ensures ParseData(NO_DATA, [10, 1, 48, 18, 4, 116, 101, 115, 116,
                                26, 12, 8, 128, 160, 248, 250, 5, 16, 128, 202, 181, 238, 1]) == Some(m)
  {
    KnownIsGood(m);
    SentOnTheWire(m);
    AsciiIsUtf8(m.topic);
    AsciiIsUtf8(m.data);
    DataBelowTwoGiB(m);
  }
}
