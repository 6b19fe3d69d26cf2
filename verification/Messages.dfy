/** The messages of lab3 on the wire: TopicData with its nested Timestamp, and TopicRequest.
    Parsing folds the records of the input into a message; serializing writes the records of a
    message; merging combines two messages without any bytes. */
module Messages {
  import opened Options
  import opened Texts
  import opened Wire

  /** How deep messages and groups may nest. */
  const DEPTH: nat := 100
  const TWO_TO_THE_63: int := 0x8000_0000_0000_0000
  const TWO_TO_THE_31: int := 0x8000_0000
  const TWO_TO_THE_32: int := 0x1_0000_0000

  datatype Time = Time(seconds: int, nanos: int, unknown: seq<Field>)

  datatype Data = Data(topic: seq<Byte>, data: seq<Byte>, timestamp: Option<Time>, unknown: seq<Field>)

  datatype Request = Request(topic: seq<Byte>, unknown: seq<Field>)

  const NO_TIME := Time(0, 0, [])
  const NO_DATA := Data([], [], None, [])
  const NO_REQUEST := Request([], [])

  // ---------- Numbers ----------

  function ToInt64(n: nat): int {
    if n < TWO_TO_THE_63 then n else n - TWO_TO_THE_64
  }

  function ToInt32(n: nat): int {
    var m := n % TWO_TO_THE_32;
    if m < TWO_TO_THE_31 then m else m - TWO_TO_THE_32
  }

  /** Negative numbers are written in two's complement with 64 bits, whatever their width. */
  function FromInt(i: int): nat
    requires -TWO_TO_THE_63 <= i < TWO_TO_THE_63
  {
    if i >= 0 then i else i + TWO_TO_THE_64
  }

  // ---------- Parsing ----------

  function ApplyTime(t: Time, f: Field): Time {
    if f.Varint? && f.number == 1 then t.(seconds := ToInt64(f.value))
    else if f.Varint? && f.number == 2 then t.(nanos := ToInt32(f.value))
    else t.(unknown := t.unknown + [f])
  }

  function FoldTime(t: Time, fs: seq<Field>): Time
    decreases |fs|
  {
    if fs == [] then t else FoldTime(ApplyTime(t, fs[0]), fs[1..])
  }

  function ParseTime(t: Time, s: seq<Byte>, depth: nat): Option<Time> {
    match ReadFields(s, depth)
    case Records(fs, stop, _) => if stop.None? then Some(FoldTime(t, fs)) else None
    case Broken => None
  }

  function OrNoTime(t: Option<Time>): Time {
    if t.Some? then t.value else NO_TIME
  }

  /** A record of a known number but another kind is unknown, too. */
  function ApplyData(m: Data, f: Field): Option<Data> {
    if f.Len? && f.number == 1 then if Utf8(f.payload) then Some(m.(topic := f.payload)) else None
    else if f.Len? && f.number == 2 then if Utf8(f.payload) then Some(m.(data := f.payload)) else None
    else if f.Len? && f.number == 3 then
      match ParseTime(OrNoTime(m.timestamp), f.payload, DEPTH - 1)
      case Some(t) => Some(m.(timestamp := Some(t)))
      case None => None
    else Some(m.(unknown := m.unknown + [f]))
  }

  function FoldData(m: Data, fs: seq<Field>): Option<Data>
    decreases |fs|
  {
    if fs == [] then Some(m)
    else
      match ApplyData(m, fs[0])
      case Some(n) => FoldData(n, fs[1..])
      case None => None
  }

  /** Parse the whole input into m; an input that stops at a tag of its own is refused. */
  function ParseData(m: Data, s: seq<Byte>): Option<Data> {
    match ReadFields(s, DEPTH)
    case Records(fs, stop, _) => if stop.None? then FoldData(m, fs) else None
    case Broken => None
  }

  // ---------- Serializing ----------

  predicate InRange(t: Time) {
    -TWO_TO_THE_63 <= t.seconds < TWO_TO_THE_63 && -TWO_TO_THE_31 <= t.nanos < TWO_TO_THE_31
  }

  function TimeFields(t: Time): seq<Field>
    requires InRange(t)
  {
    (if t.seconds != 0 then [Varint(1, FromInt(t.seconds))] else [])
    + (if t.nanos != 0 then [Varint(2, FromInt(t.nanos))] else [])
    + t.unknown
  }

  function Text(number: nat, s: seq<Byte>): seq<Field> {
    if s == [] then [] else [Len(number, s)]
  }

  function Stamp(t: Option<Time>): seq<Field>
    requires t.Some? ==> InRange(t.value)
  {
    if t.Some? then [Len(3, EncodeFields(TimeFields(t.value)))] else []
  }

  function DataFields(m: Data): seq<Field>
    requires m.timestamp.Some? ==> InRange(m.timestamp.value)
  {
    Text(1, m.topic) + Text(2, m.data) + Stamp(m.timestamp) + m.unknown
  }

  function SerializeData(m: Data): seq<Byte>
    requires m.timestamp.Some? ==> InRange(m.timestamp.value)
  {
    EncodeFields(DataFields(m))
  }

  // ---------- Merging ----------

  function MergeTime(a: Time, b: Time): Time {
    Time(if b.seconds != 0 then b.seconds else a.seconds,
         if b.nanos != 0 then b.nanos else a.nanos,
         a.unknown + b.unknown)
  }

  function MergeData(a: Data, b: Data): Data {
    Data(if b.topic != [] then b.topic else a.topic,
         if b.data != [] then b.data else a.data,
         if b.timestamp.Some? then Some(MergeTime(OrNoTime(a.timestamp), b.timestamp.value)) else a.timestamp,
         a.unknown + b.unknown)
  }

  // ---------- What a message in memory looks like ----------

  predicate KnownToTime(f: Field) {
    f.Varint? && (f.number == 1 || f.number == 2)
  }

  predicate KnownToData(f: Field) {
    f.Len? && 1 <= f.number <= 3
  }

  predicate GoodTime(t: Time) {
    && InRange(t)
    && GoodFields(t.unknown, DEPTH - 1)
    && forall f :: f in t.unknown ==> !KnownToTime(f)
  }

  predicate GoodData(m: Data) {
    && (m.timestamp.Some? ==> GoodTime(m.timestamp.value))
    && GoodFields(m.unknown, DEPTH)
    && forall f :: f in m.unknown ==> !KnownToData(f)
  }

  predicate TimeFits(t: Option<Time>)
    requires t.Some? ==> InRange(t.value)
  {
    t.Some? ==> |EncodeFields(TimeFields(t.value))| <= MAX_LENGTH
  }

  /** What the receiver of a message asks of it. */
  predicate Sendable(m: Data)
    requires GoodData(m)
  {
    Utf8(m.topic) && Utf8(m.data) && |m.topic| <= MAX_LENGTH && |m.data| <= MAX_LENGTH && TimeFits(m.timestamp)
  }

  // ---------- Timestamps ----------

  lemma {:induction false} FoldTimeAppend(t: Time, a: seq<Field>, b: seq<Field>)
    ensures FoldTime(t, a + b) == FoldTime(FoldTime(t, a), b)
    decreases |a|
  {
    if a == [] {
      assert a + b == b;
    } else {
      assert (a + b)[1..] == a[1..] + b;
      FoldTimeAppend(ApplyTime(t, a[0]), a[1..], b);
    }
  }

  lemma {:induction false} FoldTimeUnknown(t: Time, fs: seq<Field>)
    requires forall f :: f in fs ==> !KnownToTime(f)
    ensures FoldTime(t, fs) == t.(unknown := t.unknown + fs)
    decreases |fs|
  {
    if fs == [] {
      assert t.unknown + fs == t.unknown;
    } else {
      assert !KnownToTime(fs[0]);
      FoldTimeUnknown(ApplyTime(t, fs[0]), fs[1..]);
      assert t.unknown + fs == t.unknown + [fs[0]] + fs[1..];
    }
  }

  lemma NumbersRoundTrip(i: int)
    ensures -TWO_TO_THE_63 <= i < TWO_TO_THE_63 ==> ToInt64(FromInt(i)) == i && FromInt(i) < TWO_TO_THE_64
    ensures -TWO_TO_THE_31 <= i < TWO_TO_THE_31 ==> ToInt32(FromInt(i)) == i
  {}

  lemma TimeFieldsMerge(a: Time, b: Time)
    requires GoodTime(b)
    ensures FoldTime(a, TimeFields(b)) == MergeTime(a, b)
  {
    var s := if b.seconds != 0 then [Varint(1, FromInt(b.seconds))] else [];
    var n := if b.nanos != 0 then [Varint(2, FromInt(b.nanos))] else [];
    NumbersRoundTrip(b.seconds);
    NumbersRoundTrip(b.nanos);
    FoldTimeAppend(a, s + n, b.unknown);
    FoldTimeAppend(a, s, n);
    FoldTimeUnknown(FoldTime(a, s + n), b.unknown);
  }

  lemma TimeFieldsGood(t: Time)
    requires GoodTime(t)
    ensures GoodFields(TimeFields(t), DEPTH - 1)
  {
    var s := if t.seconds != 0 then [Varint(1, FromInt(t.seconds))] else [];
    var n := if t.nanos != 0 then [Varint(2, FromInt(t.nanos))] else [];
    GoodAppend(s + n, t.unknown, DEPTH - 1);
    GoodAppend(s, n, DEPTH - 1);
  }

  /** Parsing a written timestamp into a merges it into a. */
  lemma ParsedTimeMerges(a: Time, b: Time)
    requires GoodTime(b)
    ensures ParseTime(a, EncodeFields(TimeFields(b)), DEPTH - 1) == Some(MergeTime(a, b))
  {
    var fs := TimeFields(b);
    TimeFieldsGood(b);
    FieldsRoundTrip(fs, [], DEPTH - 1);
    assert EncodeFields(fs) + [] == EncodeFields(fs) && fs + [] == fs;
    TimeFieldsMerge(a, b);
  }

  // ---------- TopicData ----------

  function Then(m: Option<Data>, fs: seq<Field>): Option<Data> {
    if m.Some? then FoldData(m.value, fs) else None
  }

  lemma {:induction false} FoldDataAppend(m: Data, a: seq<Field>, b: seq<Field>)
    ensures FoldData(m, a + b) == Then(FoldData(m, a), b)
    decreases |a|
  {
    if a == [] {
      assert a + b == b;
    } else {
      assert (a + b)[1..] == a[1..] + b;
      if ApplyData(m, a[0]).Some? { FoldDataAppend(ApplyData(m, a[0]).value, a[1..], b); }
    }
  }

  lemma OneRecord(m: Data, f: Field)
    ensures FoldData(m, [f]) == ApplyData(m, f)
  {}

  lemma {:induction false} FoldDataUnknown(m: Data, fs: seq<Field>)
    requires forall f :: f in fs ==> !KnownToData(f)
    ensures FoldData(m, fs) == Some(m.(unknown := m.unknown + fs))
    decreases |fs|
  {
    if fs == [] {
      assert m.unknown + fs == m.unknown;
    } else {
      assert !KnownToData(fs[0]);
      FoldDataUnknown(ApplyData(m, fs[0]).value, fs[1..]);
      assert m.unknown + fs == m.unknown + [fs[0]] + fs[1..];
    }
  }

  lemma FoldTopic(m: Data, topic: seq<Byte>)
    ensures FoldData(m, Text(1, topic)) ==
              if topic == [] then Some(m) else if Utf8(topic) then Some(m.(topic := topic)) else None
  {}

  lemma FoldText(m: Data, data: seq<Byte>)
    ensures FoldData(m, Text(2, data)) ==
              if data == [] then Some(m) else if Utf8(data) then Some(m.(data := data)) else None
  {}

  lemma FoldStamp(m: Data, t: Option<Time>)
    requires t.Some? ==> GoodTime(t.value)
    ensures FoldData(m, Stamp(t)) ==
              Some(if t.Some? then m.(timestamp := Some(MergeTime(OrNoTime(m.timestamp), t.value))) else m)
  {
    if t.Some? { ParsedTimeMerges(OrNoTime(m.timestamp), t.value); }
  }

  lemma DataFieldsMerge(a: Data, b: Data)
    requires GoodData(b)
    ensures FoldData(a, DataFields(b)) == if Utf8(b.topic) && Utf8(b.data) then Some(MergeData(a, b)) else None
  {
    var front := Text(1, b.topic) + Text(2, b.data);
    FoldDataAppend(a, front + Stamp(b.timestamp), b.unknown);
    FoldDataAppend(a, front, Stamp(b.timestamp));
    FoldDataAppend(a, Text(1, b.topic), Text(2, b.data));
    FoldTopic(a, b.topic);
    if Utf8(b.topic) {
      var a1 := FoldData(a, Text(1, b.topic)).value;
      FoldText(a1, b.data);
      if Utf8(b.data) {
        var a2 := FoldData(a1, Text(2, b.data)).value;
        FoldStamp(a2, b.timestamp);
        FoldDataUnknown(FoldData(a2, Stamp(b.timestamp)).value, b.unknown);
      }
    }
  }

  lemma DataFieldsGood(m: Data)
    requires GoodData(m) && |m.topic| <= MAX_LENGTH && |m.data| <= MAX_LENGTH && TimeFits(m.timestamp)
    ensures GoodFields(DataFields(m), DEPTH)
  {
    var front := Text(1, m.topic) + Text(2, m.data);
    GoodAppend(front + Stamp(m.timestamp), m.unknown, DEPTH);
    GoodAppend(front, Stamp(m.timestamp), DEPTH);
    GoodAppend(Text(1, m.topic), Text(2, m.data), DEPTH);
  }

  /** A record of 2 GiB behind good ones spoils the input. */
  lemma LongRecordBreaks(pre: seq<Field>, number: nat, p: seq<Byte>, post: seq<Field>)
    requires GoodFields(pre, DEPTH) && 1 <= number <= MAX_NUMBER && |p| > MAX_LENGTH
    ensures ReadFields(EncodeFields(pre + ([Len(number, p)] + post)), DEPTH) == Broken
  {
    var tail := [Len(number, p)] + post;
    EncodeAppend(pre, tail);
    assert tail[1..] == post;
    LongPayloadBreaks(number, p, EncodeFields(post), DEPTH);
    FieldsRoundTrip(pre, EncodeFields(tail), DEPTH);
  }

  lemma LongTextIsRefused(m: Data)
    requires GoodData(m) && !(|m.topic| <= MAX_LENGTH && |m.data| <= MAX_LENGTH)
    ensures ReadFields(SerializeData(m), DEPTH) == Broken
  {
    var fs := DataFields(m);
    if |m.topic| > MAX_LENGTH {
      var post := Text(2, m.data) + Stamp(m.timestamp) + m.unknown;
      assert fs == [] + ([Len(1, m.topic)] + post);
      LongRecordBreaks([], 1, m.topic, post);
    } else {
      var post := Stamp(m.timestamp) + m.unknown;
      assert fs == Text(1, m.topic) + ([Len(2, m.data)] + post);
      assert GoodField(Len(1, m.topic), DEPTH);
      LongRecordBreaks(Text(1, m.topic), 2, m.data, post);
    }
  }

  lemma LongTimeIsRefused(m: Data)
    requires GoodData(m) && |m.topic| <= MAX_LENGTH && |m.data| <= MAX_LENGTH && !TimeFits(m.timestamp)
    ensures ReadFields(SerializeData(m), DEPTH) == Broken
  {
    var p := EncodeFields(TimeFields(m.timestamp.value));
    var pre := Text(1, m.topic) + Text(2, m.data);
    GoodAppend(Text(1, m.topic), Text(2, m.data), DEPTH);
    assert DataFields(m) == pre + ([Len(3, p)] + m.unknown);
    LongRecordBreaks(pre, 3, p, m.unknown);
  }

  /** Parsing a written message into a merges it into a; and it is accepted exactly when its
      texts are UTF-8 and its parts are short enough. */
  lemma ParsedDataMerges(a: Data, b: Data)
    requires GoodData(b)
    ensures ParseData(a, SerializeData(b)) == if Sendable(b) then Some(MergeData(a, b)) else None
  {
    if |b.topic| > MAX_LENGTH || |b.data| > MAX_LENGTH {
      LongTextIsRefused(b);
    } else if !TimeFits(b.timestamp) {
      LongTimeIsRefused(b);
    } else {
      var fs := DataFields(b);
      DataFieldsGood(b);
      FieldsRoundTrip(fs, [], DEPTH);
      assert EncodeFields(fs) + [] == EncodeFields(fs) && fs + [] == fs;
      DataFieldsMerge(a, b);
    }
  }

  /** The round trip, exactly as far as it goes. */
  lemma DataRoundTrip(m: Data)
    requires GoodData(m)
    ensures ParseData(NO_DATA, SerializeData(m)) == if Sendable(m) then Some(m) else None
  {
    ParsedDataMerges(NO_DATA, m);
    assert [] + m.unknown == m.unknown;
    if m.timestamp.Some? { assert [] + m.timestamp.value.unknown == m.timestamp.value.unknown; }
  }

  /** Input behind an accepted input is parsed into what the first part gave. */
  lemma ParseDataInParts(m: Data, s: seq<Byte>, t: seq<Byte>)
    requires ParseData(m, s).Some?
    ensures ParseData(m, s + t) == ParseData(ParseData(m, s).value, t)
  {
    FieldsPrefix(s, t, DEPTH);
    var r := ReadFields(t, DEPTH);
    if r.Records? { FoldDataAppend(m, ReadFields(s, DEPTH).fields, r.fields); }
  }

  /** Concatenating two written messages merges them. */
  lemma ConcatenationMergesData(a: Data, b: Data)
    requires GoodData(a) && GoodData(b) && Sendable(a) && Sendable(b)
    ensures ParseData(NO_DATA, SerializeData(a) + SerializeData(b)) == Some(MergeData(a, b))
  {
    DataRoundTrip(a);
    ParseDataInParts(NO_DATA, SerializeData(a), SerializeData(b));
    ParsedDataMerges(a, b);
  }

  // ---------- Canonical form ----------

  lemma {:induction false} FoldTimeGood(t: Time, fs: seq<Field>)
    requires GoodTime(t) && GoodFields(fs, DEPTH - 1)
    ensures GoodTime(FoldTime(t, fs))
    decreases |fs|
  {
    if fs != [] {
      GoodAppend(t.unknown, [fs[0]], DEPTH - 1);
      FoldTimeGood(ApplyTime(t, fs[0]), fs[1..]);
    }
  }

  /** What the parser itself makes sure of. */
  predicate Accepted(m: Data) {
    GoodData(m) && Utf8(m.topic) && Utf8(m.data) && |m.topic| <= MAX_LENGTH && |m.data| <= MAX_LENGTH
  }

  lemma ApplyDataAccepted(m: Data, f: Field)
    requires Accepted(m) && GoodField(f, DEPTH) && ApplyData(m, f).Some?
    ensures Accepted(ApplyData(m, f).value)
  {
    if f.Len? && f.number == 3 {
      ReadFieldsGood(f.payload, DEPTH - 1);
      FoldTimeGood(OrNoTime(m.timestamp), ReadFields(f.payload, DEPTH - 1).fields);
    } else {
      GoodAppend(m.unknown, [f], DEPTH);
    }
  }

  lemma {:induction false} FoldDataAccepted(m: Data, fs: seq<Field>)
    requires Accepted(m) && GoodFields(fs, DEPTH) && FoldData(m, fs).Some?
    ensures Accepted(FoldData(m, fs).value)
    decreases |fs|
  {
    if fs != [] {
      ApplyDataAccepted(m, fs[0]);
      FoldDataAccepted(ApplyData(m, fs[0]).value, fs[1..]);
    }
  }

  /** The bytes a timestamp takes but for its nanoseconds. */
  function Weight(t: Time): nat
    requires InRange(t)
  {
    (if t.seconds != 0 then 1 + VarintSize(FromInt(t.seconds)) else 0) + |EncodeFields(t.unknown)|
  }

  lemma ApplyTimeWeight(t: Time, f: Field)
    requires InRange(t) && GoodField(f, DEPTH - 1)
    ensures InRange(ApplyTime(t, f)) && Weight(ApplyTime(t, f)) <= Weight(t) + |Encode(f)|
  {
    if f.Varint? && f.number == 1 {
      VarintSizeIsLength(f.value);
    } else if !KnownToTime(f) {
      EncodeAppend(t.unknown, [f]);
    }
  }

  lemma {:induction false} FoldTimeWeight(t: Time, fs: seq<Field>)
    requires InRange(t) && GoodFields(fs, DEPTH - 1)
    ensures InRange(FoldTime(t, fs)) && Weight(FoldTime(t, fs)) <= Weight(t) + |EncodeFields(fs)|
    decreases |fs|
  {
    if fs != [] {
      ApplyTimeWeight(t, fs[0]);
      FoldTimeWeight(ApplyTime(t, fs[0]), fs[1..]);
    }
  }

  lemma ApplyDataWeight(m: Data, f: Field)
    requires Accepted(m) && GoodField(f, DEPTH) && ApplyData(m, f).Some?
    ensures Accepted(ApplyData(m, f).value)
    ensures Weight(OrNoTime(ApplyData(m, f).value.timestamp)) <= Weight(OrNoTime(m.timestamp)) + |Encode(f)|
  {
    ApplyDataAccepted(m, f);
    if f.Len? && f.number == 3 {
      ReadFieldsGood(f.payload, DEPTH - 1);
      FieldsShrink(f.payload, DEPTH - 1);
      FoldTimeWeight(OrNoTime(m.timestamp), ReadFields(f.payload, DEPTH - 1).fields);
    }
  }

  lemma {:induction false} FoldDataWeight(m: Data, fs: seq<Field>)
    requires Accepted(m) && GoodFields(fs, DEPTH) && FoldData(m, fs).Some?
    ensures Accepted(FoldData(m, fs).value)
    ensures Weight(OrNoTime(FoldData(m, fs).value.timestamp)) <= Weight(OrNoTime(m.timestamp)) + |EncodeFields(fs)|
    decreases |fs|
  {
    if fs != [] {
      ApplyDataWeight(m, fs[0]);
      FoldDataWeight(ApplyData(m, fs[0]).value, fs[1..]);
    }
  }

  lemma OneNumber(number: nat, n: nat)
    requires number < 16
    ensures |EncodeFields([Varint(number, n)])| == 1 + |EncodeVarint(n)|
  {
    var f := Varint(number, n);
    assert TagOf(f) < 128;
    assert EncodeFields([f]) == Encode(f) + [];
  }

  lemma TimeSize(t: Time)
    requires InRange(t)
    ensures |EncodeFields(TimeFields(t))| <= Weight(t) + 11
  {
    var a, b := FromInt(t.seconds), FromInt(t.nanos);
    var s := if t.seconds != 0 then [Varint(1, a)] else [];
    var n := if t.nanos != 0 then [Varint(2, b)] else [];
    EncodeAppend(s + n, t.unknown);
    EncodeAppend(s, n);
    VarintSizeIsLength(a);
    NumbersRoundTrip(t.nanos);
    Powers();
    VarintLength(b, 10);
    OneNumber(1, a);
    OneNumber(2, b);
  }

  /** A timestamp takes at most eleven bytes more than the input it was read from. */
  lemma RewrittenTime(s: seq<Byte>, m: Data)
    requires ParseData(NO_DATA, s) == Some(m)
    ensures Accepted(m)
    ensures m.timestamp.Some? ==> |EncodeFields(TimeFields(m.timestamp.value))| <= |s| + 11
  {
    ReadFieldsGood(s, DEPTH);
    FieldsShrink(s, DEPTH);
    FoldDataWeight(NO_DATA, ReadFields(s, DEPTH).fields);
    assert Weight(NO_TIME) == 0;
    if m.timestamp.Some? { TimeSize(m.timestamp.value); }
  }

  /** Whatever bytes were accepted, writing the message again gives bytes that read the same if and
      only if the timestamp written stays below 2 GiB, as it does for all input more than
      eleven bytes shorter than that. */
  lemma CanonicalData(s: seq<Byte>, m: Data)
    requires ParseData(NO_DATA, s) == Some(m)
    ensures Accepted(m)
    ensures ParseData(NO_DATA, SerializeData(m)) == Some(m) <==> TimeFits(m.timestamp)
    ensures |s| + 11 <= MAX_LENGTH ==> TimeFits(m.timestamp)
  {
    RewrittenTime(s, m);
    DataRoundTrip(m);
  }

  // ---------- Input that cannot be written back ----------

  const FILLER: nat := MAX_LENGTH - 12

  /** A timestamp of exactly the greatest length, whose nanoseconds are given in five bytes where
      the serializer uses ten. */
  function LongTime(): seq<Field> {
    [Len(15, seq(FILLER, _ => 0)), Varint(2, TWO_TO_THE_31)]
  }

  lemma FiveBytesLong(n: nat)
    requires 0x1000_0000 <= n < 0x8_0000_0000
    ensures |EncodeVarint(n)| == 5
  {
    assert |EncodeVarint(n / 128 / 128)| == 3;
  }

  lemma TenBytesLong(n: nat)
    requires 0x8000_0000_0000_0000 <= n < TWO_TO_THE_64
    ensures |EncodeVarint(n)| == 10
  {
    var n2 := n / 128 / 128;
    var n4 := n2 / 128 / 128;
    var n6 := n4 / 128 / 128;
    var n8 := n6 / 128 / 128;
    assert n8 / 128 == 1 && |EncodeVarint(n8)| == 2;
    assert |EncodeVarint(n6)| == 4;
    assert |EncodeVarint(n4)| == 6;
    assert |EncodeVarint(n2)| == 8;
  }

  lemma OnePayload(number: nat, p: seq<Byte>)
    requires number < 16
    ensures |Encode(Len(number, p))| == 1 + |EncodeVarint(|p|)| + |p|
  {
    assert TagOf(Len(number, p)) < 128;
  }

  lemma LongTimeParses()
    ensures |EncodeFields(LongTime())| == MAX_LENGTH
    ensures ParseTime(NO_TIME, EncodeFields(LongTime()), DEPTH - 1) == Some(Time(0, -TWO_TO_THE_31, [LongTime()[0]]))
  {
    var fs, f, g := LongTime(), LongTime()[0], LongTime()[1];
    FiveBytesLong(FILLER);
    FiveBytesLong(TWO_TO_THE_31);
    OnePayload(15, f.payload);
    OneNumber(2, TWO_TO_THE_31);
    assert fs[1..] == [g] && EncodeFields(fs) == Encode(f) + EncodeFields([g]);
    FieldsRoundTrip(fs, [], DEPTH - 1);
    assert EncodeFields(fs) + [] == EncodeFields(fs) && fs + [] == fs;
    FoldTimeAppend(NO_TIME, [f], [g]);
    assert fs == [f] + [g] && NO_TIME.unknown + [f] == [f];
    assert FoldTime(NO_TIME, [f]) == NO_TIME.(unknown := [f]);
  }

  lemma LongTimeGrows(t: Time)
    requires t == Time(0, -TWO_TO_THE_31, [LongTime()[0]])
    ensures |EncodeFields(TimeFields(t))| == MAX_LENGTH + 5
  {
    var f, n := LongTime()[0], FromInt(t.nanos);
    assert TimeFields(t) == [Varint(2, n)] + [f];
    EncodeAppend([Varint(2, n)], [f]);
    TenBytesLong(n);
    OneNumber(2, n);
    FiveBytesLong(FILLER);
    OnePayload(15, f.payload);
    assert EncodeFields([f]) == Encode(f) + [];
  }

  lemma OneRecordParses(f: Field)
    requires GoodField(f, DEPTH)
    ensures ParseData(NO_DATA, EncodeFields([f])) == ApplyData(NO_DATA, f)
  {
    FieldsRoundTrip([f], [], DEPTH);
    assert EncodeFields([f]) + [] == EncodeFields([f]) && [f] + [] == [f];
    OneRecord(NO_DATA, f);
  }

  lemma LongInputParses()
    ensures ParseData(NO_DATA, EncodeFields([Len(3, EncodeFields(LongTime()))]))
            == Some(Data([], [], Some(Time(0, -TWO_TO_THE_31, [LongTime()[0]])), []))
  {
    var p := EncodeFields(LongTime());
    LongTimeParses();
    OneRecordParses(Len(3, p));
  }

  /** So there is input that is accepted and cannot be written back. */
  lemma NotAlwaysCanonical()
    ensures exists s, m ::
              ParseData(NO_DATA, s) == Some(m) && GoodData(m)
              && ParseData(NO_DATA, SerializeData(m)) != Some(m)
  {
    var t := Time(0, -TWO_TO_THE_31, [LongTime()[0]]);
    var s, m := EncodeFields([Len(3, EncodeFields(LongTime()))]), Data([], [], Some(t), []);
    LongInputParses();
    LongTimeGrows(t);
    CanonicalData(s, m);
  }

  // ---------- TopicRequest ----------

  function ApplyRequest(m: Request, f: Field): Option<Request> {
    if f.Len? && f.number == 2 then if Utf8(f.payload) then Some(m.(topic := f.payload)) else None
    else Some(m.(unknown := m.unknown + [f]))
  }

  function FoldRequest(m: Request, fs: seq<Field>): Option<Request>
    decreases |fs|
  {
    if fs == [] then Some(m)
    else
      match ApplyRequest(m, fs[0])
      case Some(n) => FoldRequest(n, fs[1..])
      case None => None
  }

  function ParseRequest(m: Request, s: seq<Byte>): Option<Request> {
    match ReadFields(s, DEPTH)
    case Records(fs, stop, _) => if stop.None? then FoldRequest(m, fs) else None
    case Broken => None
  }

  function SerializeRequest(m: Request): seq<Byte> {
    EncodeFields(Text(2, m.topic) + m.unknown)
  }

  function MergeRequest(a: Request, b: Request): Request {
    Request(if b.topic != [] then b.topic else a.topic, a.unknown + b.unknown)
  }

  predicate KnownToRequest(f: Field) {
    f.Len? && f.number == 2
  }

  predicate GoodRequest(m: Request) {
    GoodFields(m.unknown, DEPTH) && forall f :: f in m.unknown ==> !KnownToRequest(f)
  }

  lemma {:induction false} FoldRequestAppend(m: Request, a: seq<Field>, b: seq<Field>)
    ensures FoldRequest(m, a + b) == if FoldRequest(m, a).Some? then FoldRequest(FoldRequest(m, a).value, b) else None
    decreases |a|
  {
    if a == [] {
      assert a + b == b;
    } else {
      assert (a + b)[1..] == a[1..] + b;
      if ApplyRequest(m, a[0]).Some? { FoldRequestAppend(ApplyRequest(m, a[0]).value, a[1..], b); }
    }
  }

  lemma {:induction false} FoldRequestUnknown(m: Request, fs: seq<Field>)
    requires forall f :: f in fs ==> !KnownToRequest(f)
    ensures FoldRequest(m, fs) == Some(m.(unknown := m.unknown + fs))
    decreases |fs|
  {
    if fs == [] {
      assert m.unknown + fs == m.unknown;
    } else {
      assert !KnownToRequest(fs[0]);
      FoldRequestUnknown(ApplyRequest(m, fs[0]).value, fs[1..]);
      assert m.unknown + fs == m.unknown + [fs[0]] + fs[1..];
    }
  }

  /** Parsing a written request into a merges it into a, exactly when its topic is UTF-8 and
      short enough. */
  lemma ParsedRequestMerges(a: Request, b: Request)
    requires GoodRequest(b)
    ensures ParseRequest(a, SerializeRequest(b)) ==
              if Utf8(b.topic) && |b.topic| <= MAX_LENGTH then Some(MergeRequest(a, b)) else None
  {
    var text := Text(2, b.topic);
    if |b.topic| <= MAX_LENGTH {
      assert GoodField(Len(2, b.topic), DEPTH);
      GoodAppend(text, b.unknown, DEPTH);
      FieldsRoundTrip(text + b.unknown, [], DEPTH);
      assert SerializeRequest(b) + [] == SerializeRequest(b) && text + b.unknown + [] == text + b.unknown;
      FoldRequestAppend(a, text, b.unknown);
      if FoldRequest(a, text).Some? { FoldRequestUnknown(FoldRequest(a, text).value, b.unknown); }
    } else {
      assert text + b.unknown == [] + ([Len(2, b.topic)] + b.unknown);
      LongRecordBreaks([], 2, b.topic, b.unknown);
    }
  }

  lemma RequestRoundTrip(m: Request)
    requires GoodRequest(m)
    ensures ParseRequest(NO_REQUEST, SerializeRequest(m)) ==
              if Utf8(m.topic) && |m.topic| <= MAX_LENGTH then Some(m) else None
  {
    ParsedRequestMerges(NO_REQUEST, m);
    assert [] + m.unknown == m.unknown;
  }

  lemma ParseRequestInParts(m: Request, s: seq<Byte>, t: seq<Byte>)
    requires ParseRequest(m, s).Some?
    ensures ParseRequest(m, s + t) == ParseRequest(ParseRequest(m, s).value, t)
  {
    FieldsPrefix(s, t, DEPTH);
    var r := ReadFields(t, DEPTH);
    if r.Records? { FoldRequestAppend(m, ReadFields(s, DEPTH).fields, r.fields); }
  }

  lemma ConcatenationMergesRequests(a: Request, b: Request)
    requires GoodRequest(a) && GoodRequest(b) && Utf8(a.topic) && Utf8(b.topic)
    requires |a.topic| <= MAX_LENGTH && |b.topic| <= MAX_LENGTH
    ensures ParseRequest(NO_REQUEST, SerializeRequest(a) + SerializeRequest(b)) == Some(MergeRequest(a, b))
  {
    RequestRoundTrip(a);
    ParseRequestInParts(NO_REQUEST, SerializeRequest(a), SerializeRequest(b));
    ParsedRequestMerges(a, b);
  }

  lemma {:induction false} FoldRequestAccepted(m: Request, fs: seq<Field>)
    requires GoodRequest(m) && Utf8(m.topic) && |m.topic| <= MAX_LENGTH
    requires GoodFields(fs, DEPTH) && FoldRequest(m, fs).Some?
    ensures var n := FoldRequest(m, fs).value; GoodRequest(n) && Utf8(n.topic) && |n.topic| <= MAX_LENGTH
    decreases |fs|
  {
    if fs != [] {
      GoodAppend(m.unknown, [fs[0]], DEPTH);
      FoldRequestAccepted(ApplyRequest(m, fs[0]).value, fs[1..]);
    }
  }

  /** Every accepted request is written back to bytes that read the same. */
  lemma CanonicalRequest(s: seq<Byte>, m: Request)
    requires ParseRequest(NO_REQUEST, s) == Some(m)
    ensures ParseRequest(NO_REQUEST, SerializeRequest(m)) == Some(m)
  {
    ReadFieldsGood(s, DEPTH);
    FoldRequestAccepted(NO_REQUEST, ReadFields(s, DEPTH).fields);
    RequestRoundTrip(m);
  }
}
