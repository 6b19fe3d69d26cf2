/** The generated message classes of lab3, updated in place, each method against the value it
    stands for. */
module TopicMessages {
  import opened Options
  import opened Texts
  import opened Wire
  import opened Messages

  // ---------- Writing into a buffer ----------

  /** From `at` on the buffer holds b, and elsewhere it is as it was. */
  ghost predicate Wrote(was: seq<Byte>, now: seq<Byte>, at: nat, b: seq<Byte>) {
    && at + |b| <= |was| == |now|
    && now[at..at + |b|] == b
    && now[..at] == was[..at]
    && now[at + |b|..] == was[at + |b|..]
  }

  lemma WroteTwice(was: seq<Byte>, mid: seq<Byte>, now: seq<Byte>, at: nat, a: seq<Byte>, b: seq<Byte>)
    requires Wrote(was, mid, at, a) && Wrote(mid, now, at + |a|, b)
    ensures Wrote(was, now, at, a + b)
  {}

  lemma IsWrote(was: seq<Byte>, now: seq<Byte>, at: nat, b: seq<Byte>)
    requires |now| == |was| && at + |b| <= |was|
    requires forall i :: 0 <= i < |now| ==> now[i] == if at <= i < at + |b| then b[i - at] else was[i]
    ensures Wrote(was, now, at, b)
  {}

  method WriteVarint(target: array<Byte>, at: nat, n: nat) returns (end: nat)
    requires at + |EncodeVarint(n)| <= target.Length
    modifies target
    ensures end == at + |EncodeVarint(n)|
    ensures Wrote(old(target[..]), target[..], at, EncodeVarint(n))
  {
    end := at;
    var left := n;
    ghost var done: seq<Byte> := [];
    while left >= 128
      invariant end == at + |done| && done + EncodeVarint(left) == EncodeVarint(n)
      invariant forall i :: 0 <= i < target.Length ==>
                  target[i] == if at <= i < end then done[i - at] else old(target[i])
    {
      done := done + [left % 128 + 128];
      target[end] := left % 128 + 128;
      left, end := left / 128, end + 1;
    }
    target[end] := left;
    end := end + 1;
    IsWrote(old(target[..]), target[..], at, EncodeVarint(n));
  }

  method WriteBytes(target: array<Byte>, at: nat, b: seq<Byte>) returns (end: nat)
    requires at + |b| <= target.Length
    modifies target
    ensures end == at + |b|
    ensures Wrote(old(target[..]), target[..], at, b)
  {
    for k := 0 to |b|
      invariant forall i :: 0 <= i < target.Length ==>
                  target[i] == if at <= i < at + k then b[i - at] else old(target[i])
    {
      target[at + k] := b[k];
    }
    end := at + |b|;
    IsWrote(old(target[..]), target[..], at, b);
  }

  method WriteHead(target: array<Byte>, at: nat, number: nat, size: nat) returns (end: nat)
    requires at + |EncodeVarint(8 * number + 2)| + |EncodeVarint(size)| <= target.Length
    modifies target
    ensures end == at + |EncodeVarint(8 * number + 2)| + |EncodeVarint(size)|
    ensures Wrote(old(target[..]), target[..], at, EncodeVarint(8 * number + 2) + EncodeVarint(size))
  {
    end := WriteVarint(target, at, 8 * number + 2);
    ghost var mid := target[..];
    end := WriteVarint(target, end, size);
    WroteTwice(old(target[..]), mid, target[..], at, EncodeVarint(8 * number + 2), EncodeVarint(size));
  }

  lemma LenBytes(number: nat, p: seq<Byte>)
    ensures Encode(Len(number, p)) == EncodeVarint(8 * number + 2) + EncodeVarint(|p|) + p
  {}

  /** A record of bytes: tag, length, payload. */
  method WriteLen(target: array<Byte>, at: nat, number: nat, p: seq<Byte>) returns (end: nat)
    requires at + |Encode(Len(number, p))| <= target.Length
    modifies target
    ensures end == at + |Encode(Len(number, p))|
    ensures Wrote(old(target[..]), target[..], at, Encode(Len(number, p)))
  {
    LenBytes(number, p);
    ghost var head := EncodeVarint(8 * number + 2) + EncodeVarint(|p|);
    end := WriteHead(target, at, number, |p|);
    ghost var mid := target[..];
    end := WriteBytes(target, end, p);
    WroteTwice(old(target[..]), mid, target[..], at, head, p);
  }

  lemma OneLen(number: nat, p: seq<Byte>)
    ensures EncodeFields([Len(number, p)]) == Encode(Len(number, p))
    ensures 1 <= number < 16 ==> |Encode(Len(number, p))| == 1 + VarintSize(|p|) + |p|
  {
    VarintSizeIsLength(|p|);
    assert EncodeFields([Len(number, p)]) == Encode(Len(number, p)) + [];
  }

  method WriteText(target: array<Byte>, at: nat, number: nat, text: seq<Byte>) returns (end: nat)
    requires at + |EncodeFields(Text(number, text))| <= target.Length
    modifies target
    ensures end == at + |EncodeFields(Text(number, text))|
    ensures Wrote(old(target[..]), target[..], at, EncodeFields(Text(number, text)))
  {
    end := at;
    if |text| > 0 {
      OneLen(number, text);
      end := WriteLen(target, at, number, text);
    } else {
      IsWrote(target[..], target[..], at, []);
    }
  }

  method WriteStamp(target: array<Byte>, at: nat, t: Option<Time>) returns (end: nat)
    requires t.Some? ==> InRange(t.value)
    requires at + |EncodeFields(Stamp(t))| <= target.Length
    modifies target
    ensures end == at + |EncodeFields(Stamp(t))|
    ensures Wrote(old(target[..]), target[..], at, EncodeFields(Stamp(t)))
  {
    end := at;
    if t.Some? {
      var p := EncodeFields(TimeFields(t.value));
      OneLen(3, p);
      end := WriteLen(target, at, 3, p);
    } else {
      IsWrote(target[..], target[..], at, []);
    }
  }

  /** Tag, length and payload of a text; nothing if it is empty. */
  function TextSize(text: seq<Byte>): nat {
    if |text| > 0 then 1 + VarintSize(|text|) + |text| else 0
  }

  lemma TextSizeIsLength(number: nat, text: seq<Byte>)
    requires 1 <= number < 16
    ensures TextSize(text) == |EncodeFields(Text(number, text))|
  {
    if text != [] { OneLen(number, text); }
  }

  function StampSize(t: Option<Time>): nat
    requires t.Some? ==> InRange(t.value)
  {
    if t.Some? then
      var size := FieldsSize(TimeFields(t.value));
      1 + VarintSize(size) + size
    else 0
  }

  lemma StampSizeIsLength(t: Option<Time>)
    requires t.Some? ==> InRange(t.value)
    ensures StampSize(t) == |EncodeFields(Stamp(t))|
  {
    if t.Some? {
      FieldsSizeIsLength(TimeFields(t.value));
      OneLen(3, EncodeFields(TimeFields(t.value)));
    }
  }

  function TextBytes(m: Data): seq<Byte> {
    EncodeFields(Text(1, m.topic)) + EncodeFields(Text(2, m.data))
  }

  function KnownBytes(m: Data): seq<Byte>
    requires m.timestamp.Some? ==> InRange(m.timestamp.value)
  {
    TextBytes(m) + EncodeFields(Stamp(m.timestamp))
  }

  lemma DataBytes(m: Data)
    requires m.timestamp.Some? ==> InRange(m.timestamp.value)
    ensures SerializeData(m) == KnownBytes(m) + EncodeFields(m.unknown)
  {
    EncodeAppend(Text(1, m.topic) + Text(2, m.data) + Stamp(m.timestamp), m.unknown);
    EncodeAppend(Text(1, m.topic) + Text(2, m.data), Stamp(m.timestamp));
    EncodeAppend(Text(1, m.topic), Text(2, m.data));
  }

  // ---------- One round of a parse loop ----------

  lemma NextRecord(s: seq<Byte>, done: seq<Field>, ptr: seq<Byte>)
    requires ptr != [] && ReadFields(s, DEPTH) == Prepend(done, ReadFields(ptr, DEPTH))
    ensures var t := ReadTag(ptr);
            if t.Bad? then ReadFields(s, DEPTH).Broken?
            else if Stops(t.value) then ReadFields(s, DEPTH) == Records(done, Some(t.value), t.rest)
            else
              var r := ReadField(t.value, t.rest, DEPTH);
              if r.Bad? then ReadFields(s, DEPTH).Broken?
              else ReadFields(s, DEPTH) == Prepend(done + [r.value], ReadFields(r.rest, DEPTH))
  {}

  lemma AppliedRecord(m: Data, done: seq<Field>, now: Data, f: Field)
    requires FoldData(m, done) == Some(now)
    ensures FoldData(m, done + [f]) == ApplyData(now, f)
  {
    FoldDataAppend(m, done, [f]);
    OneRecord(now, f);
  }

  lemma RefusedRecord(m: Data, done: seq<Field>, f: Field, ptr: seq<Byte>)
    requires FoldData(m, done + [f]) == None
    ensures var r := Prepend(done + [f], ReadFields(ptr, DEPTH)); r.Records? ==> FoldData(m, r.fields) == None
  {
    var r := ReadFields(ptr, DEPTH);
    if r.Records? { FoldDataAppend(m, done + [f], r.fields); }
  }

  lemma AppliedToRequest(m: Request, done: seq<Field>, now: Request, f: Field)
    requires FoldRequest(m, done) == Some(now)
    ensures FoldRequest(m, done + [f]) == ApplyRequest(now, f)
  {
    FoldRequestAppend(m, done, [f]);
    assert [f][1..] == [];
    assert FoldRequest(now, [f]) == ApplyRequest(now, f);
  }

  lemma RefusedInRequest(m: Request, done: seq<Field>, f: Field, ptr: seq<Byte>)
    requires FoldRequest(m, done + [f]) == None
    ensures var r := Prepend(done + [f], ReadFields(ptr, DEPTH)); r.Records? ==> FoldRequest(m, r.fields) == None
  {
    var r := ReadFields(ptr, DEPTH);
    if r.Records? { FoldRequestAppend(m, done + [f], r.fields); }
  }

  lemma PayloadOf(tag: nat, number: nat, s: seq<Byte>)
    requires tag / 8 == number > 0 && tag % 8 == 2
    ensures var p := ReadPayload(s);
            ReadField(tag, s, DEPTH) == if p.Got? then Got(Len(number, p.value), p.rest) else Bad
  {}

  lemma PayloadRecord(number: nat, s: seq<Byte>)
    requires 1 <= number <= 3
    ensures var p := ReadPayload(s);
            ReadField(8 * number + 2, s, DEPTH) == if p.Got? then Got(Len(number, p.value), p.rest) else Bad
  {
    PayloadOf(8 * number + 2, number, s);
  }

  class TopicData {
    var topic: seq<Byte>
    var data: seq<Byte>
    var timestamp: Option<Time>
    var unknown: seq<Field>

    function View(): Data
      reads this
    {
      Data(topic, data, timestamp, unknown)
    }

    constructor ()
      ensures View() == NO_DATA
    {
      topic, data, timestamp, unknown := [], [], None, [];
    }

    method Clear()
      modifies this
      ensures View() == NO_DATA
    {
      topic, data, timestamp, unknown := [], [], None, [];
    }

    /** Empty fields of the other message are not copied; timestamps are merged. */
    method MergeFrom(from: TopicData)
      requires from != this
      modifies this
      ensures View() == MergeData(old(View()), from.View())
    {
      unknown := unknown + from.unknown;
      if |from.topic| > 0 { topic := from.topic; }
      if |from.data| > 0 { data := from.data; }
      if from.timestamp.Some? {
        if timestamp.None? { timestamp := Some(NO_TIME); }
        timestamp := Some(MergeTime(timestamp.value, from.timestamp.value));
      }
    }

    /** The texts are checked after they are assigned. */
    method AssignPayload(number: nat, p: seq<Byte>) returns (ok: bool)
      requires 1 <= number <= 3
      modifies this
      ensures ok <==> ApplyData(old(View()), Len(number, p)).Some?
      ensures ok ==> Some(View()) == ApplyData(old(View()), Len(number, p))
    {
      if number == 1 {
        topic := p;
        ok := Utf8(topic);
      } else if number == 2 {
        data := p;
        ok := Utf8(data);
      } else {
        if timestamp.None? { timestamp := Some(NO_TIME); }
        var t := ParseTime(timestamp.value, p, DEPTH - 1);
        if t.Some? { timestamp := t; }
        ok := t.Some?;
      }
    }

    /** The switch on the field number; records of another kind go to the unknown fields. */
    method ParseRecord(tag: nat, s: seq<Byte>) returns (ok: bool, rest: seq<Byte>)
      requires !Stops(tag) && tag < 0x1_0000_0000
      modifies this
      ensures var f := ReadField(tag, s, DEPTH);
              if f.Got? && ApplyData(old(View()), f.value).Some?
              then ok && rest == f.rest && Some(View()) == ApplyData(old(View()), f.value) else !ok
      ensures |rest| <= |s|
    {
      ok, rest := false, s;
      if tag == 10 || tag == 18 || tag == 26 {
        PayloadRecord(tag / 8, s);
        var p := ReadPayload(s);
        if p.Got? {
          rest := p.rest;
          ok := AssignPayload(tag / 8, p.value);
        }
      } else {
        var f := ReadField(tag, s, DEPTH);
        if f.Got? {
          ReadFieldGood(tag, s, DEPTH);
          ok, rest, unknown := true, f.rest, unknown + [f.value];
        }
      }
    }

    /** The parse loop.  It succeeds exactly if every record is well formed and accepted; then
        the message is the old one with all records applied, and the loop stopped at the end of
        the input or at a tag it leaves to the caller. */
    method InternalParse(s: seq<Byte>) returns (ok: bool, lastTag: Option<nat>, rest: seq<Byte>)
      modifies this
      ensures ok <==> ReadFields(s, DEPTH).Records? && FoldData(old(View()), ReadFields(s, DEPTH).fields).Some?
      ensures ok ==> FoldData(old(View()), ReadFields(s, DEPTH).fields) == Some(View())
      ensures ok ==> lastTag == ReadFields(s, DEPTH).stop && rest == ReadFields(s, DEPTH).rest
    {
      ghost var was, done: seq<Field> := View(), [];
      ok, lastTag, rest := true, None, s;
      PrependNone(ReadFields(s, DEPTH));
      while ok && lastTag.None? && rest != []
        invariant !ok ==> ReadFields(s, DEPTH).Broken? || FoldData(was, ReadFields(s, DEPTH).fields) == None
        invariant ok ==> FoldData(was, done) == Some(View())
        invariant ok && lastTag.None? ==> ReadFields(s, DEPTH) == Prepend(done, ReadFields(rest, DEPTH))
        invariant ok && lastTag.Some? ==> ReadFields(s, DEPTH) == Records(done, lastTag, rest)
        decreases ok && lastTag.None?, |rest|
      {
        NextRecord(s, done, rest);
        var t := ReadTag(rest);
        if t.Bad? {
          ok := false;
        } else if Stops(t.value) {
          lastTag, rest := Some(t.value), t.rest;
        } else {
          ghost var f := ReadField(t.value, t.rest, DEPTH);
          if f.Got? { AppliedRecord(was, done, View(), f.value); }
          ok, rest := ParseRecord(t.value, t.rest);
          if ok {
            done := done + [f.value];
          } else if f.Got? {
            RefusedRecord(was, done, f.value, f.rest);
          }
        }
      }
      assert done + [] == done;
    }

    /** Clear, parse, and insist on having reached the end of the input. */
    method ParseFromString(s: seq<Byte>) returns (ok: bool)
      modifies this
      ensures ok <==> ParseData(NO_DATA, s).Some?
      ensures ok ==> ParseData(NO_DATA, s) == Some(View())
    {
      Clear();
      var lastTag, rest;
      ok, lastTag, rest := InternalParse(s);
      ok := ok && lastTag.None?;
    }

    /** The size is that of the bytes which InternalSerialize writes. */
    method ByteSizeLong() returns (total: nat)
      requires timestamp.Some? ==> InRange(timestamp.value)
      ensures total == |SerializeData(View())|
    {
      DataBytes(View());
      TextSizeIsLength(1, topic);
      TextSizeIsLength(2, data);
      StampSizeIsLength(timestamp);
      FieldsSizeIsLength(unknown);
      total := 0;
      if |topic| > 0 { total := total + TextSize(topic); }
      if |data| > 0 { total := total + TextSize(data); }
      if timestamp.Some? { total := total + StampSize(timestamp); }
      total := total + FieldsSize(unknown);
    }

    method WriteTexts(target: array<Byte>, at: nat) returns (end: nat)
      requires at + |TextBytes(View())| <= target.Length
      modifies target
      ensures end == at + |TextBytes(View())|
      ensures Wrote(old(target[..]), target[..], at, TextBytes(View()))
    {
      end := WriteText(target, at, 1, topic);
      ghost var mid := target[..];
      end := WriteText(target, end, 2, data);
      WroteTwice(old(target[..]), mid, target[..], at, EncodeFields(Text(1, topic)), EncodeFields(Text(2, data)));
    }

    /** The three known fields, in the order of their numbers. */
    method WriteKnown(target: array<Byte>, at: nat) returns (end: nat)
      requires timestamp.Some? ==> InRange(timestamp.value)
      requires at + |KnownBytes(View())| <= target.Length
      modifies target
      ensures end == at + |KnownBytes(View())|
      ensures Wrote(old(target[..]), target[..], at, KnownBytes(View()))
    {
      ghost var texts, stamp := TextBytes(View()), EncodeFields(Stamp(timestamp));
      assert KnownBytes(View()) == texts + stamp;
      end := WriteTexts(target, at);
      ghost var mid := target[..];
      end := WriteStamp(target, end, timestamp);
      WroteTwice(old(target[..]), mid, target[..], at, texts, stamp);
    }

    /** Write the message from `at` on and leave the rest of the buffer alone. */
    method InternalSerialize(target: array<Byte>, at: nat) returns (end: nat)
      requires timestamp.Some? ==> InRange(timestamp.value)
      requires at + |SerializeData(View())| <= target.Length
      modifies target
      ensures end == at + |SerializeData(View())|
      ensures Wrote(old(target[..]), target[..], at, SerializeData(View()))
    {
      DataBytes(View());
      end := WriteKnown(target, at);
      ghost var mid := target[..];
      end := WriteBytes(target, end, EncodeFields(unknown));
      WroteTwice(old(target[..]), mid, target[..], at, KnownBytes(View()), EncodeFields(unknown));
    }
  }

  class TopicRequest {
    var topic: seq<Byte>
    var unknown: seq<Field>

    function View(): Request
      reads this
    {
      Request(topic, unknown)
    }

    constructor ()
      ensures View() == NO_REQUEST
    {
      topic, unknown := [], [];
    }

    method Clear()
      modifies this
      ensures View() == NO_REQUEST
    {
      topic, unknown := [], [];
    }

    method MergeFrom(from: TopicRequest)
      requires from != this
      modifies this
      ensures View() == MergeRequest(old(View()), from.View())
    {
      unknown := unknown + from.unknown;
      if |from.topic| > 0 { topic := from.topic; }
    }

    method ParseRecord(tag: nat, s: seq<Byte>) returns (ok: bool, rest: seq<Byte>)
      requires !Stops(tag) && tag < 0x1_0000_0000
      modifies this
      ensures var f := ReadField(tag, s, DEPTH);
              if f.Got? && ApplyRequest(old(View()), f.value).Some?
              then ok && rest == f.rest && Some(View()) == ApplyRequest(old(View()), f.value) else !ok
      ensures |rest| <= |s|
    {
      ok, rest := false, s;
      if tag == 18 {
        PayloadRecord(2, s);
        var p := ReadPayload(s);
        if p.Got? {
          rest, topic := p.rest, p.value;
          ok := Utf8(topic);
        }
      } else {
        var f := ReadField(tag, s, DEPTH);
        if f.Got? {
          ReadFieldGood(tag, s, DEPTH);
          ok, rest, unknown := true, f.rest, unknown + [f.value];
        }
      }
    }

    /** The parse loop, in which only field 2 is known. */
    method InternalParse(s: seq<Byte>) returns (ok: bool, lastTag: Option<nat>, rest: seq<Byte>)
      modifies this
      ensures ok <==> ReadFields(s, DEPTH).Records? && FoldRequest(old(View()), ReadFields(s, DEPTH).fields).Some?
      ensures ok ==> FoldRequest(old(View()), ReadFields(s, DEPTH).fields) == Some(View())
      ensures ok ==> lastTag == ReadFields(s, DEPTH).stop && rest == ReadFields(s, DEPTH).rest
    {
      ghost var was, done: seq<Field> := View(), [];
      ok, lastTag, rest := true, None, s;
      PrependNone(ReadFields(s, DEPTH));
      while ok && lastTag.None? && rest != []
        invariant !ok ==> ReadFields(s, DEPTH).Broken? || FoldRequest(was, ReadFields(s, DEPTH).fields) == None
        invariant ok ==> FoldRequest(was, done) == Some(View())
        invariant ok && lastTag.None? ==> ReadFields(s, DEPTH) == Prepend(done, ReadFields(rest, DEPTH))
        invariant ok && lastTag.Some? ==> ReadFields(s, DEPTH) == Records(done, lastTag, rest)
        decreases ok && lastTag.None?, |rest|
      {
        NextRecord(s, done, rest);
        var t := ReadTag(rest);
        if t.Bad? {
          ok := false;
        } else if Stops(t.value) {
          lastTag, rest := Some(t.value), t.rest;
        } else {
          ghost var f := ReadField(t.value, t.rest, DEPTH);
          if f.Got? { AppliedToRequest(was, done, View(), f.value); }
          ok, rest := ParseRecord(t.value, t.rest);
          if ok {
            done := done + [f.value];
          } else if f.Got? {
            RefusedInRequest(was, done, f.value, f.rest);
          }
        }
      }
      assert done + [] == done;
    }

    method ParseFromString(s: seq<Byte>) returns (ok: bool)
      modifies this
      ensures ok <==> ParseRequest(NO_REQUEST, s).Some?
      ensures ok ==> ParseRequest(NO_REQUEST, s) == Some(View())
    {
      Clear();
      var lastTag, rest;
      ok, lastTag, rest := InternalParse(s);
      ok := ok && lastTag.None?;
    }

    method ByteSizeLong() returns (total: nat)
      ensures total == |SerializeRequest(View())|
    {
      EncodeAppend(Text(2, topic), unknown);
      TextSizeIsLength(2, topic);
      FieldsSizeIsLength(unknown);
      total := 0;
      if |topic| > 0 { total := total + TextSize(topic); }
      total := total + FieldsSize(unknown);
    }

    method InternalSerialize(target: array<Byte>, at: nat) returns (end: nat)
      requires at + |SerializeRequest(View())| <= target.Length
      modifies target
      ensures end == at + |SerializeRequest(View())|
      ensures Wrote(old(target[..]), target[..], at, SerializeRequest(View()))
    {
      EncodeAppend(Text(2, topic), unknown);
      end := WriteText(target, at, 2, topic);
      ghost var mid := target[..];
      end := WriteBytes(target, end, EncodeFields(unknown));
      WroteTwice(old(target[..]), mid, target[..], at, EncodeFields(Text(2, topic)), EncodeFields(unknown));
    }
  }
}
