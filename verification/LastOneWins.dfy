/** What a list of records means for a message, said without folding: of several records of one
    text the last one wins, nested timestamps are merged, the rest is kept in order.  From this,
    when exactly parsing behind other input is the same as merging. */
module LastOneWins {
  import opened Options
  import opened Texts
  import opened Wire
  import opened Messages

  predicate IsText(f: Field, number: nat) {
    f.Len? && f.number == number
  }

  predicate Has(fs: seq<Field>, number: nat) {
    exists f :: f in fs && IsText(f, number)
  }

  /** The payload of the last record of this number, or else what was there before. */
  function LastText(fs: seq<Field>, number: nat, before: seq<Byte>): seq<Byte> {
    if fs == [] then before
    else
      var f := fs[|fs| - 1];
      if IsText(f, number) then f.payload else LastText(fs[..|fs| - 1], number, before)
  }

  /** The records of all nested timestamps, in order. */
  function Nested(fs: seq<Field>): seq<Field> {
    if fs == [] then []
    else
      var f := fs[|fs| - 1];
      Nested(fs[..|fs| - 1]) +
      if IsText(f, 3) && ReadFields(f.payload, DEPTH - 1).Records? then ReadFields(f.payload, DEPTH - 1).fields else []
  }

  function Others(fs: seq<Field>): seq<Field> {
    if fs == [] then []
    else Others(fs[..|fs| - 1]) + if KnownToData(fs[|fs| - 1]) then [] else [fs[|fs| - 1]]
  }

  predicate ReadableField(f: Field) {
    && (IsText(f, 1) || IsText(f, 2) ==> Utf8(f.payload))
    && (IsText(f, 3) ==> ReadFields(f.payload, DEPTH - 1).Records? && ReadFields(f.payload, DEPTH - 1).stop.None?)
  }

  predicate Readable(fs: seq<Field>) {
    forall f :: f in fs ==> ReadableField(f)
  }

  ghost function Meaning(m: Data, fs: seq<Field>): Data {
    Data(LastText(fs, 1, m.topic),
         LastText(fs, 2, m.data),
         if Has(fs, 3) then Some(FoldTime(OrNoTime(m.timestamp), Nested(fs))) else m.timestamp,
         m.unknown + Others(fs))
  }

  lemma HasLast(fs: seq<Field>, number: nat)
    requires fs != []
    ensures Has(fs, number) <==> Has(fs[..|fs| - 1], number) || IsText(fs[|fs| - 1], number)
  {}

  lemma ReadableLast(fs: seq<Field>)
    requires fs != []
    ensures Readable(fs) <==> Readable(fs[..|fs| - 1]) && ReadableField(fs[|fs| - 1])
  {}

  lemma {:induction false} NothingNested(fs: seq<Field>)
    requires !Has(fs, 3)
    ensures Nested(fs) == []
  {
    if fs != [] {
      HasLast(fs, 3);
      NothingNested(fs[..|fs| - 1]);
    }
  }

  lemma NestedLast(m: Data, init: seq<Field>, f: Field)
    requires IsText(f, 3)
    ensures var before := Meaning(m, init);
            ParseTime(OrNoTime(before.timestamp), f.payload, DEPTH - 1) ==
              if ReadableField(f) then Some(FoldTime(OrNoTime(m.timestamp), Nested(init + [f]))) else None
  {
    assert (init + [f])[..|init|] == init;
    if ReadableField(f) {
      FoldTimeAppend(OrNoTime(m.timestamp), Nested(init), ReadFields(f.payload, DEPTH - 1).fields);
      if !Has(init, 3) { NothingNested(init); }
    }
  }

  lemma MeaningLast(m: Data, fs: seq<Field>)
    requires fs != []
    ensures var before := Meaning(m, fs[..|fs| - 1]);
            ApplyData(before, fs[|fs| - 1]) == if ReadableField(fs[|fs| - 1]) then Some(Meaning(m, fs)) else None
  {
    var init, f := fs[..|fs| - 1], fs[|fs| - 1];
    HasLast(fs, 3);
    assert fs == init + [f];
    if IsText(f, 3) { NestedLast(m, init, f); }
    if KnownToData(f) {
      assert Others(fs) == Others(init);
    } else {
      assert m.unknown + Others(fs) == m.unknown + Others(init) + [f];
    }
    if !IsText(f, 3) { assert Nested(fs) == Nested(init); }
  }

  /** Reading records into a message succeeds exactly if each is readable, and gives the
      meaning. */
  lemma {:induction false} FoldIsMeaning(m: Data, fs: seq<Field>)
    ensures FoldData(m, fs) == if Readable(fs) then Some(Meaning(m, fs)) else None
    decreases |fs|
  {
    if fs == [] {
      assert m.unknown + [] == m.unknown;
    } else {
      var init, f := fs[..|fs| - 1], fs[|fs| - 1];
      assert fs == init + [f];
      FoldIsMeaning(m, init);
      FoldDataAppend(m, init, [f]);
      ReadableLast(fs);
      if Readable(init) {
        MeaningLast(m, fs);
        OneRecord(Meaning(m, init), f);
      }
    }
  }

  // ---------- Timestamps ----------

  predicate HasNumber(fs: seq<Field>, number: nat) {
    exists f :: f in fs && f.Varint? && f.number == number
  }

  function LastNumber(fs: seq<Field>, number: nat): nat {
    if fs == [] then 0
    else
      var f := fs[|fs| - 1];
      if f.Varint? && f.number == number then f.value else LastNumber(fs[..|fs| - 1], number)
  }

  function OthersOfTime(fs: seq<Field>): seq<Field> {
    if fs == [] then []
    else OthersOfTime(fs[..|fs| - 1]) + if KnownToTime(fs[|fs| - 1]) then [] else [fs[|fs| - 1]]
  }

  ghost function TimeMeaning(t: Time, fs: seq<Field>): Time {
    Time(if HasNumber(fs, 1) then ToInt64(LastNumber(fs, 1)) else t.seconds,
         if HasNumber(fs, 2) then ToInt32(LastNumber(fs, 2)) else t.nanos,
         t.unknown + OthersOfTime(fs))
  }

  lemma {:induction false} FoldIsTimeMeaning(t: Time, fs: seq<Field>)
    ensures FoldTime(t, fs) == TimeMeaning(t, fs)
    decreases |fs|
  {
    if fs == [] {
      assert t.unknown + [] == t.unknown;
    } else {
      var init, f := fs[..|fs| - 1], fs[|fs| - 1];
      assert fs == init + [f];
      assert forall number :: HasNumber(fs, number) <==> HasNumber(init, number) || (f.Varint? && f.number == number);
      FoldIsTimeMeaning(t, init);
      FoldTimeAppend(t, init, [f]);
      if KnownToTime(f) {
        assert OthersOfTime(init) + [] == OthersOfTime(init);
      } else {
        assert t.unknown + OthersOfTime(init) + [f] == t.unknown + (OthersOfTime(init) + [f]);
      }
    }
  }

  // ---------- Parsing against merging ----------

  /** The records name a field only to set it to its default, over something else in a. */
  predicate TimeCleared(a: Time, b: Time, fs: seq<Field>) {
    || (HasNumber(fs, 1) && b.seconds == 0 && a.seconds != 0)
    || (HasNumber(fs, 2) && b.nanos == 0 && a.nanos != 0)
  }

  predicate Cleared(a: Data, b: Data, fs: seq<Field>) {
    || (Has(fs, 1) && b.topic == [] && a.topic != [])
    || (Has(fs, 2) && b.data == [] && a.data != [])
    || (Has(fs, 3) && TimeCleared(OrNoTime(a.timestamp), OrNoTime(b.timestamp), Nested(fs)))
  }

  lemma {:induction false} LastTextOf(fs: seq<Field>, number: nat, before: seq<Byte>)
    ensures LastText(fs, number, before) == if Has(fs, number) then LastText(fs, number, []) else before
    ensures !Has(fs, number) ==> LastText(fs, number, []) == []
  {
    if fs != [] {
      HasLast(fs, number);
      LastTextOf(fs[..|fs| - 1], number, before);
    }
  }

  lemma TimeMergesUnlessCleared(a: Time, fs: seq<Field>)
    ensures var b := FoldTime(NO_TIME, fs);
            FoldTime(a, fs) == MergeTime(a, b) <==> !TimeCleared(a, b, fs)
  {
    FoldIsTimeMeaning(a, fs);
    FoldIsTimeMeaning(NO_TIME, fs);
    assert [] + OthersOfTime(fs) == OthersOfTime(fs);
  }

  /** For any bytes whose own message is b, parsing them into a gives what merging b into a
      gives, unless they clear a field of a. */
  lemma ParsingMergesUnlessCleared(a: Data, s: seq<Byte>, b: Data)
    requires ParseData(NO_DATA, s) == Some(b)
    ensures ParseData(a, s) == Some(MergeData(a, b)) <==> !Cleared(a, b, ReadFields(s, DEPTH).fields)
  {
    var fs := ReadFields(s, DEPTH).fields;
    FoldIsMeaning(a, fs);
    FoldIsMeaning(NO_DATA, fs);
    LastTextOf(fs, 1, a.topic);
    LastTextOf(fs, 2, a.data);
    TimeMergesUnlessCleared(OrNoTime(a.timestamp), Nested(fs));
    assert [] + Others(fs) == Others(fs);
  }

  /** The two bytes of an explicitly empty topic clear the topic, which merging never does. */
  lemma EmptyTopicClears(a: Data)
    requires a.topic != []
    ensures ParseData(NO_DATA, [10, 0]) == Some(NO_DATA)
    ensures ParseData(a, [10, 0]) == Some(a.(topic := []))
    ensures MergeData(a, NO_DATA).topic == a.topic
  {
    var s: seq<Byte> := [10, 0];
    var f := Len(1, []);
    assert Utf8([]);
    assert ReadVarint(s, 5) == Got(10, s[1..]);
    assert ReadVarint(s[1..], 5) == Got(0, []);
    assert ReadField(10, s[1..], DEPTH) == Got(f, []);
    assert ReadFields(s, DEPTH) == Records([f], None, []);
    assert FoldData(NO_DATA, [f]) == Some(NO_DATA);
    assert FoldData(a, [f]) == Some(a.(topic := []));
  }
}
