/** The perfect-hash table of the operations of the hw5 Time interface, against plain search. */
module OpTables {
  import opened Options

  /** An operation and the skeleton that serves it. */
  datatype Entry = Entry(opname: string, skel: string)

  const NUL: char := '\0'
  const EMPTY := Entry("", "")

  /** The hash values of the characters, ten to a row. */
  const OTHERS: seq<nat> := [20, 20, 20, 20, 20, 20, 20, 20, 20, 20]
  const FROM_90: seq<nat> := [20, 20, 20, 20, 20, 0, 20, 0, 20, 0]
  const FROM_100: seq<nat> := [5, 5, 20, 20, 20, 20, 20, 20, 20, 20]
  const FROM_110: seq<nat> := [0, 20, 20, 20, 20, 0, 0, 20, 20, 20]
  const ASSO_VALUES: seq<seq<nat>> :=
    [OTHERS, OTHERS, OTHERS, OTHERS, OTHERS, OTHERS, OTHERS, OTHERS, OTHERS, FROM_90, FROM_100, FROM_110, OTHERS[..8]]
  const IS_A := Entry("_is_a", "_is_a_thru_poa_skel")
  const SHUTDOWN := Entry("shutdown", "shutdown_skel")
  const COMPONENT := Entry("_component", "_component_thru_poa_skel")
  const NON_EXISTENT := Entry("_non_existent", "_non_existent_thru_poa_skel")
  const COUNT_REQUESTS := Entry("count_requests", "count_requests_skel")
  const INTERFACE := Entry("_interface", "_interface_skel")
  const CURRENT_TIME := Entry("current_time", "current_time_skel")
  const REPOSITORY_ID := Entry("_repository_id", "_repository_id_thru_poa_skel")
  const WORD_LIST: seq<Entry> :=
    [EMPTY, EMPTY, EMPTY, EMPTY, EMPTY, IS_A, EMPTY, EMPTY, SHUTDOWN, EMPTY,
     COMPONENT, EMPTY, EMPTY, NON_EXISTENT, COUNT_REQUESTS, INTERFACE, EMPTY, CURRENT_TIME, EMPTY, REPOSITORY_ID]
  const OPERATIONS: seq<Entry> :=
    [IS_A, SHUTDOWN, COMPONENT, NON_EXISTENT, COUNT_REQUESTS, INTERFACE, CURRENT_TIME, REPOSITORY_ID]

  predicate Ascii(str: string) {
    forall i :: 0 <= i < |str| ==> str[i] as int < 128
  }

  function AssoValue(c: char): nat
    requires c as int < 128
  {
    ASSO_VALUES[c as int / 10][c as int % 10]
  }

  function Hash(str: string): nat
    requires |str| > 0 && Ascii(str)
  {
    |str| + AssoValue(str[|str| - 1]) + AssoValue(str[0])
  }

  /** The characters of a C string, with its terminator. */
  function CharAt(s: string, i: nat): char {
    if i < |s| then s[i] else NUL
  }

  /** strncmp finds no difference between a and b from position `from` on. */
  predicate Same(a: string, b: string, from: nat, n: nat)
    decreases n
  {
    n == 0 || (CharAt(a, from) == CharAt(b, from) && (CharAt(a, from) == NUL || Same(a, b, from + 1, n - 1)))
  }

  function Lookup(str: string): Option<Entry>
    requires Ascii(str)
  {
    if 5 <= |str| <= 14 then
      var key := Hash(str);
      if 5 <= key <= 19 then
        var s := WORD_LIST[key].opname;
        if str[0] == CharAt(s, 0) && Same(str, s, 1, |str| - 1) then Some(WORD_LIST[key]) else None
      else None
    else None
  }

  function Search(str: string, entries: seq<Entry>): Option<Entry> {
    if entries == [] then None
    else if entries[0].opname == str then Some(entries[0])
    else Search(str, entries[1..])
  }

  lemma ThreeValues(c: char)
    requires c as int < 128
    ensures AssoValue(c) == 0 || AssoValue(c) == 5 || AssoValue(c) == 20
  {}

  predicate NoNul(s: string) {
    forall i :: 0 <= i < |s| ==> s[i] != NUL
  }

  /** Only the characters that both strings have are sure to agree: a string may be shorter
      than the name, and the name shorter than the string. */
  lemma {:induction false} SameAgrees(a: string, b: string, from: nat, n: nat, i: nat)
    requires NoNul(b) && Same(a, b, from, n) && from <= i < from + n && i < |a| && i < |b|
    ensures a[i] == b[i]
    decreases n
  {
    if i > from { SameAgrees(a, b, from + 1, n - 1, i); }
  }

  lemma {:induction false} SameAsItself(s: string, from: nat, n: nat)
    ensures Same(s, s, from, n)
    decreases n
  {
    if n > 0 { SameAsItself(s, from + 1, n - 1); }
  }

  /** Why a string that hashes to the slot of a name cannot be shorter or longer than the name:
      its length is the hash value or five less. */
  predicate GoodSlot(name: string, key: nat) {
    && 5 <= |name| <= 14 && Ascii(name) && NoNul(name) && AssoValue(name[0]) == 0
    && (|name| == key || (|name| + 5 == key && key > 14))
    && Hash(name) == key
    && (10 <= key && |name| == key ==> AssoValue(name[key - 6]) != 5)
  }

  lemma ShortSlots()
    ensures GoodSlot(IS_A.opname, 5) && GoodSlot(SHUTDOWN.opname, 8)
  {}

  lemma MiddleSlots()
    ensures GoodSlot(COMPONENT.opname, 10) && GoodSlot(INTERFACE.opname, 15)
  {}

  lemma LongSlots()
    ensures GoodSlot(NON_EXISTENT.opname, 13) && GoodSlot(CURRENT_TIME.opname, 17)
  {}

  lemma LongestSlots()
    ensures GoodSlot(COUNT_REQUESTS.opname, 14) && GoodSlot(REPOSITORY_ID.opname, 19)
  {}

  lemma Slot(key: nat)
    requires key < |WORD_LIST| && WORD_LIST[key] != EMPTY
    ensures GoodSlot(WORD_LIST[key].opname, key)
  {
    assert key == 5 || key == 8 || key == 10 || key == 13 || key == 14 || key == 15 || key == 17 || key == 19;
    ShortSlots();
    MiddleSlots();
    LongSlots();
    LongestSlots();
  }

  lemma OnlyItsLength(str: string, key: nat)
    requires key < |WORD_LIST| && WORD_LIST[key] != EMPTY
    requires Ascii(str) && 5 <= |str| <= 14 && Hash(str) == key
    requires var name := WORD_LIST[key].opname; forall i :: 0 <= i < |str| && i < |name| ==> str[i] == name[i]
    ensures str == WORD_LIST[key].opname
  {
    var name := WORD_LIST[key].opname;
    Slot(key);
    assert str[0] == name[0];
    ThreeValues(str[|str| - 1]);
    assert |str| == key || |str| == key - 5;
    assert |str| == |name|;
  }

  lemma FoundIsInUse(str: string)
    requires Ascii(str) && Lookup(str).Some?
    ensures WORD_LIST[Hash(str)] != EMPTY
  {}

  lemma FoundAgrees(str: string, name: string)
    requires |str| > 0 && |name| > 0 && NoNul(name) && str[0] == name[0] && Same(str, name, 1, |str| - 1)
    ensures forall i :: 0 <= i < |str| && i < |name| ==> str[i] == name[i]
  {
    forall i | 0 < i < |str| && i < |name| ensures str[i] == name[i] {
      SameAgrees(str, name, 1, |str| - 1, i);
    }
  }

  lemma SlotIsOperation(key: nat)
    requires key < |WORD_LIST| && WORD_LIST[key] != EMPTY
    ensures WORD_LIST[key] in OPERATIONS
  {}

  lemma FoundIsExact(str: string)
    requires Ascii(str) && Lookup(str).Some?
    ensures Lookup(str).value in OPERATIONS && Lookup(str).value.opname == str
  {
    var key := Hash(str);
    FoundIsInUse(str);
    Slot(key);
    FoundAgrees(str, WORD_LIST[key].opname);
    OnlyItsLength(str, key);
    SlotIsOperation(key);
  }

  lemma OperationHasSlot(k: nat) returns (key: nat)
    requires k < |OPERATIONS|
    ensures 5 <= key <= 19 && WORD_LIST[key] == OPERATIONS[k] && WORD_LIST[key] != EMPTY
  {
    key := [5, 8, 10, 13, 14, 15, 17, 19][k];
  }

  lemma EveryNameIsFound(k: nat)
    requires k < |OPERATIONS|
    ensures Ascii(OPERATIONS[k].opname) && Lookup(OPERATIONS[k].opname) == Some(OPERATIONS[k])
  {
    var key := OperationHasSlot(k);
    Slot(key);
    SameAsItself(OPERATIONS[k].opname, 1, |OPERATIONS[k].opname| - 1);
  }

  lemma {:induction false} SearchFinds(str: string, entries: seq<Entry>)
    ensures Search(str, entries).Some? ==>
              Search(str, entries).value in entries && Search(str, entries).value.opname == str
    ensures Search(str, entries).None? ==> forall k :: 0 <= k < |entries| ==> entries[k].opname != str
  {
    if entries != [] && entries[0].opname != str { SearchFinds(str, entries[1..]); }
  }

  /** The skeleton of each of the eight operations; None for every other string. */
  function SkeletonOf(str: string): Option<string> {
    match str
    case "_is_a" => Some("_is_a_thru_poa_skel")
    case "shutdown" => Some("shutdown_skel")
    case "_component" => Some("_component_thru_poa_skel")
    case "_non_existent" => Some("_non_existent_thru_poa_skel")
    case "count_requests" => Some("count_requests_skel")
    case "_interface" => Some("_interface_skel")
    case "current_time" => Some("current_time_skel")
    case "_repository_id" => Some("_repository_id_thru_poa_skel")
    case _ => None
  }

  /** The hash finds what plain search finds, and nothing else: every name, no prefix of a name,
      no longer string, no empty slot. */
  lemma LookupIsSearch(str: string)
    requires Ascii(str)
    ensures Lookup(str) == Search(str, OPERATIONS)
  {
    SearchFinds(str, OPERATIONS);
    if Search(str, OPERATIONS).Some? {
      var k :| 0 <= k < |OPERATIONS| && OPERATIONS[k] == Search(str, OPERATIONS).value;
      EveryNameIsFound(k);
    } else if Lookup(str).Some? {
      FoundIsExact(str);
      assert false;
    }
  }
  lemma EntrySkeleton(k: nat)
    requires k < |OPERATIONS|
    ensures SkeletonOf(OPERATIONS[k].opname) == Some(OPERATIONS[k].skel)
  {
    assert "_component"[1] != "_interface"[1] && "count_requests"[0] != "_repository_id"[0];
    assert |OPERATIONS[k].opname| == [5, 8, 10, 13, 14, 10, 12, 14][k];
  }

  lemma OnlyOperations(str: string) returns (k: nat)
    requires SkeletonOf(str).Some?
    ensures k < |OPERATIONS| && OPERATIONS[k].opname == str
  {
    k := match str
      case "_is_a" => 0
      case "shutdown" => 1
      case "_component" => 2
      case "_non_existent" => 3
      case "count_requests" => 4
      case "_interface" => 5
      case "current_time" => 6
      case _ => 7;
  }

  /** Every name is answered with its own skeleton, and no other string with any. */
  lemma LookupFindsSkeleton(str: string)
    requires Ascii(str)
    ensures Lookup(str) == if SkeletonOf(str).Some? then Some(Entry(str, SkeletonOf(str).value)) else None
  {
    LookupIsSearch(str);
    SearchFinds(str, OPERATIONS);
    if SkeletonOf(str).Some? { var k := OnlyOperations(str); }
    if Lookup(str).Some? {
      var k :| 0 <= k < |OPERATIONS| && OPERATIONS[k] == Lookup(str).value;
      EntrySkeleton(k);
    }
  }
}
