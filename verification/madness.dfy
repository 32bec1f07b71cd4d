/** The madness slider label: a nearest-key lookup over a fixed ten-entry
    table, as a left-biased reduction with a strict `<`.

    Slider positions and table keys are integers in hundredths (0.1 is 10,
    1.0 is 100). The slider only produces multiples of 10 in [10, 100]; the
    finer unit lets the model state what happens exactly half-way between two
    keys, where the tie-break decides. */
module Madness {

  datatype Entry = Entry(key: int, text: string)

  /** The label table as written in the object literal, in source order. */
  const MadnessLiteral: seq<Entry> := [
    Entry(10, "HOA meeting"),
    Entry(20, "golf"),
    Entry(30, "Steven Seagal movies"),
    Entry(40, "creative writing class"),
    Entry(50, "moderately creative"),
    Entry(60, "very creative"),
    Entry(70, "acid trip"),
    Entry(80, "mild schizophrenia"),
    Entry(90, "full schizophrenia"),
    Entry(100, "maximum chaos")
  ]

  /** A key whose property name is an array index: `1.0` is stored under the
      name "1", while `0.1` ... `0.9` keep their decimal point. */
  predicate IsIndexKey(key: int) {
    key >= 0 && key % 100 == 0
  }

  /** The entries whose key is (`index`) or is not (`!index`) an array index,
      in their original relative order. */
  function KeysOfKind(entries: seq<Entry>, index: bool): (r: seq<Entry>)
    ensures forall e :: e in r <==> e in entries && IsIndexKey(e.key) == index
    ensures |r| <= |entries|
  {
    if entries == [] then []
    else
      var rest := KeysOfKind(entries[1..], index);
      if IsIndexKey(entries[0].key) == index then [entries[0]] + rest else rest
  }

  /** The order in which `Object.keys` lists an object's properties: array
      index names first, then the other names in insertion order. */
  function ObjectKeysOrder(entries: seq<Entry>): (r: seq<Entry>)
  {
    KeysOfKind(entries, true) + KeysOfKind(entries, false)
  }

  /** Splitting by key kind loses and duplicates nothing. */
  lemma {:induction false} ObjectKeysOrderPermutes(entries: seq<Entry>)
    ensures multiset(ObjectKeysOrder(entries)) == multiset(entries)
  {
    if entries != [] {
      ObjectKeysOrderPermutes(entries[1..]);
      assert entries == [entries[0]] + entries[1..];
    }
  }

  /** Filtering distributes over concatenation. */
  lemma {:induction false} KeysOfKindAppend(a: seq<Entry>, b: seq<Entry>, index: bool)
    ensures KeysOfKind(a + b, index) == KeysOfKind(a, index) + KeysOfKind(b, index)
  {
    if a != [] {
      KeysOfKindAppend(a[1..], b, index);
      assert (a + b)[0] == a[0];
      assert (a + b)[1..] == a[1..] + b;
    } else {
      assert a + b == b;
    }
  }

  /** Filtering keeps everything when every entry is of the kind kept. */
  lemma {:induction false} KeysOfKindAll(entries: seq<Entry>, index: bool)
    requires forall i :: 0 <= i < |entries| ==> IsIndexKey(entries[i].key) == index
    ensures KeysOfKind(entries, index) == entries
  {
    if entries != [] {
      KeysOfKindAll(entries[1..], index);
    }
  }

  /** Filtering keeps nothing when no entry is of the kind kept. */
  lemma {:induction false} KeysOfKindNone(entries: seq<Entry>, index: bool)
    requires forall i :: 0 <= i < |entries| ==> IsIndexKey(entries[i].key) != index
    ensures KeysOfKind(entries, index) == []
  {
    if entries != [] {
      KeysOfKindNone(entries[1..], index);
    }
  }

  /** The table in the order the reduction visits it: `1.0` first, then
      `0.1` ... `0.9`. */
  const MadnessTable: seq<Entry> := [MadnessLiteral[9]] + MadnessLiteral[..9]

  /** That is the order `Object.keys` lists the literal's properties in. */
  lemma MadnessVisitOrder()
    ensures MadnessTable == ObjectKeysOrder(MadnessLiteral)
  {
    LastIndexKeyMovesFirst(MadnessLiteral);
  }

  /** When only the last key is an array index, `Object.keys` moves it to
      the front and keeps the rest in insertion order. */
  lemma LastIndexKeyMovesFirst(entries: seq<Entry>)
    requires |entries| > 0 && IsIndexKey(entries[|entries| - 1].key)
    requires forall i :: 0 <= i < |entries| - 1 ==> !IsIndexKey(entries[i].key)
    ensures ObjectKeysOrder(entries) == [entries[|entries| - 1]] + entries[..|entries| - 1]
  {
    var init, last := entries[..|entries| - 1], [entries[|entries| - 1]];
    assert entries == init + last;
    KeysOfKindAppend(init, last, true);
    KeysOfKindAppend(init, last, false);
    KeysOfKindNone(init, true);
    KeysOfKindAll(last, true);
    KeysOfKindAll(init, false);
    KeysOfKindNone(last, false);
  }

  /** `Math.abs(key - value)`, exact. */
  function Dist(key: int, value: int): nat {
    if key >= value then key - value else value - key
  }

  /** Entry `i` is at minimal distance from `value`, and strictly nearer
      than every entry visited before it: the entry a left-biased reduction
      with a strict `<` keeps. */
  predicate IsFirstNearest(table: seq<Entry>, value: int, i: nat) {
    && i < |table|
    && (forall j :: 0 <= j < |table| ==> Dist(table[i].key, value) <= Dist(table[j].key, value))
    && (forall j :: 0 <= j < i ==> Dist(table[i].key, value) < Dist(table[j].key, value))
  }

  /** At most one entry is the first nearest one. */
  lemma FirstNearestUnique(table: seq<Entry>, value: int, a: nat, b: nat)
    requires IsFirstNearest(table, value, a) && IsFirstNearest(table, value, b)
    ensures a == b
  {
    var da, db := Dist(table[a].key, value), Dist(table[b].key, value);
    assert a < b ==> db < da;
    assert b < a ==> da < db;
  }

  /** `table[..n].reduce((prev, curr) => |curr - v| < |prev - v| ? curr : prev)`,
      as the position of the entry kept. */
  function ReduceNearest(table: seq<Entry>, value: int, n: nat): (r: nat)
    requires 0 < n <= |table|
    ensures IsFirstNearest(table[..n], value, r)
    decreases n
  {
    if n == 1 then 0
    else
      var prev := ReduceNearest(table, value, n - 1);
      assert table[..n - 1] == table[..n][..n - 1];
      if Dist(table[n - 1].key, value) < Dist(table[prev].key, value) then n - 1 else prev
  }

  /** The position of the entry the reduction over the whole table keeps. */
  function NearestIndex(table: seq<Entry>, value: int): (r: nat)
    requires |table| > 0
    ensures IsFirstNearest(table, value, r)
  {
    assert table[..|table|] == table;
    ReduceNearest(table, value, |table|)
  }

  /** `getMadnessLabel(value)`: the label of the first nearest key in visit
      order; always one of the table's labels. */
  function GetMadnessLabel(value: int): (name: string)
    ensures exists i :: 0 <= i < |MadnessTable| && MadnessTable[i].text == name
    ensures forall i: nat :: IsFirstNearest(MadnessTable, value, i) ==> name == MadnessTable[i].text
  {
    var i := NearestIndex(MadnessTable, value);
    forall k: nat | IsFirstNearest(MadnessTable, value, k)
      ensures k == i
    {
      FirstNearestUnique(MadnessTable, value, i, k);
    }
    MadnessTable[i].text
  }

  /** Away from the half-way points, every value shows the label of the key
      nearest to it, and values beyond either end show the end's label:
      in particular each slider position 0.1 ... 1.0 shows its own label. */
  lemma MadnessNearestPosition(value: int, tenths: int)
    requires 1 <= tenths <= 10
    requires tenths == 1 || 10 * tenths - 5 < value
    requires tenths == 10 || value < 10 * tenths + 5
    ensures GetMadnessLabel(value) == MadnessLiteral[tenths - 1].text
  {
    var i := if tenths == 10 then 0 else tenths;
    assert MadnessTable[i] == MadnessLiteral[tenths - 1];
    assert IsFirstNearest(MadnessTable, value, i);
  }

  /** In exact arithmetic, exactly half-way between two keys the strict `<`
      keeps the key visited
      first: the lower key for 0.15 ... 0.85, but `1.0` for 0.95, because
      `1.0` is visited before `0.9`. */
  lemma MadnessMidpoint(tenths: int)
    requires 1 <= tenths <= 9
    ensures GetMadnessLabel(10 * tenths + 5) ==
      (if tenths == 9 then MadnessLiteral[9].text else MadnessLiteral[tenths - 1].text)
  {
    var i := if tenths == 9 then 0 else tenths;
    assert IsFirstNearest(MadnessTable, 10 * tenths + 5, i);
  }

  /** Three boundary values, in exact arithmetic: 0.55, 0.83 and 0.95. */
  lemma MadnessExamples()
    ensures GetMadnessLabel(55) == "moderately creative"
    ensures GetMadnessLabel(83) == "mild schizophrenia"
    ensures GetMadnessLabel(95) == "maximum chaos"
  {
    MadnessMidpoint(5);
    MadnessMidpoint(9);
    MadnessNearestPosition(83, 8);
  }
}
