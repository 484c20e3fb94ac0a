/** An Android `Bundle` and an `Intent`'s extras as a map from key to typed value, with the
    typed getters' defaults, and the codec that stores an enum set as a list of ordinals. */
module Bundles {
  import opened Wrappers
  import opened MediaItemModel

  datatype Value =
    | IntValue(i: int)
    | BoolValue(b: bool)
    | StringValue(s: string)
    | IntegerArrayListValue(ints: seq<int>)
    | StringArrayListValue(strs: seq<string>)
    | StringArrayValue(items: seq<string>)
    | IntArrayValue(elems: seq<int>)
    | ParcelableArrayListValue(parcels: seq<Identifier>)

  /** `getInt(key, default)`: the default when the key is missing or holds another type. */
  function GetInt(m: map<string, Value>, key: string, default: int): int {
    if key in m && m[key].IntValue? then m[key].i else default
  }

  function GetBoolean(m: map<string, Value>, key: string, default: bool): bool {
    if key in m && m[key].BoolValue? then m[key].b else default
  }

  function GetString(m: map<string, Value>, key: string): Option<string> {
    if key in m && m[key].StringValue? then Some(m[key].s) else None
  }

  function GetIntegerArrayList(m: map<string, Value>, key: string): Option<seq<int>> {
    if key in m && m[key].IntegerArrayListValue? then Some(m[key].ints) else None
  }

  function GetStringArrayList(m: map<string, Value>, key: string): Option<seq<string>> {
    if key in m && m[key].StringArrayListValue? then Some(m[key].strs) else None
  }

  class Bundle {
    var entries: map<string, Value>

    constructor ()
      ensures entries == map[]
    {
      entries := map[];
    }

    method PutInt(key: string, v: int)
      modifies this
      ensures entries == old(entries)[key := IntValue(v)]
    {
      entries := entries[key := IntValue(v)];
    }

    method PutBoolean(key: string, v: bool)
      modifies this
      ensures entries == old(entries)[key := BoolValue(v)]
    {
      entries := entries[key := BoolValue(v)];
    }

    method PutString(key: string, v: string)
      modifies this
      ensures entries == old(entries)[key := StringValue(v)]
    {
      entries := entries[key := StringValue(v)];
    }

    method PutIntegerArrayList(key: string, v: seq<int>)
      modifies this
      ensures entries == old(entries)[key := IntegerArrayListValue(v)]
    {
      entries := entries[key := IntegerArrayListValue(v)];
    }

    method PutStringArrayList(key: string, v: seq<string>)
      modifies this
      ensures entries == old(entries)[key := StringArrayListValue(v)]
    {
      entries := entries[key := StringArrayListValue(v)];
    }
  }

  /** An `Intent`; only its extras are modelled. */
  class Intent {
    var extras: map<string, Value>

    constructor ()
      ensures extras == map[]
    {
      extras := map[];
    }

    method PutIntExtra(key: string, v: int)
      modifies this
      ensures extras == old(extras)[key := IntValue(v)]
    {
      extras := extras[key := IntValue(v)];
    }

    method PutBooleanExtra(key: string, v: bool)
      modifies this
      ensures extras == old(extras)[key := BoolValue(v)]
    {
      extras := extras[key := BoolValue(v)];
    }

    method PutStringExtra(key: string, v: string)
      modifies this
      ensures extras == old(extras)[key := StringValue(v)]
    {
      extras := extras[key := StringValue(v)];
    }

    method PutIntegerArrayListExtra(key: string, v: seq<int>)
      modifies this
      ensures extras == old(extras)[key := IntegerArrayListValue(v)]
    {
      extras := extras[key := IntegerArrayListValue(v)];
    }

    method PutStringArrayExtra(key: string, v: seq<string>)
      modifies this
      ensures extras == old(extras)[key := StringArrayValue(v)]
    {
      extras := extras[key := StringArrayValue(v)];
    }

    method PutIntArrayExtra(key: string, v: seq<int>)
      modifies this
      ensures extras == old(extras)[key := IntArrayValue(v)]
    {
      extras := extras[key := IntArrayValue(v)];
    }

    method PutParcelableArrayListExtra(key: string, v: seq<Identifier>)
      modifies this
      ensures extras == old(extras)[key := ParcelableArrayListValue(v)]
    {
      extras := extras[key := ParcelableArrayListValue(v)];
    }
  }

  /** A put after a merge is the merge of the put. */
  lemma UpdateOverMerge<K, V>(e: map<K, V>, m: map<K, V>, k: K, v: V)
    ensures (e + m)[k := v] == e + m[k := v]
  {
  }

  /** `values()[i]`: throws `ArrayIndexOutOfBoundsException` outside the table. */
  function ValueAt<T>(values: seq<T>, i: int): (r: Result<T, string>)
    ensures r.Ok? <==> 0 <= i < |values|
    ensures r.Ok? ==> r.value == values[i]
  {
    if 0 <= i < |values| then Ok(values[i]) else Err("ArrayIndexOutOfBoundsException")
  }

  /** The ordinals, ascending from `k`, of the members of `s` among `values`: the list
      `ArrayList(set.map { it.ordinal })` writes, in one fixed iteration order. */
  function OrdinalsFrom<T>(s: set<T>, values: seq<T>, k: nat): (r: seq<int>)
    requires k <= |values|
    ensures forall j :: 0 <= j < |r| ==> k <= r[j] < |values| && values[r[j]] in s
    decreases |values| - k
  {
    if k == |values| then []
    else (if values[k] in s then [k] else []) + OrdinalsFrom(s, values, k + 1)
  }

  /** Every member of `s` from position `k` on has its ordinal in the list. */
  lemma {:induction false} OrdinalsFromComplete<T>(s: set<T>, values: seq<T>, k: nat, i: nat)
    requires k <= i < |values| && values[i] in s
    ensures i in OrdinalsFrom(s, values, k)
    decreases i - k
  {
    if k < i {
      OrdinalsFromComplete(s, values, k + 1, i);
    }
  }

  function Ordinals<T>(s: set<T>, values: seq<T>): seq<int> {
    OrdinalsFrom(s, values, 0)
  }

  /** `list.map { values()[it] }.toSet()`: fails at the first ordinal outside the table. */
  function DecodeOrdinals<T>(ords: seq<int>, values: seq<T>): (r: Result<set<T>, string>)
    ensures r.Ok? <==> forall j :: 0 <= j < |ords| ==> 0 <= ords[j] < |values|
    ensures r.Ok? ==> forall j :: 0 <= j < |ords| ==> values[ords[j]] in r.value
    ensures r.Ok? ==> forall x :: x in r.value ==> x in values
  {
    if ords == [] then Ok({})
    else if !(0 <= ords[0] < |values|) then Err("ArrayIndexOutOfBoundsException")
    else
      var rest := DecodeOrdinals(ords[1..], values);
      if rest.Err? then rest else Ok({values[ords[0]]} + rest.value)
  }

  /** The members of `values` from position `k` on. */
  function ValuesFrom<T>(values: seq<T>, k: nat): set<T>
    requires k <= |values|
    decreases |values| - k
  {
    if k == |values| then {} else {values[k]} + ValuesFrom(values, k + 1)
  }

  lemma {:induction false} ValuesFromContains<T>(values: seq<T>, k: nat, i: nat)
    requires k <= i < |values|
    ensures values[i] in ValuesFrom(values, k)
    decreases i - k
  {
    if k < i {
      ValuesFromContains(values, k + 1, i);
    }
  }

  lemma DecodeOrdinalsCons<T>(x: int, tail: seq<int>, values: seq<T>)
    requires 0 <= x < |values|
    requires DecodeOrdinals(tail, values).Ok?
    ensures DecodeOrdinals([x] + tail, values) == Ok({values[x]} + DecodeOrdinals(tail, values).value)
  {
    assert ([x] + tail)[1..] == tail;
  }

  lemma {:induction false} DecodeOrdinalsFrom<T>(s: set<T>, values: seq<T>, k: nat)
    requires k <= |values|
    ensures DecodeOrdinals(OrdinalsFrom(s, values, k), values) == Ok(s * ValuesFrom(values, k))
    decreases |values| - k
  {
    if k == |values| {
      assert s * ValuesFrom(values, k) == {};
    } else {
      DecodeOrdinalsFrom(s, values, k + 1);
      var tail := OrdinalsFrom(s, values, k + 1);
      var rest := s * ValuesFrom(values, k + 1);
      assert ValuesFrom(values, k) == {values[k]} + ValuesFrom(values, k + 1);
      if values[k] in s {
        assert OrdinalsFrom(s, values, k) == [k] + tail;
        DecodeOrdinalsCons(k, tail, values);
        assert s * ValuesFrom(values, k) == {values[k]} + rest;
      } else {
        assert OrdinalsFrom(s, values, k) == tail;
        assert s * ValuesFrom(values, k) == rest;
      }
    }
  }

  /** Storing a set as ordinals and reading it back gives the set, when the table lists
      every value of the type. */
  lemma DecodeOrdinalsRoundTrip<T>(s: set<T>, values: seq<T>)
    requires forall x :: x in s ==> x in values
    ensures DecodeOrdinals(Ordinals(s, values), values) == Ok(s)
  {
    DecodeOrdinalsFrom(s, values, 0);
    forall x | x in s ensures x in ValuesFrom(values, 0) {
      var i :| 0 <= i < |values| && values[i] == x;
      ValuesFromContains(values, 0, i);
    }
    assert s * ValuesFrom(values, 0) == s;
  }
}
