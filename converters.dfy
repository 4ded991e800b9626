/**
  The shared lookup of every identifier converter (`Converter.key_to_value`):
  one key gives the mapped value or nothing; a list of keys gives the values
  found, in input order, with an "NA" placeholder per absent key when asked for,
  together with the set of absent keys.
*/
module Converters {
  import opened Results

  /** The `keys` argument: a single string, or a list of strings. */
  datatype Keys = Single(key: string) | Batch(keys: seq<string>)

  /** The result: the value for a single key (None when absent), or the pair (values, missing). */
  datatype Converted =
    | Value(found: Option<string>)
    | Values(values: seq<string>, missing: set<string>)

  /** The placeholder written for an absent key when `include_na` is set. */
  const NA: string := "NA"

  /** The values list of a batch conversion, built key by key in input order. */
  function ConvertedValues(keys: seq<string>, table: map<string, string>, includeNa: bool): seq<string>
    decreases |keys|
  {
    if keys == [] then []
    else
      var before := ConvertedValues(keys[..|keys| - 1], table, includeNa);
      var key := keys[|keys| - 1];
      if key in table then before + [table[key]]
      else if includeNa then before + [NA]
      else before
  }

  /** The input keys that have no entry in the table; duplicates collapse. */
  function MissingKeys(keys: seq<string>, table: map<string, string>): set<string> {
    set i | 0 <= i < |keys| && keys[i] !in table :: keys[i]
  }

  /** What `key_to_value(keys, table, include_na)` returns. */
  function Conversion(keys: Keys, table: map<string, string>, includeNa: bool): Converted {
    match keys
    case Single(key) => Value(if key in table then Some(table[key]) else None)
    case Batch(ks) => Values(ConvertedValues(ks, table, includeNa), MissingKeys(ks, table))
  }

  /** `Converter.key_to_value`: a lookup for one key, a loop over the list otherwise. */
  method KeyToValue(keys: Keys, table: map<string, string>, includeNa: bool) returns (r: Converted)
    ensures r == Conversion(keys, table, includeNa)
  {
    match keys {
      case Single(key) =>
        if key in table {
          r := Value(Some(table[key]));
        } else {
          r := Value(None);
        }
      case Batch(ks) =>
        var values: seq<string> := [];
        var missing: set<string> := {};
        var i := 0;
        while i < |ks|
          invariant 0 <= i <= |ks|
          invariant values == ConvertedValues(ks[..i], table, includeNa)
          invariant missing == MissingKeys(ks[..i], table)
        {
          var key := ks[i];
          assert ks[..i + 1][..i] == ks[..i];
          if key in table {
            values := values + [table[key]];
          } else {
            if includeNa {
              values := values + [NA];
            }
            missing := missing + {key};
          }
          i := i + 1;
        }
        assert ks[..i] == ks;
        r := Values(values, missing);
    }
  }

  /** Converting a concatenation converts each part in turn: the values keep input order. */
  lemma {:induction false} ConvertedValuesAppend(a: seq<string>, b: seq<string>, table: map<string, string>, includeNa: bool)
    ensures ConvertedValues(a + b, table, includeNa)
            == ConvertedValues(a, table, includeNa) + ConvertedValues(b, table, includeNa)
    decreases |b|
  {
    if b == [] {
      assert a + b == a;
    } else {
      assert (a + b)[..|a + b| - 1] == a + b[..|b| - 1];
      ConvertedValuesAppend(a, b[..|b| - 1], table, includeNa);
    }
  }

  /** With `include_na`, there is one value per key: the mapped value, or "NA" exactly where the key is absent. */
  lemma {:induction false} PlaceholdersKeepPositions(keys: seq<string>, table: map<string, string>)
    ensures |ConvertedValues(keys, table, true)| == |keys|
    ensures forall i :: 0 <= i < |keys| ==>
              ConvertedValues(keys, table, true)[i] == (if keys[i] in table then table[keys[i]] else NA)
    decreases |keys|
  {
    if keys != [] {
      PlaceholdersKeepPositions(keys[..|keys| - 1], table);
    }
  }

  /**
    Without `include_na`, the values are those of the keys that are present, in input
    order: converting the list equals converting the present keys alone, and
    there are as many values as there are present keys.
  */
  lemma {:induction false} AbsentKeysOmitted(keys: seq<string>, table: map<string, string>)
    ensures ConvertedValues(keys, table, false) == ConvertedValues(PresentKeys(keys, table), table, true)
    ensures |ConvertedValues(keys, table, false)| == |PresentKeys(keys, table)|
    ensures forall v :: v in ConvertedValues(keys, table, false) ==> v in table.Values
    decreases |keys|
  {
    if keys != [] {
      var init := keys[..|keys| - 1];
      var key := keys[|keys| - 1];
      AbsentKeysOmitted(init, table);
      if key in table {
        ConvertedValuesAppend(PresentKeys(init, table), [key], table, true);
        assert ConvertedValues([key], table, true) == [table[key]] by {
          assert [key][..0] == [];
        }
      }
      PlaceholdersKeepPositions(PresentKeys(keys, table), table);
    }
  }

  /** The keys of a list that the table maps, in input order. */
  function PresentKeys(keys: seq<string>, table: map<string, string>): (r: seq<string>)
    ensures forall k :: k in r ==> k in table
    ensures forall k :: k in keys && k in table ==> k in r
    ensures |r| <= |keys|
    decreases |keys|
  {
    if keys == [] then []
    else
      var init := PresentKeys(keys[..|keys| - 1], table);
      var key := keys[|keys| - 1];
      assert forall k :: k in keys ==> k in keys[..|keys| - 1] || k == key;
      if key in table then init + [key] else init
  }

  /** A key is reported missing exactly when it occurs in the input and the table lacks it. */
  lemma MissingIffAbsent(keys: seq<string>, table: map<string, string>, k: string)
    ensures k in MissingKeys(keys, table) <==> k in keys && k !in table
  {
    if k in keys && k !in table {
      var i :| 0 <= i < |keys| && keys[i] == k;
    }
  }

  /** When every key is present, the values are the table's values for the keys in input order and nothing is missing. */
  lemma {:induction false} AllKeysPresent(keys: seq<string>, table: map<string, string>, includeNa: bool)
    requires forall i :: 0 <= i < |keys| ==> keys[i] in table
    ensures |ConvertedValues(keys, table, includeNa)| == |keys|
    ensures forall i :: 0 <= i < |keys| ==> ConvertedValues(keys, table, includeNa)[i] == table[keys[i]]
    ensures MissingKeys(keys, table) == {}
    decreases |keys|
  {
    if keys != [] {
      AllKeysPresent(keys[..|keys| - 1], table, includeNa);
    }
  }

  /** Two keys the table maps convert to their two values, in order, with nothing missing. */
  lemma TwoKeysFound(x: string, y: string, table: map<string, string>)
    requires x in table && y in table
    ensures Conversion(Batch([x, y]), table, false) == Values([table[x], table[y]], {})
  {
    AllKeysPresent([x, y], table, false);
    assert ConvertedValues([x, y], table, false) == [table[x], table[y]];
  }

  /** Two keys the table maps and one it lacks: the two values, in order, and the third key reported missing. */
  lemma TwoFoundOneMissing(x: string, y: string, z: string, table: map<string, string>)
    requires x in table && y in table && z !in table
    ensures Conversion(Batch([x, y, z]), table, false) == Values([table[x], table[y]], {z})
  {
    assert [x, y, z][..2] == [x, y];
    TwoKeysFound(x, y, table);
    assert MissingKeys([x, y, z], table) == {z} by {
      MissingIffAbsent([x, y, z], table, z);
      forall k | k in MissingKeys([x, y, z], table)
        ensures k == z
      {
        MissingIffAbsent([x, y, z], table, k);
      }
    }
  }

  /** The id -> symbol table of the gene converter's test file. */
  function GeneTestTable(): map<string, string> {
    map["1" := "A1BG", "2" := "A2M", "3" := "A2MP1", "9" := "NAT1", "10" := "NAT2", "11" := "NATP"]
  }

  /** converters_test: ids `10`, `3` and `14` give `NAT2` and `A2MP1`, with `14` missing. */
  lemma IdToSymbolExample()
    ensures Conversion(Batch(["10", "3", "14"]), GeneTestTable(), false) == Values(["NAT2", "A2MP1"], {"14"})
  {
    TwoFoundOneMissing("10", "3", "14", GeneTestTable());
  }

  /** The single-key form agrees with a one-element list. */
  lemma {:induction false} SingleAgreesWithBatch(key: string, table: map<string, string>)
    ensures Conversion(Single(key), table, false).found.Some?
            <==> Conversion(Batch([key]), table, false).missing == {}
    ensures Conversion(Single(key), table, false).found.Some?
            ==> Conversion(Batch([key]), table, false).values == [Conversion(Single(key), table, false).found.value]
  {
    assert [key][..0] == [];
    assert ConvertedValues([key][..0], table, false) == [];
    MissingIffAbsent([key], table, key);
  }

  /**
    A conversion table filled from (key, value) pairs in order, on top of `base`:
    `table[key] = value` for each pair, so a later pair overwrites an earlier one.
  */
  function Record<V>(base: map<string, V>, pairs: seq<(string, V)>): (r: map<string, V>)
    decreases |pairs|
  {
    if pairs == [] then base
    else Record(base, pairs[..|pairs| - 1])[pairs[|pairs| - 1].0 := pairs[|pairs| - 1].1]
  }

  /** The same pairs read the other way round, value first. */
  function Swapped(pairs: seq<(string, string)>): (r: seq<(string, string)>)
    ensures |r| == |pairs|
    ensures forall i :: 0 <= i < |pairs| ==> r[i] == (pairs[i].1, pairs[i].0)
  {
    seq(|pairs|, i requires 0 <= i < |pairs| => (pairs[i].1, pairs[i].0))
  }

  /** The table's keys are those of the base and of the pairs. */
  lemma {:induction false} RecordKeys<V>(base: map<string, V>, pairs: seq<(string, V)>, k: string)
    ensures k in Record(base, pairs) <==> k in base || exists j :: 0 <= j < |pairs| && pairs[j].0 == k
    decreases |pairs|
  {
    if pairs != [] {
      RecordKeys(base, pairs[..|pairs| - 1], k);
      if k in base || exists j :: 0 <= j < |pairs| && pairs[j].0 == k {
        if k !in base && k != pairs[|pairs| - 1].0 {
          var j :| 0 <= j < |pairs| && pairs[j].0 == k;
          assert pairs[..|pairs| - 1][j].0 == k;
        }
      }
    }
  }

  /** A pair that no later pair overrides decides the table's value for its key: the last one wins. */
  lemma {:induction false} RecordLastWins<V>(base: map<string, V>, pairs: seq<(string, V)>, j: nat)
    requires j < |pairs|
    requires forall l :: j < l < |pairs| ==> pairs[l].0 != pairs[j].0
    ensures pairs[j].0 in Record(base, pairs) && Record(base, pairs)[pairs[j].0] == pairs[j].1
    decreases |pairs|
  {
    if j < |pairs| - 1 {
      RecordLastWins(base, pairs[..|pairs| - 1], j);
    }
  }

  /** A key set by some pair holds the value of one of the pairs for that key. */
  lemma {:induction false} RecordValueFromPair<V>(base: map<string, V>, pairs: seq<(string, V)>, k: string)
    requires exists j :: 0 <= j < |pairs| && pairs[j].0 == k
    ensures k in Record(base, pairs)
    ensures exists j :: 0 <= j < |pairs| && pairs[j] == (k, Record(base, pairs)[k])
    decreases |pairs|
  {
    var last := pairs[|pairs| - 1];
    if last.0 != k {
      var j :| 0 <= j < |pairs| && pairs[j].0 == k;
      assert pairs[..|pairs| - 1][j].0 == k;
      RecordValueFromPair(base, pairs[..|pairs| - 1], k);
      var j' :| 0 <= j' < |pairs| - 1 && pairs[..|pairs| - 1][j'] == (k, Record(base, pairs[..|pairs| - 1])[k]);
      assert pairs[j'] == (k, Record(base, pairs)[k]);
    } else {
      assert pairs[|pairs| - 1] == (k, Record(base, pairs)[k]);
    }
  }

  /** Recording two runs of pairs one after the other is recording their concatenation. */
  lemma {:induction false} RecordConcat<V>(base: map<string, V>, a: seq<(string, V)>, b: seq<(string, V)>)
    ensures Record(base, a + b) == Record(Record(base, a), b)
    decreases |b|
  {
    if b == [] {
      assert a + b == a;
    } else {
      assert (a + b)[..|a + b| - 1] == a + b[..|b| - 1];
      RecordConcat(base, a, b[..|b| - 1]);
    }
  }

  /** Recording one more pair sets its key to its value. */
  lemma RecordNext<V>(base: map<string, V>, pairs: seq<(string, V)>, p: (string, V))
    ensures Record(base, pairs + [p]) == Record(base, pairs)[p.0 := p.1]
  {
    assert (pairs + [p])[..|pairs|] == pairs;
  }

  /** Recording two pairs sets the first key, then the second. */
  lemma RecordTwo<V>(base: map<string, V>, p: (string, V), q: (string, V))
    ensures Record(base, [p, q]) == base[p.0 := p.1][q.0 := q.1]
  {
    RecordNext(base, [], p);
    assert [] + [p] == [p];
    RecordNext(base, [p], q);
    assert [p] + [q] == [p, q];
  }

  /** A key that no pair mentions keeps its place and value from the base. */
  lemma {:induction false} RecordOutside<V>(base: map<string, V>, pairs: seq<(string, V)>, k: string)
    requires forall j :: 0 <= j < |pairs| ==> pairs[j].0 != k
    ensures k in Record(base, pairs) <==> k in base
    ensures k in base ==> Record(base, pairs)[k] == base[k]
    decreases |pairs|
  {
    if pairs != [] {
      RecordOutside(base, pairs[..|pairs| - 1], k);
    }
  }

  /**
    The round trip key -> value -> key through a table and the table read the
    other way round: it gives the original key back whenever no other key was
    paired with the same value.
  */
  lemma RoundTrip(pairs: seq<(string, string)>, k: string)
    requires k in Record(map[], pairs)
    requires forall j :: 0 <= j < |pairs| && pairs[j].1 == Record(map[], pairs)[k] ==> pairs[j].0 == k
    ensures Record(map[], pairs)[k] in Record(map[], Swapped(pairs))
    ensures Record(map[], Swapped(pairs))[Record(map[], pairs)[k]] == k
  {
    var v := Record(map[], pairs)[k];
    var back := Swapped(pairs);
    RecordKeys(map[], pairs, k);
    RecordValueFromPair(map[], pairs, k);
    var j :| 0 <= j < |pairs| && pairs[j] == (k, v);
    assert back[j].0 == v;
    RecordValueFromPair(map[], back, v);
    var j' :| 0 <= j' < |back| && back[j'] == (v, Record(map[], back)[v]);
    assert pairs[j'].1 == v;
  }
}
