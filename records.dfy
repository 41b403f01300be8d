/** Result rows as Python dicts: an insertion-ordered association from
    column name to value, built by `dict(zip(columns, row))`. */
module Records {
  import opened Values

  /** A dict from column name to value; the order is the dict's insertion order. */
  type Record = seq<(string, Value)>

  predicate Distinct(s: seq<string>)
  {
    forall i, j :: 0 <= i < j < |s| ==> s[i] != s[j]
  }

  /** `d.keys()` */
  function Keys(r: Record): seq<string>
  {
    seq(|r|, i requires 0 <= i < |r| => r[i].0)
  }

  /** No key occurs twice. */
  predicate UniqueKeys(r: Record)
  {
    forall i, j :: 0 <= i < j < |r| ==> r[i].0 != r[j].0
  }

  /** A record has unique keys exactly when its key list is distinct. */
  lemma UniqueKeysMeans(r: Record)
    ensures UniqueKeys(r) <==> Distinct(Keys(r))
  {
    assert forall i :: 0 <= i < |r| ==> Keys(r)[i] == r[i].0;
  }

  /** `json.dumps` encodes every value of the record. */
  predicate RecordSerializable(r: Record)
  {
    forall i :: 0 <= i < |r| ==> Serializable(r[i].1)
  }

  /** `json.dumps` encodes every value of every record. */
  predicate RowsSerializable(rs: seq<Record>)
  {
    forall i :: 0 <= i < |rs| ==> RecordSerializable(rs[i])
  }

  /** `d.get(k)`: the value stored under `k`, if any. */
  function Lookup(r: Record, k: string): (v: Option<Value>)
    ensures v.None? <==> forall j :: 0 <= j < |r| ==> r[j].0 != k
    ensures v.Some? ==> (k, v.value) in r
  {
    if |r| == 0 then None
    else if r[0].0 == k then Some(r[0].1)
    else
      var v := Lookup(r[1..], k);
      assert v.None? ==> forall j :: 0 <= j < |r| ==> r[j].0 != k by {
        if v.None? {
          forall j | 0 <= j < |r| ensures r[j].0 != k {
            if j > 0 { assert r[j] == r[1..][j - 1]; }
          }
        }
      }
      v
  }

  /** `d[k] = v`: an existing key keeps its place, a new key goes last. */
  function Store(r: Record, k: string, v: Value): (r': Record)
    ensures Lookup(r', k) == Some(v)
    ensures Lookup(r, k).None? ==> r' == r + [(k, v)]
    ensures Lookup(r, k).Some? ==> |r'| == |r| && forall i :: 0 <= i < |r| ==> r'[i].0 == r[i].0
  {
    if |r| == 0 then [(k, v)]
    else if r[0].0 == k then [(k, v)] + r[1..]
    else
      var rest := Store(r[1..], k, v);
      assert Lookup(r, k) == Lookup(r[1..], k);
      [r[0]] + rest
  }

  /** Storing under one key leaves every other key as it was. */
  lemma {:induction false} StoreOther(r: Record, k: string, v: Value, k': string)
    requires k' != k
    ensures Lookup(Store(r, k, v), k') == Lookup(r, k')
  {
    if |r| > 0 && r[0].0 != k {
      StoreOther(r[1..], k, v, k');
    }
  }

  /** Storing into a dict never repeats a key. */
  lemma StoreUniqueKeys(r: Record, k: string, v: Value)
    requires UniqueKeys(r)
    ensures UniqueKeys(Store(r, k, v))
  {
    var r' := Store(r, k, v);
    if Lookup(r, k).None? {
      forall i, j | 0 <= i < j < |r'| ensures r'[i].0 != r'[j].0 {
        if j == |r| { assert r'[i] == r[i]; }
      }
    }
  }

  /** `zip(columns, row)`: pairs up to the shorter of the two. */
  function Zip(columns: seq<string>, row: seq<Value>): (ps: seq<(string, Value)>)
    ensures |ps| == if |columns| < |row| then |columns| else |row|
    ensures forall i :: 0 <= i < |ps| ==> ps[i] == (columns[i], row[i])
  {
    var n := if |columns| < |row| then |columns| else |row|;
    seq(n, i requires 0 <= i < n => (columns[i], row[i]))
  }

  /** `dict(pairs)`: each pair stored in turn. */
  function FromPairs(ps: seq<(string, Value)>): Record
    decreases |ps|
  {
    if |ps| == 0 then [] else Store(FromPairs(ps[..|ps| - 1]), ps[|ps| - 1].0, ps[|ps| - 1].1)
  }

  /** `dict(zip(columns, row))`: one fetched row as a record. */
  function ToRecord(columns: seq<string>, row: seq<Value>): (rec: Record)
    ensures UniqueKeys(rec)
  {
    FromPairsUniqueKeys(Zip(columns, row));
    FromPairs(Zip(columns, row))
  }

  /** `[dict(zip(columns, row)) for row in rows]` */
  function ToRecords(columns: seq<string>, rows: seq<seq<Value>>): (recs: seq<Record>)
    ensures |recs| == |rows|
    ensures forall i :: 0 <= i < |recs| ==> UniqueKeys(recs[i])
  {
    seq(|rows|, i requires 0 <= i < |rows| => ToRecord(columns, rows[i]))
  }

  /** No pair of `ps` has key `k`. */
  predicate KeyAbsent(ps: seq<(string, Value)>, k: string)
  {
    forall i :: 0 <= i < |ps| ==> ps[i].0 != k
  }

  /** A key is present in `dict(pairs)` iff some pair has it. */
  lemma {:induction false} FromPairsHasKey(ps: seq<(string, Value)>, k: string)
    ensures Lookup(FromPairs(ps), k).None? <==> KeyAbsent(ps, k)
    decreases |ps|
  {
    if |ps| > 0 {
      var init := ps[..|ps| - 1];
      var last := ps[|ps| - 1];
      FromPairsHasKey(init, k);
      assert FromPairs(ps) == Store(FromPairs(init), last.0, last.1);
      if last.0 == k {
        assert !KeyAbsent(ps, k) by { assert ps[|ps| - 1].0 == k; }
      } else {
        StoreOther(FromPairs(init), last.0, last.1, k);
        KeyAbsentInit(ps, k);
      }
    }
  }

  /** With a last pair of another key, `k` is absent from the pairs iff it is
      absent from all but the last. */
  lemma KeyAbsentInit(ps: seq<(string, Value)>, k: string)
    requires |ps| > 0 && ps[|ps| - 1].0 != k
    ensures KeyAbsent(ps, k) <==> KeyAbsent(ps[..|ps| - 1], k)
  {
    var init := ps[..|ps| - 1];
    assert forall j :: 0 <= j < |init| ==> ps[j] == init[j];
  }

  /** Dropping the last pair keeps a key absent from a suffix, and the last
      pair itself does not have the key. */
  lemma AbsentAfterInit(ps: seq<(string, Value)>, j: nat)
    requires j + 1 < |ps| && KeyAbsent(ps[j + 1..], ps[j].0)
    ensures KeyAbsent(ps[..|ps| - 1][j + 1..], ps[j].0)
    ensures ps[|ps| - 1].0 != ps[j].0
  {
    assert ps[|ps| - 1] == ps[j + 1..][|ps| - 2 - j];
    assert ps[..|ps| - 1][j + 1..] == ps[j + 1..][..|ps| - 2 - j];
  }

  /** The value of a key in `dict(pairs)` is that of the LAST pair with the key. */
  lemma {:induction false} FromPairsLastWins(ps: seq<(string, Value)>, j: nat)
    requires j < |ps| && KeyAbsent(ps[j + 1..], ps[j].0)
    ensures Lookup(FromPairs(ps), ps[j].0) == Some(ps[j].1)
    decreases |ps|
  {
    var init := ps[..|ps| - 1];
    if j + 1 < |ps| {
      AbsentAfterInit(ps, j);
      FromPairsLastWins(init, j);
      StoreOther(FromPairs(init), ps[|ps| - 1].0, ps[|ps| - 1].1, ps[j].0);
    }
  }

  /** Building a dict never produces a repeated key. */
  lemma {:induction false} FromPairsUniqueKeys(ps: seq<(string, Value)>)
    ensures UniqueKeys(FromPairs(ps))
    decreases |ps|
  {
    if |ps| > 0 {
      FromPairsUniqueKeys(ps[..|ps| - 1]);
      StoreUniqueKeys(FromPairs(ps[..|ps| - 1]), ps[|ps| - 1].0, ps[|ps| - 1].1);
    }
  }

  /** With distinct keys, the dict holds the pairs exactly, in order. */
  lemma {:induction false} FromPairsDistinct(ps: seq<(string, Value)>)
    requires UniqueKeys(ps)
    ensures FromPairs(ps) == ps
    decreases |ps|
  {
    if |ps| > 0 {
      var init := ps[..|ps| - 1];
      var last := ps[|ps| - 1];
      assert UniqueKeys(init) by {
        forall i, j | 0 <= i < j < |init| ensures init[i].0 != init[j].0 {
          assert init[i] == ps[i] && init[j] == ps[j];
        }
      }
      FromPairsDistinct(init);
      assert KeyAbsent(init, last.0) by {
        forall i | 0 <= i < |init| ensures init[i].0 != last.0 {
          assert init[i] == ps[i];
        }
      }
      FromPairsHasKey(init, last.0);
      assert FromPairs(ps) == Store(init, last.0, last.1) == init + [last];
      assert init + [last] == ps;
    }
  }

  /** With distinct column names and one value per column, the i-th column
      name maps to the i-th value, in column order. */
  lemma RecordIsPositional(columns: seq<string>, row: seq<Value>)
    requires |columns| == |row| && Distinct(columns)
    ensures |ToRecord(columns, row)| == |columns|
    ensures forall i :: 0 <= i < |columns| ==> ToRecord(columns, row)[i] == (columns[i], row[i])
  {
    FromPairsDistinct(Zip(columns, row));
  }

  /** In general (repeated names, or a row shorter or longer than the
      description) a name is present iff it is among the first
      min(|columns|, |row|) names, and keys are never repeated. */
  lemma RecordHasKey(columns: seq<string>, row: seq<Value>, k: string)
    ensures UniqueKeys(ToRecord(columns, row))
    ensures Lookup(ToRecord(columns, row), k).None? <==>
              forall j :: 0 <= j < |columns| && j < |row| ==> columns[j] != k
  {
    FromPairsUniqueKeys(Zip(columns, row));
    FromPairsHasKey(Zip(columns, row), k);
  }

  /** A name maps to the value at its LAST position among the first
      min(|columns|, |row|) names. */
  lemma RecordLastWins(columns: seq<string>, row: seq<Value>, j: nat)
    requires j < |columns| && j < |row|
    requires forall j' :: j < j' < |columns| && j' < |row| ==> columns[j'] != columns[j]
    ensures Lookup(ToRecord(columns, row), columns[j]) == Some(row[j])
  {
    var ps := Zip(columns, row);
    assert KeyAbsent(ps[j + 1..], ps[j].0) by {
      forall i | j + 1 <= i < |ps| ensures ps[i].0 != ps[j].0 {
      }
    }
    FromPairsLastWins(ps, j);
  }
}
