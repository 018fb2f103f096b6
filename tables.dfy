/** A relational table with a primary key, written to only by
    `INSERT ... ON CONFLICT (key) DO NOTHING`: the first row stored under a key
    stays, and every later insert under that key changes nothing. */
module Tables {

  /** One conflict-ignoring insert. */
  function InsertIfAbsent<K, V>(m: map<K, V>, k: K, v: V): (r: map<K, V>)
    ensures r.Keys == m.Keys + {k}
    ensures r[k] == (if k in m then m[k] else v)
    ensures forall j :: j in m ==> r[j] == m[j]
  {
    if k in m then m else m[k := v]
  }

  function BatchKeys<K, V>(batch: seq<(K, V)>): set<K> {
    set i | 0 <= i < |batch| :: batch[i].0
  }

  /** The inserts of `batch`, one after another in order. */
  function InsertAll<K, V>(m: map<K, V>, batch: seq<(K, V)>): (r: map<K, V>)
    ensures r.Keys == m.Keys + BatchKeys(batch)
    ensures forall j :: j in m ==> r[j] == m[j]
    decreases |batch|
  {
    if batch == [] then m
    else
      var n := |batch| - 1;
      assert BatchKeys(batch) == BatchKeys(batch[..n]) + {batch[n].0} by {
        forall k | k in BatchKeys(batch) ensures k in BatchKeys(batch[..n]) + {batch[n].0} {
          var i :| 0 <= i < |batch| && batch[i].0 == k;
          if i < n { assert batch[..n][i] == batch[i]; }
        }
        forall k | k in BatchKeys(batch[..n]) ensures k in BatchKeys(batch) {
          var i :| 0 <= i < n && batch[..n][i].0 == k;
          assert batch[i] == batch[..n][i];
        }
      }
      InsertIfAbsent(InsertAll(m, batch[..n]), batch[n].0, batch[n].1)
  }

  /** The inserts of a prefix and then of the next row. */
  lemma InsertAllSnoc<K, V>(m: map<K, V>, batch: seq<(K, V)>, i: nat)
    requires i < |batch|
    ensures InsertAll(m, batch[..i + 1]) == InsertIfAbsent(InsertAll(m, batch[..i]), batch[i].0, batch[i].1)
  {
    assert batch[..i + 1][..i] == batch[..i];
  }

  /** Among rows of the batch that share a key absent from the table, the
      first one is the row that ends up stored. */
  lemma {:induction false} FirstWins<K, V>(m: map<K, V>, batch: seq<(K, V)>, i: nat)
    requires i < |batch| && batch[i].0 !in m
    requires forall j :: 0 <= j < i ==> batch[j].0 != batch[i].0
    ensures InsertAll(m, batch)[batch[i].0] == batch[i].1
    decreases |batch|
  {
    var n := |batch| - 1;
    var k := batch[i].0;
    if i == n {
      forall j | 0 <= j < n ensures batch[..n][j].0 != k {
        assert batch[..n][j] == batch[j];
      }
      assert k !in BatchKeys(batch[..n]);
    } else {
      assert batch[..n][i] == batch[i];
      forall j | 0 <= j < i ensures batch[..n][j].0 != batch[..n][i].0 {
        assert batch[..n][j] == batch[j];
      }
      FirstWins(m, batch[..n], i);
    }
  }

  /** A key the batch adds is stored with the value of one of its rows. */
  lemma {:induction false} InsertAllFrom<K, V>(m: map<K, V>, batch: seq<(K, V)>, k: K)
    requires k in InsertAll(m, batch) && k !in m
    ensures exists i :: 0 <= i < |batch| && batch[i] == (k, InsertAll(m, batch)[k])
    decreases |batch|
  {
    var n := |batch| - 1;
    var prev := InsertAll(m, batch[..n]);
    if k in prev {
      InsertAllFrom(m, batch[..n], k);
      var i :| 0 <= i < n && batch[..n][i] == (k, prev[k]);
      assert batch[i] == batch[..n][i];
    } else {
      assert batch[n] == (k, InsertAll(m, batch)[k]);
    }
  }

  /** A batch whose keys are all present already changes nothing. */
  lemma {:induction false} InsertAllPresent<K, V>(m: map<K, V>, batch: seq<(K, V)>)
    requires BatchKeys(batch) <= m.Keys
    ensures InsertAll(m, batch) == m
    decreases |batch|
  {
    if batch != [] {
      var n := |batch| - 1;
      assert BatchKeys(batch[..n]) <= BatchKeys(batch) by {
        forall k | k in BatchKeys(batch[..n]) ensures k in BatchKeys(batch) {
          var j :| 0 <= j < n && batch[..n][j].0 == k;
          assert batch[j] == batch[..n][j];
        }
      }
      InsertAllPresent(m, batch[..n]);
      assert batch[n].0 in BatchKeys(batch);
    }
  }

  /** Inserting the same batch twice is the same as inserting it once. */
  lemma InsertAllIdempotent<K, V>(m: map<K, V>, batch: seq<(K, V)>)
    ensures InsertAll(InsertAll(m, batch), batch) == InsertAll(m, batch)
  {
    InsertAllPresent(InsertAll(m, batch), batch);
  }

  /** Two batches in a row act as their concatenation. */
  lemma {:induction false} InsertAllAppend<K, V>(m: map<K, V>, a: seq<(K, V)>, b: seq<(K, V)>)
    ensures InsertAll(m, a + b) == InsertAll(InsertAll(m, a), b)
    decreases |b|
  {
    if b == [] {
      assert a + b == a;
    } else {
      var n := |b| - 1;
      assert (a + b)[..|a + b| - 1] == a + b[..n];
      InsertAllAppend(m, a, b[..n]);
    }
  }

  /** A table object: `rows` maps each primary key to its stored row. */
  class KeyedTable<K(==), V> {
    var rows: map<K, V>

    constructor (initial: map<K, V>)
      ensures rows == initial
    {
      rows := initial;
    }

    /** `INSERT ... ON CONFLICT (key) DO NOTHING` of one row. */
    method Insert(k: K, v: V)
      modifies this
      ensures rows == InsertIfAbsent(old(rows), k, v)
    {
      if k !in rows {
        rows := rows[k := v];
      }
    }
  }
}
