/** The contents of the store's in-memory index (`indice`, a map from
    identifier to record) and how it is built from an ordered list of
    records. */
module Indice {
  import opened Entidad

  type Index = map<string, TipoVivienda>

  /** Every key names the record stored under it. */
  ghost predicate Keyed(m: Index) {
    forall k | k in m :: m[k].identificacion == k
  }

  /** The index obtained by inserting the records one after another, each
      under its own identifier, into an empty map. Every key names the
      record stored under it, and every stored record is one of `rows`. */
  function BuildIndex(rows: seq<TipoVivienda>): (m: Index)
    ensures Keyed(m)
    ensures forall k | k in m :: m[k] in rows
  {
    if rows == [] then map[]
    else
      var last := rows[|rows| - 1];
      BuildIndex(rows[..|rows| - 1])[last.identificacion := last]
  }

  /** The identifiers occurring in a list of records. */
  function Ids(rows: seq<TipoVivienda>): set<string> {
    set i | 0 <= i < |rows| :: rows[i].identificacion
  }

  /** No identifier occurs twice. */
  ghost predicate DistinctIds(rows: seq<TipoVivienda>) {
    forall i, j | 0 <= i < j < |rows| :: rows[i].identificacion != rows[j].identificacion
  }

  /** `rows` lists every entry of `m` exactly once, in some order. */
  ghost predicate IsSnapshot(rows: seq<TipoVivienda>, m: Index) {
    && DistinctIds(rows)
    && (forall i | 0 <= i < |rows| :: rows[i].identificacion in m && m[rows[i].identificacion] == rows[i])
    && (forall k | k in m :: m[k] in rows)
  }

  /** The index has a key for exactly the identifiers in the list. */
  lemma {:induction false} BuildIndexKeys(rows: seq<TipoVivienda>)
    ensures BuildIndex(rows).Keys == Ids(rows)
  {
    if rows != [] {
      var init := rows[..|rows| - 1];
      BuildIndexKeys(init);
      assert Ids(rows) == Ids(init) + {rows[|rows| - 1].identificacion} by {
        forall k | k in Ids(rows) ensures k in Ids(init) + {rows[|rows| - 1].identificacion} {
          var i :| 0 <= i < |rows| && rows[i].identificacion == k;
          if i < |rows| - 1 {
            assert init[i] == rows[i];
          }
        }
        forall k | k in Ids(init) ensures k in Ids(rows) {
          var i :| 0 <= i < |init| && init[i].identificacion == k;
          assert rows[i] == init[i];
        }
      }
    }
  }

  /** A record that no later record shares an identifier with is the one the
      index keeps: when identifiers repeat, the last occurrence wins. */
  lemma {:induction false} BuildIndexLastWins(rows: seq<TipoVivienda>, i: nat)
    requires i < |rows|
    requires forall j | i < j < |rows| :: rows[j].identificacion != rows[i].identificacion
    ensures rows[i].identificacion in BuildIndex(rows)
    ensures BuildIndex(rows)[rows[i].identificacion] == rows[i]
  {
    if i < |rows| - 1 {
      var init := rows[..|rows| - 1];
      BuildIndexLastWins(init, i);
    }
  }

  /** Distinct identifiers make the list exactly as long as its set of
      identifiers. */
  lemma {:induction false} DistinctIdsCount(rows: seq<TipoVivienda>)
    requires DistinctIds(rows)
    ensures |Ids(rows)| == |rows|
  {
    if rows != [] {
      var init := rows[..|rows| - 1];
      var last := rows[|rows| - 1];
      DistinctIdsCount(init);
      assert Ids(rows) == Ids(init) + {last.identificacion} by {
        forall k | k in Ids(rows) ensures k in Ids(init) + {last.identificacion} {
          var i :| 0 <= i < |rows| && rows[i].identificacion == k;
          if i < |rows| - 1 {
            assert init[i] == rows[i];
          }
        }
      }
      assert last.identificacion !in Ids(init);
    }
  }

  /** A record occurs at most once in a list with distinct identifiers. */
  lemma {:induction false} DistinctIdsOnce(rows: seq<TipoVivienda>, x: TipoVivienda)
    requires DistinctIds(rows)
    ensures multiset(rows)[x] == if x in rows then 1 else 0
  {
    if rows != [] {
      var init := rows[..|rows| - 1];
      var last := rows[|rows| - 1];
      assert rows == init + [last];
      DistinctIdsOnce(init, x);
      assert last !in init;
    }
  }

  lemma SnapshotIds(rows: seq<TipoVivienda>, m: Index)
    requires Keyed(m) && IsSnapshot(rows, m)
    ensures Ids(rows) == m.Keys
  {
    forall k | k in m ensures k in Ids(rows) {
      var i :| 0 <= i < |rows| && rows[i] == m[k];
    }
  }

  lemma SnapshotMultiset(rows: seq<TipoVivienda>, m: Index)
    requires Keyed(m) && IsSnapshot(rows, m)
    ensures multiset(rows) == multiset(m.Values)
  {
    forall x ensures multiset(rows)[x] == multiset(m.Values)[x] {
      DistinctIdsOnce(rows, x);
      if x in rows {
        var i :| 0 <= i < |rows| && rows[i] == x;
        assert x == m[x.identificacion];
      }
    }
  }

  lemma SnapshotRebuilds(rows: seq<TipoVivienda>, m: Index)
    requires Keyed(m) && IsSnapshot(rows, m)
    ensures BuildIndex(rows) == m
  {
    SnapshotIds(rows, m);
    BuildIndexKeys(rows);
    forall k | k in m ensures BuildIndex(rows)[k] == m[k] {
      var i :| 0 <= i < |rows| && rows[i] == m[k];
      BuildIndexLastWins(rows, i);
    }
  }

  /** A snapshot of a keyed index has one element per key, holds exactly
      the index's records, and rebuilding an index from it gives back the
      index. */
  lemma SnapshotOfIndex(rows: seq<TipoVivienda>, m: Index)
    requires Keyed(m) && IsSnapshot(rows, m)
    ensures |rows| == |m|
    ensures multiset(rows) == multiset(m.Values)
    ensures BuildIndex(rows) == m
  {
    SnapshotIds(rows, m);
    DistinctIdsCount(rows);
    assert |m.Keys| == |m|;
    SnapshotMultiset(rows, m);
    SnapshotRebuilds(rows, m);
  }
}
