/**
 The document store every service writes through. A collection maps an id to a
 record with a version; the only conditional write compares the version and
 advances it by one.
*/
module FeltDb {
  import opened Common

  datatype Row<+T> = Row(value: T, version: nat)

  /** The version check of `updateIfVersion`: the row exists and nobody moved it. */
  predicate CasWins<K, T>(t: map<K, Row<T>>, id: K, expected: nat) {
    id in t && t[id].version == expected
  }

  /** `updateIfVersion`: write and advance, or leave the collection as it is. */
  function Cas<K, T>(t: map<K, Row<T>>, id: K, expected: nat, value: T): map<K, Row<T>> {
    if CasWins(t, id, expected) then t[id := Row(value, expected + 1)] else t
  }

  /** What every writer guarantees: rows stay, and a row that kept its version kept its value. */
  ghost predicate Evolves<K, T>(a: map<K, Row<T>>, b: map<K, Row<T>>) {
    forall id :: id in a ==> id in b && a[id].version <= b[id].version && (a[id].version == b[id].version ==> a[id] == b[id])
  }

  /** `row` was read from `t` at this or an earlier instant. */
  ghost predicate Pinned<K, T>(t: map<K, Row<T>>, id: K, row: Row<T>) {
    id in t && row.version <= t[id].version && (row.version == t[id].version ==> row == t[id])
  }

  /**
   A conditional write that wins wrote over exactly the row its writer read, so a
   store method that reads the row again before it writes sees that same row.
  */
  lemma CasWinsOnTheRowRead<K, T>(read: map<K, Row<T>>, again: map<K, Row<T>>, write: map<K, Row<T>>, id: K)
    requires id in read && Evolves(read, again) && Evolves(again, write)
    requires CasWins(write, id, read[id].version)
    ensures again[id] == read[id] == write[id]
  {
    assert again[id].version == read[id].version;
  }

  /** One collection, updated in place. */
  class Collection<T> {
    var rows: map<string, Row<T>>

    constructor ()
      ensures rows == map[]
    {
      rows := map[];
    }

    /** A transaction of one `requireAbsent` write. */
    method InsertIfAbsent(id: string, value: T) returns (ok: bool)
      modifies this
      ensures ok == (id !in old(rows))
      ensures rows == if ok then old(rows)[id := Row(value, 1)] else old(rows)
      ensures Evolves(old(rows), rows)
    {
      ok := id !in rows;
      if ok {
        rows := rows[id := Row(value, 1)];
      }
    }

    method UpdateIfVersion(id: string, expected: nat, value: T) returns (r: Option<Row<T>>)
      modifies this
      ensures rows == Cas(old(rows), id, expected, value)
      ensures r == if CasWins(old(rows), id, expected) then Some(Row(value, expected + 1)) else None
      ensures Evolves(old(rows), rows)
    {
      if id in rows && rows[id].version == expected {
        rows := rows[id := Row(value, expected + 1)];
        r := Some(rows[id]);
      } else {
        r := None;
      }
    }
  }
}
