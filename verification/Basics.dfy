/**
 Shared vocabulary: options, results, identifiers, time, and tables of rows that can be revoked once.
 */
module Basics {
  datatype Option<+T> = None | Some(value: T)

  datatype Result<+T, +E> = Ok(value: T) | Err(error: E)

  /** A generated primary key (gen_random_uuid). */
  type Id = nat

  /** Nanoseconds, as in Go's time.Time and time.Duration. */
  type Time = int

  const SECOND: Time := 1_000_000_000

  /** A row with a nullable `revoked_at` column: `Live` is NULL, `Revoked` carries the time. */
  datatype Revocable<+T> = Live(row: T) | Revoked(row: T, at: Time)

  type Table<+T> = map<Id, Revocable<T>>

  /** The rows an `UPDATE ... WHERE id IN which AND revoked_at IS NULL` affects. */
  function LiveIn<T>(rows: Table<T>, which: set<Id>): set<Id> {
    set id | id in rows && id in which && rows[id].Live?
  }

  /** The table after `UPDATE ... SET revoked_at = now WHERE id IN which AND revoked_at IS NULL`. */
  function RevokeIn<T>(rows: Table<T>, which: set<Id>, now: Time): (r: Table<T>)
    ensures r.Keys == rows.Keys
  {
    map id | id in rows :: if id in which && rows[id].Live? then Revoked(rows[id].row, now) else rows[id]
  }

  /** `later` keeps every row of `earlier`: same contents, and a row already revoked keeps its first revocation time. */
  ghost predicate Evolved<T>(earlier: Table<T>, later: Table<T>) {
    forall id | id in earlier ::
      && id in later
      && later[id].row == earlier[id].row
      && (earlier[id].Revoked? ==> later[id] == earlier[id])
  }

  lemma EvolvedTransitive<T>(a: Table<T>, b: Table<T>, c: Table<T>)
    requires Evolved(a, b) && Evolved(b, c)
    ensures Evolved(a, c)
  {
  }

  /** Two bulk updates in a row are one bulk update of the union, and their row counts add up to its row count. */
  lemma RevokeTwice<T>(rows: Table<T>, a: set<Id>, b: set<Id>, now: Time)
    ensures RevokeIn(RevokeIn(rows, a, now), b, now) == RevokeIn(rows, a + b, now)
    ensures |LiveIn(rows, a)| + |LiveIn(RevokeIn(rows, a, now), b)| == |LiveIn(rows, a + b)|
  {
    var first, second := LiveIn(rows, a), LiveIn(RevokeIn(rows, a, now), b);
    assert first !! second;
    assert first + second == LiveIn(rows, a + b);
  }

  /** A bulk update that finds nothing live affects no row and changes nothing. */
  lemma RevokeNothing<T>(rows: Table<T>, which: set<Id>, now: Time)
    requires forall id | id in rows && id in which :: rows[id].Revoked?
    ensures LiveIn(rows, which) == {}
    ensures RevokeIn(rows, which, now) == rows
  {
  }

  /**
   The update loop itself: visits the rows in no particular order, revokes the live ones that satisfy the
   condition and counts them. `which` names the rows that satisfy it.
   */
  method UpdateRevokedAt<T>(rows: Table<T>, condition: T -> bool, now: Time, ghost which: set<Id>)
    returns (updated: Table<T>, rowsAffected: nat)
    requires forall id | id in rows :: condition(rows[id].row) <==> id in which
    ensures updated == RevokeIn(rows, which, now)
    ensures rowsAffected == |LiveIn(rows, which)|
  {
    var todo := rows.Keys;
    ghost var hit: set<Id> := {};
    updated, rowsAffected := rows, 0;
    while todo != {}
      invariant todo <= rows.Keys && updated.Keys == rows.Keys
      invariant hit == set id | id in rows.Keys - todo && rows[id].Live? && id in which
      invariant forall id | id in rows :: updated[id] == if id in hit then Revoked(rows[id].row, now) else rows[id]
      invariant rowsAffected == |hit|
    {
      var id :| id in todo;
      todo := todo - {id};
      if updated[id].Live? && condition(updated[id].row) {
        updated := updated[id := Revoked(updated[id].row, now)];
        rowsAffected, hit := rowsAffected + 1, hit + {id};
      }
    }
    assert hit == LiveIn(rows, which);
  }

  /** `SELECT ... WHERE condition LIMIT 1`. */
  method SelectOne<K(==), T>(rows: map<K, T>, condition: T -> bool) returns (found: Option<K>)
    ensures found.Some? ==> found.value in rows && condition(rows[found.value])
    ensures found.None? ==> forall k | k in rows :: !condition(rows[k])
  {
    var todo := rows.Keys;
    while todo != {}
      invariant todo <= rows.Keys
      invariant forall k | k in rows && k !in todo :: !condition(rows[k])
      decreases todo
    {
      var k :| k in todo;
      if condition(rows[k]) {
        return Some(k);
      }
      todo := todo - {k};
    }
    found := None;
  }
}
