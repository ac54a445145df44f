/**
 * Database tables as sequences of rows in storage order. Every row carries its
 * primary key; saving an instance updates the row with its key in place or
 * appends a new row, and deleting removes the rows whose keys are collected.
 */
module Tables {
  import opened Wrappers

  /** A primary key (auto-increment integer column). */
  type Id = nat

  datatype Row<T> = Row(id: Id, rec: T)

  type Table<T> = seq<Row<T>>

  /** The primary keys present in a table. */
  function Ids<T(==)>(t: Table<T>): set<Id>
  {
    set r | r in t :: r.id
  }

  /** The primary-key constraint: no two rows share a key. */
  ghost predicate UniqueIds<T>(t: Table<T>)
  {
    forall i, j | 0 <= i < j < |t| :: t[i].id != t[j].id
  }

  /** Under the primary-key constraint a key identifies its row. */
  lemma KeyIdentifiesRow<T>(t: Table<T>)
    ensures UniqueIds(t) ==> forall a, b | a in t && b in t && a.id == b.id :: a == b
  {
  }

  /** Fetching the record stored under a key (`Model.objects.get(pk=id)`). */
  function Find<T(==)>(t: Table<T>, id: Id): (r: Option<T>)
    ensures r.Some? <==> id in Ids(t)
    ensures r.Some? ==> Row(id, r.value) in t
    ensures UniqueIds(t) ==> forall x | x in t && x.id == id :: r == Some(x.rec)
  {
    KeyIdentifiesRow(t);
    if |t| == 0 then None
    else if t[0].id == id then Some(t[0].rec)
    else
      assert forall x | x in t[1..] :: x in t;
      assert forall x | x in t && x.id == id :: x in t[1..] by {
        forall x | x in t && x.id == id ensures x in t[1..] {
          var i :| 0 <= i < |t| && t[i] == x;
          assert i != 0;
          assert t[1..][i - 1] == x;
        }
      }
      Find(t[1..], id)
  }

  /** Rewriting, in place, every row stored under `id` (an SQL UPDATE by key). */
  function Replace<T(==)>(t: Table<T>, id: Id, v: T): (r: Table<T>)
    ensures |r| == |t|
    ensures forall i | 0 <= i < |t| :: r[i] == (if t[i].id == id then Row(id, v) else t[i])
  {
    if |t| == 0 then []
    else [if t[0].id == id then Row(id, v) else t[0]] + Replace(t[1..], id, v)
  }

  /**
   * Saving a record under a key: the row with that key is updated in place,
   * or the record is appended as a new row when the key is absent.
   */
  function Upsert<T(==)>(t: Table<T>, id: Id, v: T): (r: Table<T>)
    ensures Ids(r) == Ids(t) + {id}
    ensures id !in Ids(t) ==> r == t + [Row(id, v)]
    ensures Find(r, id) == Some(v)
    ensures forall x | x in r :: if x.id == id then x == Row(id, v) else x in t
    ensures forall x | x in t && x.id != id :: x in r
    ensures forall k | k != id :: Find(r, k) == Find(t, k)
    ensures UniqueIds(t) ==> UniqueIds(r)
  {
    if id in Ids(t) then
      ReplaceSaves(t, id, v);
      Replace(t, id, v)
    else
      AppendSaves(t, id, v);
      t + [Row(id, v)]
  }

  /** Updating the rows of a present key: the save properties of Upsert. */
  lemma ReplaceSaves<T>(t: Table<T>, id: Id, v: T)
    requires id in Ids(t)
    ensures var r := Replace(t, id, v);
      && Ids(r) == Ids(t) + {id}
      && Find(r, id) == Some(v)
      && (forall x | x in r :: if x.id == id then x == Row(id, v) else x in t)
      && (forall x | x in t && x.id != id :: x in r)
      && (forall k | k != id :: Find(r, k) == Find(t, k))
      && (UniqueIds(t) ==> UniqueIds(r))
  {
    var r := Replace(t, id, v);
    ReplaceFind(t, id, v);
    assert forall i | 0 <= i < |t| :: r[i].id == t[i].id;
    forall x | x in r ensures if x.id == id then x == Row(id, v) else x in t {
      var i :| 0 <= i < |r| && r[i] == x;
      assert t[i] in t;
    }
    forall x | x in t && x.id != id ensures x in r {
      var i :| 0 <= i < |t| && t[i] == x;
      assert r[i] == x;
    }
    forall k | k in Ids(t) ensures k in Ids(r) {
      var x :| x in t && x.id == k;
      var i :| 0 <= i < |t| && t[i] == x;
      assert r[i].id == k;
    }
  }

  /** Appending a row under an absent key: the save properties of Upsert. */
  lemma AppendSaves<T>(t: Table<T>, id: Id, v: T)
    requires id !in Ids(t)
    ensures var r := t + [Row(id, v)];
      && Ids(r) == Ids(t) + {id}
      && Find(r, id) == Some(v)
      && (forall x | x in r :: if x.id == id then x == Row(id, v) else x in t)
      && (forall k | k != id :: Find(r, k) == Find(t, k))
      && (UniqueIds(t) ==> UniqueIds(r))
  {
    var r := t + [Row(id, v)];
    AppendFind(t, Row(id, v));
    forall i, j | 0 <= i < j < |r| && j == |t| ensures r[i].id != r[j].id {
      assert r[i] in t;
    }
  }

  lemma {:induction false} ReplaceFind<T>(t: Table<T>, id: Id, v: T)
    requires id in Ids(t)
    ensures Find(Replace(t, id, v), id) == Some(v)
    ensures forall k | k != id :: Find(Replace(t, id, v), k) == Find(t, k)
  {
    forall k | k != id ensures Find(Replace(t, id, v), k) == Find(t, k) {
      ReplaceFindOther(t, id, v, k);
    }
    assert Replace(t, id, v)[1..] == Replace(t[1..], id, v);
    if t[0].id != id {
      assert id in Ids(t[1..]) by {
        var x :| x in t && x.id == id;
        var i :| 0 <= i < |t| && t[i] == x;
        assert t[1..][i - 1] == x;
      }
      ReplaceFind(t[1..], id, v);
    }
  }

  /** Replacing the rows of one key leaves the lookup of any other key as it was. */
  lemma {:induction false} ReplaceFindOther<T>(t: Table<T>, id: Id, v: T, k: Id)
    requires k != id
    ensures Find(Replace(t, id, v), k) == Find(t, k)
  {
    if |t| > 0 {
      var r := Replace(t, id, v);
      assert r[1..] == Replace(t[1..], id, v);
      ReplaceFindOther(t[1..], id, v, k);
    }
  }

  /** Appending a row leaves earlier keys' lookups as they were. */
  lemma {:induction false} AppendFind<T>(t: Table<T>, x: Row<T>)
    ensures forall k | k in Ids(t) :: Find(t + [x], k) == Find(t, k)
    ensures x.id !in Ids(t) ==> Find(t + [x], x.id) == Some(x.rec)
    ensures forall k | k !in Ids(t) && k != x.id :: Find(t + [x], k) == None
  {
    if |t| > 0 {
      assert (t + [x])[1..] == t[1..] + [x];
      AppendFind(t[1..], x);
      forall k | k in Ids(t) ensures Find(t + [x], k) == Find(t, k) {
        if t[0].id != k {
          var y :| y in t && y.id == k;
          var i :| 0 <= i < |t| && t[i] == y;
          assert t[1..][i - 1] == y;
        }
      }
    }
  }

  /** A non-empty table is its first row followed by the rest. */
  lemma HeadTail<T>(t: Table<T>)
    requires |t| > 0
    ensures forall x | x in t :: x == t[0] || x in t[1..]
    ensures forall x | x in t[1..] :: x in t
    ensures Ids(t) == {t[0].id} + Ids(t[1..])
    ensures UniqueIds(t) ==> UniqueIds(t[1..]) && t[0].id !in Ids(t[1..])
  {
  }

  /** Putting a row with a fresh key in front keeps the primary-key constraint. */
  lemma ConsUnique<T>(x: Row<T>, s: Table<T>)
    ensures UniqueIds(s) && x.id !in Ids(s) ==> UniqueIds([x] + s)
  {
  }

  /** Deleting every row whose key is in `gone` (an SQL DELETE ... WHERE pk IN gone). */
  function DropIds<T(==)>(t: Table<T>, gone: set<Id>): (r: Table<T>)
    ensures forall x | x in r :: x in t && x.id !in gone
    ensures forall x | x in t && x.id !in gone :: x in r
    ensures Ids(r) == Ids(t) - gone
    ensures UniqueIds(t) ==> UniqueIds(r)
  {
    if |t| == 0 then []
    else
      var rest := DropIds(t[1..], gone);
      HeadTail(t);
      if t[0].id in gone then rest
      else
        var r := [t[0]] + rest;
        assert r[1..] == rest;
        ConsUnique(t[0], rest);
        r
  }

  /** Deleting by key leaves the lookups of the surviving keys as they were. */
  lemma {:induction false} DropIdsFind<T>(t: Table<T>, gone: set<Id>, k: Id)
    ensures Find(DropIds(t, gone), k) == if k in gone then None else Find(t, k)
  {
    if |t| > 0 {
      var rest := DropIds(t[1..], gone);
      DropIdsFind(t[1..], gone, k);
      if t[0].id !in gone {
        assert ([t[0]] + rest)[1..] == rest;
      }
    }
  }
}
