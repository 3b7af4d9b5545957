/** The id-keyed collection operations shared by the server-side data
    service and the client-side stores: the next id (max + 1, or 1 when the
    collection is empty), find and findIndex by id, the map that merges an
    update into the records with an id, and the filter that deletes them.
    idOf projects a record onto its numeric id. */
module Keyed {
  import opened Seqs

  /** No two records of the collection share an id. */
  ghost predicate DistinctIds<T>(s: seq<T>, idOf: T -> int)
  {
    forall i, j :: 0 <= i < j < |s| ==> idOf(s[i]) != idOf(s[j])
  }

  /** Math.max(...s.map(idOf)). */
  function MaxId<T>(s: seq<T>, idOf: T -> int): (m: int)
    requires |s| > 0
    ensures forall i :: 0 <= i < |s| ==> idOf(s[i]) <= m
    ensures exists i :: 0 <= i < |s| && idOf(s[i]) == m
  {
    if |s| == 1 then idOf(s[0])
    else
      var t := MaxId(s[1..], idOf);
      assert forall i :: 1 <= i < |s| ==> s[i] == s[1..][i - 1];
      if idOf(s[0]) >= t then idOf(s[0]) else t
  }

  /** The id a new record receives: one more than the largest id, 1 when empty. */
  function NextId<T>(s: seq<T>, idOf: T -> int): (n: int)
    ensures forall i :: 0 <= i < |s| ==> idOf(s[i]) < n
    ensures |s| == 0 ==> n == 1
    ensures |s| > 0 ==> exists i :: 0 <= i < |s| && idOf(s[i]) == n - 1
  {
    (if |s| > 0 then MaxId(s, idOf) else 0) + 1
  }

  /** Array.prototype.findIndex by id (None for -1). */
  function FindIndex<T>(s: seq<T>, id: int, idOf: T -> int): (r: Option<nat>)
    ensures r.None? <==> forall i :: 0 <= i < |s| ==> idOf(s[i]) != id
    ensures r.Some? ==> r.value < |s| && idOf(s[r.value]) == id
                        && forall j :: 0 <= j < r.value ==> idOf(s[j]) != id
  {
    if s == [] then None
    else if idOf(s[0]) == id then Some(0)
    else
      assert forall i :: 1 <= i < |s| ==> s[i] == s[1..][i - 1];
      match FindIndex(s[1..], id, idOf)
      case None => None
      case Some(k) => Some(k + 1)
  }

  /** Array.prototype.find by id: the first record carrying id, if any. */
  function FindById<T>(s: seq<T>, id: int, idOf: T -> int): (r: Option<T>)
    ensures r.None? <==> forall i :: 0 <= i < |s| ==> idOf(s[i]) != id
    ensures r.Some? ==> idOf(r.value) == id
                        && exists k :: 0 <= k < |s| && s[k] == r.value
                                       && forall j :: 0 <= j < k ==> idOf(s[j]) != id
  {
    if s == [] then None
    else if idOf(s[0]) == id then Some(s[0])
    else
      var t := FindById(s[1..], id, idOf);
      assert forall i :: 1 <= i < |s| ==> s[i] == s[1..][i - 1];
      assert t.Some? ==> exists k :: 0 <= k < |s| && s[k] == t.value
                                     && forall j :: 0 <= j < k ==> idOf(s[j]) != id by {
        if t.Some? {
          var k :| 0 <= k < |s| - 1 && s[1..][k] == t.value
                   && forall j :: 0 <= j < k ==> idOf(s[1..][j]) != id;
          assert s[k + 1] == t.value;
        }
      }
      t
  }

  /** find and findIndex agree: the record find returns sits at the index findIndex reports. */
  lemma {:induction false} FindByIdAtFindIndex<T>(s: seq<T>, id: int, idOf: T -> int)
    ensures FindById(s, id, idOf).Some? <==> FindIndex(s, id, idOf).Some?
    ensures FindIndex(s, id, idOf).Some? ==>
              FindById(s, id, idOf).value == s[FindIndex(s, id, idOf).value]
  {
    if s != [] && idOf(s[0]) != id {
      FindByIdAtFindIndex(s[1..], id, idOf);
    }
  }

  /** s.map(x => idOf(x) === id ? f(x) : x): f applied to every record carrying id. */
  function UpdateWhere<T>(s: seq<T>, id: int, idOf: T -> int, f: T -> T): (r: seq<T>)
    ensures |r| == |s|
    ensures forall i :: 0 <= i < |s| ==> r[i] == if idOf(s[i]) == id then f(s[i]) else s[i]
  {
    if s == [] then []
    else
      [if idOf(s[0]) == id then f(s[0]) else s[0]] + UpdateWhere(s[1..], id, idOf, f)
  }

  /** The filter predicate x => idOf(x) !== id. */
  function KeyIsNot<T, K(==)>(id: K, idOf: T -> K): T -> bool
  {
    x => idOf(x) != id
  }

  /** s.filter(x => idOf(x) !== id): every record carrying id dropped, order
      kept; the key may be a number or a string. */
  function RemoveById<T, K(==)>(s: seq<T>, id: K, idOf: T -> K): (r: seq<T>)
    ensures IsSubsequence(r, s)
    ensures forall i :: 0 <= i < |r| ==> idOf(r[i]) != id
    ensures forall i :: 0 <= i < |s| && idOf(s[i]) != id ==> s[i] in r
    ensures |r| == |s| <==> forall i :: 0 <= i < |s| ==> idOf(s[i]) != id
    ensures (forall i :: 0 <= i < |s| ==> idOf(s[i]) != id) ==> r == s
    ensures forall x | x in s :: multiset(r)[x] == if idOf(x) != id then multiset(s)[x] else 0
  {
    FilterMultiplicity(s, KeyIsNot(id, idOf));
    Filter(s, KeyIsNot(id, idOf))
  }

  /** Removing from a concatenation removes from each part; a record appended
      with the removed id leaves no trace. */
  lemma RemoveByIdAppend<T, K>(s: seq<T>, t: seq<T>, id: K, idOf: T -> K)
    ensures RemoveById(s + t, id, idOf) == RemoveById(s, id, idOf) + RemoveById(t, id, idOf)
    ensures |t| == 1 && idOf(t[0]) == id ==> RemoveById(s + t, id, idOf) == RemoveById(s, id, idOf)
  {
    FilterAppend(s, t, KeyIsNot(id, idOf));
  }

  /** Removing the same id twice is removing it once. */
  lemma RemoveByIdIdempotent<T, K>(s: seq<T>, id: K, idOf: T -> K)
    ensures RemoveById(RemoveById(s, id, idOf), id, idOf) == RemoveById(s, id, idOf)
  {
    var r := RemoveById(s, id, idOf);
    assert forall i :: 0 <= i < |r| ==> idOf(r[i]) != id;
  }

  /** Dropping records never creates a duplicate id. */
  lemma {:induction false} SubsequenceKeepsDistinctIds<T>(a: seq<T>, b: seq<T>, idOf: T -> int)
    requires IsSubsequence(a, b) && DistinctIds(b, idOf)
    ensures DistinctIds(a, idOf)
    decreases |b|
  {
    if a != [] {
      assert DistinctIds(b[1..], idOf) by {
        forall i, j | 0 <= i < j < |b| - 1 ensures idOf(b[1..][i]) != idOf(b[1..][j]) {
          assert b[1..][i] == b[i + 1] && b[1..][j] == b[j + 1];
        }
      }
      if a[0] == b[0] && IsSubsequence(a[1..], b[1..]) {
        SubsequenceKeepsDistinctIds(a[1..], b[1..], idOf);
        SubsequenceMembers(a[1..], b[1..]);
        forall j | 0 < j < |a| ensures idOf(a[0]) != idOf(a[j]) {
          assert a[j] == a[1..][j - 1];
          var k :| 0 <= k < |b| - 1 && b[1..][k] == a[j];
          assert b[k + 1] == a[j];
        }
      } else {
        SubsequenceKeepsDistinctIds(a, b[1..], idOf);
      }
    }
  }

  /** Appending a record whose id is above every existing id keeps ids distinct. */
  lemma AppendFreshKeepsDistinctIds<T>(s: seq<T>, x: T, idOf: T -> int)
    requires forall i :: 0 <= i < |s| ==> idOf(s[i]) < idOf(x)
    ensures DistinctIds(s, idOf) ==> DistinctIds(s + [x], idOf)
  {
  }

  /** After a record with a fresh id is appended, looking that id up finds exactly it. */
  lemma {:induction false} FindAppendedFresh<T>(s: seq<T>, x: T, idOf: T -> int)
    requires forall i :: 0 <= i < |s| ==> idOf(s[i]) != idOf(x)
    ensures FindById(s + [x], idOf(x), idOf) == Some(x)
    decreases |s|
  {
    if s == [] {
      assert s + [x] == [x];
    } else {
      assert (s + [x])[1..] == s[1..] + [x];
      FindAppendedFresh(s[1..], x, idOf);
    }
  }
}
