/**
 * A JavaScript object used as a table: string keys with values, iterated in insertion order.
 * Assigning to a present key replaces its value in place (its position is kept); assigning
 * to an absent key appends it; `delete` removes it and keeps the order of the rest.
 */
module Dict {
  import opened Base

  type Table<V> = seq<(string, V)>

  function Keys<V>(t: Table<V>): set<string>
  {
    set i | 0 <= i < |t| :: t[i].0
  }

  /** A JavaScript object never holds a key twice. */
  predicate Unique<V>(t: Table<V>)
  {
    forall i, j | 0 <= i < j < |t| :: t[i].0 != t[j].0
  }

  lemma KeysCons<V>(t: Table<V>)
    requires t != []
    ensures Keys(t) == {t[0].0} + Keys(t[1..])
  {
    forall x | x in Keys(t) ensures x in {t[0].0} + Keys(t[1..]) {
      var i :| 0 <= i < |t| && t[i].0 == x;
      if i > 0 { assert t[1..][i - 1].0 == x; }
    }
  }

  /** `t[k]`: the value stored under `k`, or `None` for `undefined`. */
  function Get<V>(t: Table<V>, k: string): (r: Option<V>)
    ensures r.Some? <==> k in Keys(t)
    ensures r.Some? ==> exists i | 0 <= i < |t| :: t[i] == (k, r.value)
  {
    if t == [] then None
    else if t[0].0 == k then Some(t[0].1)
    else
      var r := Get(t[1..], k);
      KeysCons(t);
      assert r.Some? ==> exists i | 0 <= i < |t| :: t[i] == (k, r.value) by {
        if r.Some? {
          var i :| 0 <= i < |t[1..]| && t[1..][i] == (k, r.value);
          assert t[i + 1] == (k, r.value);
        }
      }
      r
  }

  /** Replace the value of every entry keyed `k`, keeping every position. */
  function Replace<V>(t: Table<V>, k: string, v: V): (r: Table<V>)
    ensures |r| == |t|
    ensures forall i | 0 <= i < |t| :: r[i].0 == t[i].0
    ensures forall i | 0 <= i < |t| :: r[i].1 == (if t[i].0 == k then v else t[i].1)
  {
    seq(|t|, i requires 0 <= i < |t| => if t[i].0 == k then (k, v) else t[i])
  }

  /** `t[k] = v`. */
  function Set<V>(t: Table<V>, k: string, v: V): (r: Table<V>)
    ensures Keys(r) == Keys(t) + {k}
    ensures k !in Keys(t) ==> r == t + [(k, v)]
    ensures k in Keys(t) ==> |r| == |t| && forall i | 0 <= i < |t| :: r[i] == (if t[i].0 == k then (k, v) else t[i])
  {
    if k in Keys(t) then
      var r := Replace(t, k, v);
      assert Keys(r) == Keys(t) by {
        forall x | x in Keys(t) ensures x in Keys(r) {
          var i :| 0 <= i < |t| && t[i].0 == x;
          assert r[i].0 == x;
        }
      }
      r
    else
      var r := t + [(k, v)];
      assert Keys(r) == Keys(t) + {k} by {
        assert r[|t|].0 == k;
        forall x | x in Keys(t) ensures x in Keys(r) {
          var i :| 0 <= i < |t| && t[i].0 == x;
          assert r[i].0 == x;
        }
      }
      r
  }

  /** `delete t[k]`: the entry under `k` goes and the others keep their order. */
  function Delete<V>(t: Table<V>, k: string): (r: Table<V>)
    ensures Keys(r) == Keys(t) - {k}
    ensures |r| <= |t|
    ensures forall e | e in r :: e in t
    ensures k !in Keys(t) ==> r == t
    ensures Unique(t) && k in Keys(t) ==> exists i | 0 <= i < |t| :: t[i].0 == k && r == t[..i] + t[i + 1..]
  {
    if t == [] then []
    else
      var rest := Delete(t[1..], k);
      KeysCons(t);
      if t[0].0 == k then
        assert Unique(t) ==> rest == t[..0] + t[1..] by {
          if Unique(t) { UniqueCons(t); }
        }
        rest
      else
        var r := [t[0]] + rest;
        assert r[1..] == rest;
        KeysCons(r);
        assert Unique(t) && k in Keys(t) ==> exists i | 0 <= i < |t| :: t[i].0 == k && r == t[..i] + t[i + 1..] by {
          if Unique(t) && k in Keys(t) {
            UniqueCons(t);
            var j :| 0 <= j < |t[1..]| && t[1..][j].0 == k && rest == t[1..][..j] + t[1..][j + 1..];
            RemoveCons(t, j);
          }
        }
        r
  }

  lemma UniqueCons<V>(t: Table<V>)
    requires t != [] && Unique(t)
    ensures Unique(t[1..]) && t[0].0 !in Keys(t[1..])
  {
  }

  /** Removing position `j` of the tail, with the head put back, removes position `j + 1`. */
  lemma RemoveCons<V>(t: Table<V>, j: nat)
    requires j + 1 < |t|
    ensures t[j + 1] == t[1..][j]
    ensures [t[0]] + (t[1..][..j] + t[1..][j + 1..]) == t[..j + 1] + t[j + 2..]
  {
    assert t[..j + 1] == [t[0]] + t[1..][..j];
    assert t[j + 2..] == t[1..][j + 1..];
  }

  /** Assignment changes the value under `k` and no other key's value. */
  lemma {:induction false} GetSet<V>(t: Table<V>, k: string, v: V, x: string)
    ensures Get(Set(t, k, v), x) == if x == k then Some(v) else Get(t, x)
  {
    if k in Keys(t) {
      GetReplace(t, k, v, x);
    } else {
      GetAppend(t, k, v, x);
    }
  }

  lemma {:induction false} GetReplace<V>(t: Table<V>, k: string, v: V, x: string)
    requires k in Keys(t)
    ensures Get(Replace(t, k, v), x) == if x == k then Some(v) else Get(t, x)
  {
    var r := Replace(t, k, v);
    if t[0].0 == k {
      assert r[0] == (k, v);
      if x != k {
        assert r[1..] == Replace(t[1..], k, v);
        if k in Keys(t[1..]) {
          GetReplace(t[1..], k, v, x);
        } else {
          GetReplaceAbsent(t[1..], k, v, x);
        }
      }
    } else {
      assert r[0] == t[0];
      assert r[1..] == Replace(t[1..], k, v);
      var i :| 0 <= i < |t| && t[i].0 == k;
      assert t[1..][i - 1].0 == k;
      if t[0].0 != x {
        GetReplace(t[1..], k, v, x);
      }
    }
  }

  lemma {:induction false} GetReplaceAbsent<V>(t: Table<V>, k: string, v: V, x: string)
    requires k !in Keys(t)
    ensures Replace(t, k, v) == t
  {
    var r := Replace(t, k, v);
    forall i | 0 <= i < |t| ensures r[i] == t[i] {
      assert t[i].0 in Keys(t);
    }
  }

  lemma {:induction false} GetAppend<V>(t: Table<V>, k: string, v: V, x: string)
    requires k !in Keys(t)
    ensures Get(t + [(k, v)], x) == if x == k then Some(v) else Get(t, x)
  {
    if t == [] {
    } else {
      assert (t + [(k, v)])[1..] == t[1..] + [(k, v)];
      KeysCons(t);
      if t[0].0 != x {
        GetAppend(t[1..], k, v, x);
      }
    }
  }

  /** Deleting removes `k` and leaves every other key's value as it was. */
  lemma {:induction false} GetDelete<V>(t: Table<V>, k: string, x: string)
    ensures Get(Delete(t, k), x) == if x == k then None else Get(t, x)
  {
    if t != [] {
      GetDelete(t[1..], k, x);
    }
  }

  /** Deleting a key that is absent changes nothing. */
  lemma {:induction false} DeleteAbsent<V>(t: Table<V>, k: string)
    requires k !in Keys(t)
    ensures Delete(t, k) == t
  {
    if t != [] {
      KeysCons(t);
      DeleteAbsent(t[1..], k);
    }
  }

  lemma {:induction false} DeleteAppended<V>(t: Table<V>, k: string, v: V)
    ensures Delete(t + [(k, v)], k) == Delete(t, k)
  {
    if t == [] {
      assert Delete([(k, v)], k) == [] + Delete([(k, v)][1..], k);
    } else {
      assert (t + [(k, v)])[1..] == t[1..] + [(k, v)];
      DeleteAppended(t[1..], k, v);
    }
  }

  /** Assigning a fresh key and then deleting it restores the table exactly, order included. */
  lemma DeleteSetFresh<V>(t: Table<V>, k: string, v: V)
    requires k !in Keys(t)
    ensures Delete(Set(t, k, v), k) == t
  {
    DeleteAppended(t, k, v);
    DeleteAbsent(t, k);
  }

  /** Assignment and deletion keep keys unique. */
  lemma SetUnique<V>(t: Table<V>, k: string, v: V)
    requires Unique(t)
    ensures Unique(Set(t, k, v))
  {
    if k !in Keys(t) {
      var r := Set(t, k, v);
      forall i, j | 0 <= i < j < |r| ensures r[i].0 != r[j].0 {
        if j == |t| { assert t[i].0 in Keys(t); }
      }
    }
  }

  lemma {:induction false} DeleteUnique<V>(t: Table<V>, k: string)
    requires Unique(t)
    ensures Unique(Delete(t, k))
  {
    if t != [] {
      DeleteUnique(t[1..], k);
      var rest := Delete(t[1..], k);
      if t[0].0 != k {
        var r := [t[0]] + rest;
        forall i, j | 0 <= i < j < |r| ensures r[i].0 != r[j].0 {
          if i == 0 {
            assert r[j].0 in Keys(rest);
            assert r[j].0 in Keys(t[1..]);
            var m :| 0 <= m < |t[1..]| && t[1..][m].0 == r[j].0;
            assert t[m + 1].0 == r[j].0;
          }
        }
      }
    }
  }

  /** Deleting a present key removes at least one entry. */
  lemma {:induction false} DeleteShrinks<V>(t: Table<V>, k: string)
    requires k in Keys(t)
    ensures |Delete(t, k)| < |t|
  {
    KeysCons(t);
    if t[0].0 != k {
      DeleteShrinks(t[1..], k);
    }
  }
}
