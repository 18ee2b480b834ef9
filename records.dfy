/** A JavaScript object used as a dictionary whose iteration order matters
    (`Object.entries`, `Object.values`): an association list in insertion
    order.  Assigning a present key replaces its value in place; assigning
    a new key appends it. */
module Records {
  import opened Base

  type Record<V> = seq<(string, V)>

  function Keys<V>(r: Record<V>): (ks: seq<string>)
    ensures |ks| == |r|
    ensures forall i :: 0 <= i < |r| ==> ks[i] == r[i].0
  {
    seq(|r|, i requires 0 <= i < |r| => r[i].0)
  }

  function Values<V>(r: Record<V>): (vs: seq<V>)
    ensures |vs| == |r|
    ensures forall i :: 0 <= i < |r| ==> vs[i] == r[i].1
  {
    seq(|r|, i requires 0 <= i < |r| => r[i].1)
  }

  /** No key appears twice, as in every JavaScript object. */
  predicate UniqueKeys<V>(r: Record<V>) {
    forall i, j :: 0 <= i < j < |r| ==> r[i].0 != r[j].0
  }

  /** `obj[k]`: the value stored under `k`, or `undefined`. */
  function Get<V(==)>(r: Record<V>, k: string): (o: Option<V>)
    ensures o.Some? <==> k in Keys(r)
    ensures o.Some? ==> exists i :: 0 <= i < |r| && r[i] == (k, o.value)
    decreases |r|
  {
    if |r| == 0 then None
    else if r[0].0 == k then Some(r[0].1)
    else
      var o := Get(r[1..], k);
      assert Keys(r) == [r[0].0] + Keys(r[1..]);
      if o.Some? then
        var i :| 0 <= i < |r[1..]| && r[1..][i] == (k, o.value);
        assert r[i + 1] == (k, o.value);
        o
      else o
  }

  /** `obj[k] = v`. */
  function Put<V>(r: Record<V>, k: string, v: V): Record<V>
    decreases |r|
  {
    if |r| == 0 then [(k, v)]
    else if r[0].0 == k then [(k, v)] + r[1..]
    else [r[0]] + Put(r[1..], k, v)
  }

  /** After `obj[k] = v`, `obj[k]` is `v`. */
  lemma {:induction false} PutGet<V>(r: Record<V>, k: string, v: V)
    ensures Get(Put(r, k, v), k) == Some(v)
    decreases |r|
  {
    if |r| > 0 && r[0].0 != k {
      PutGet(r[1..], k, v);
      assert Put(r, k, v)[1..] == Put(r[1..], k, v);
    }
  }

  /** `obj[k] = v` leaves every other key's value alone. */
  lemma {:induction false} PutGetOther<V>(r: Record<V>, k: string, v: V, k2: string)
    requires k2 != k
    ensures Get(Put(r, k, v), k2) == Get(r, k2)
    decreases |r|
  {
    if |r| == 0 {
    } else if r[0].0 == k {
      assert Put(r, k, v)[1..] == r[1..];
    } else {
      PutGetOther(r[1..], k, v, k2);
      assert Put(r, k, v)[1..] == Put(r[1..], k, v);
    }
  }

  /** Every entry after `obj[k] = v` is an old entry or the new one. */
  lemma {:induction false} PutEntries<V>(r: Record<V>, k: string, v: V)
    ensures forall i :: 0 <= i < |Put(r, k, v)| ==> Put(r, k, v)[i] == (k, v) || Put(r, k, v)[i] in r
    decreases |r|
  {
    if |r| > 0 && r[0].0 != k {
      PutEntries(r[1..], k, v);
      var p := Put(r, k, v);
      forall i | 0 <= i < |p|
        ensures p[i] == (k, v) || p[i] in r
      {
        if i > 0 {
          assert p[i] == Put(r[1..], k, v)[i - 1];
        }
      }
    }
  }

  /** A present key keeps its position; a new key goes last. */
  lemma {:induction false} PutKeys<V>(r: Record<V>, k: string, v: V)
    ensures Keys(Put(r, k, v)) == if k in Keys(r) then Keys(r) else Keys(r) + [k]
    decreases |r|
  {
    if |r| == 0 {
    } else if r[0].0 == k {
      assert Keys(Put(r, k, v)) == [k] + Keys(r[1..]);
      assert Keys(r) == [k] + Keys(r[1..]);
    } else {
      PutKeys(r[1..], k, v);
      assert Keys(r) == [r[0].0] + Keys(r[1..]);
      assert Keys(Put(r, k, v)) == [r[0].0] + Keys(Put(r[1..], k, v));
    }
  }

  /** Assignment keeps the keys unique. */
  lemma PutUnique<V>(r: Record<V>, k: string, v: V)
    requires UniqueKeys(r)
    ensures UniqueKeys(Put(r, k, v))
  {
    PutKeys(r, k, v);
    var p := Put(r, k, v);
    forall i, j | 0 <= i < j < |p| ensures p[i].0 != p[j].0 {
      assert Keys(p)[i] == p[i].0 && Keys(p)[j] == p[j].0;
      if k !in Keys(r) && j == |r| {
        assert Keys(r)[i] == r[i].0;
      } else {
        assert Keys(r)[i] == r[i].0 && Keys(r)[j] == r[j].0;
      }
    }
  }

  /** `Object.assign(target, source)` / `{...target, ...source}`: every
      entry of `source`, in order, is assigned into `target`. */
  function Assign<V>(target: Record<V>, source: Record<V>): Record<V>
    decreases |source|
  {
    if |source| == 0 then target
    else Assign(Put(target, source[0].0, source[0].1), source[1..])
  }

  /** Without its first entry a record keeps its keys unique, and no longer
      has the first key. */
  lemma UniqueTail<V>(r: Record<V>)
    requires |r| > 0 && UniqueKeys(r)
    ensures UniqueKeys(r[1..]) && r[0].0 !in Keys(r[1..])
  {
    var t := r[1..];
    forall i, j | 0 <= i < j < |t| ensures t[i].0 != t[j].0 {
      assert t[i] == r[i + 1] && t[j] == r[j + 1];
    }
    forall i | 0 <= i < |t| ensures Keys(t)[i] != r[0].0 {
      assert t[i] == r[i + 1];
    }
  }

  /** The keys of a record are its first key and those of the rest. */
  lemma KeysCons<V>(r: Record<V>, k: string)
    requires |r| > 0
    ensures k in Keys(r) <==> k == r[0].0 || k in Keys(r[1..])
  {
    assert Keys(r) == [r[0].0] + Keys(r[1..]);
  }

  /** Entries of the source win; keys the source lacks keep the target's value. */
  lemma {:induction false} AssignGet<V>(target: Record<V>, source: Record<V>, k: string)
    requires UniqueKeys(source)
    ensures Get(Assign(target, source), k) == if k in Keys(source) then Get(source, k) else Get(target, k)
    decreases |source|
  {
    if |source| > 0 {
      var (k0, v0) := source[0];
      var next := Put(target, k0, v0);
      UniqueTail(source);
      AssignGet(next, source[1..], k);
      KeysCons(source, k);
      if k == k0 {
        PutGet(target, k0, v0);
      } else {
        PutGetOther(target, k0, v0, k);
      }
    }
  }

  /** The keys of an assignment: the target's, then the source's new ones. */
  lemma {:induction false} AssignKeys<V>(target: Record<V>, source: Record<V>, k: string)
    ensures k in Keys(Assign(target, source)) <==> k in Keys(target) || k in Keys(source)
    decreases |source|
  {
    if |source| > 0 {
      var (k0, v0) := source[0];
      AssignKeys(Put(target, k0, v0), source[1..], k);
      PutKeys(target, k0, v0);
      assert Keys(source) == [k0] + Keys(source[1..]);
    }
  }

  /** Assignment keeps the keys of the target unique. */
  lemma {:induction false} AssignUnique<V>(target: Record<V>, source: Record<V>)
    requires UniqueKeys(target)
    ensures UniqueKeys(Assign(target, source))
    decreases |source|
  {
    if |source| > 0 {
      PutUnique(target, source[0].0, source[0].1);
      AssignUnique(Put(target, source[0].0, source[0].1), source[1..]);
    }
  }
}
