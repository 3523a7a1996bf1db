/**
 * The value tree both parsers return. A dictionary is an association list
 * kept in insertion order; assigning to a key that is already present
 * replaces its value where it stands, the way a Python dict (and a
 * JavaScript object with non-numeric keys) behaves.
 */
module Values {
  import opened Wrappers

  datatype Value =
    | Null
    | Bool(b: bool)
    | Int(n: int)
    | Float(text: string)   // the token as written; its IEEE double is not modelled
    | Str(s: string)
    | List(items: seq<Value>)
    | Dict(entries: seq<Entry>)

  datatype Entry = Entry(key: string, val: Value)

  /** A leaf value: neither a list nor a dictionary. */
  predicate IsScalar(v: Value)
  {
    !v.List? && !v.Dict?
  }

  /** A list whose items are all leaves. */
  predicate IsScalarList(v: Value)
  {
    v.List? && forall i :: 0 <= i < |v.items| ==> IsScalar(v.items[i])
  }

  /** A leaf, or a list of leaves. */
  predicate Leafy(v: Value)
  {
    IsScalar(v) || IsScalarList(v)
  }

  /** The keys of an association list, in order. */
  function Keys(es: seq<Entry>): (ks: seq<string>)
    ensures |ks| == |es|
    ensures forall i :: 0 <= i < |es| ==> ks[i] == es[i].key
  {
    if es == [] then [] else [es[0].key] + Keys(es[1..])
  }

  /** No key occurs twice. */
  predicate UniqueKeys(es: seq<Entry>)
  {
    forall i, j :: 0 <= i < j < |es| ==> es[i].key != es[j].key
  }

  /** Lookup: the value of the first entry with key `k`. */
  function Get(es: seq<Entry>, k: string): (r: Option<Value>)
    ensures r.None? <==> k !in Keys(es)
    ensures r.Some? ==> Entry(k, r.value) in es
  {
    if es == [] then None
    else if es[0].key == k then Some(es[0].val)
    else Get(es[1..], k)
  }

  /** Assignment `d[k] = v`: overwrite in place when `k` is present, append otherwise. */
  function Put(es: seq<Entry>, k: string, v: Value): seq<Entry>
  {
    if es == [] then [Entry(k, v)]
    else if es[0].key == k then [Entry(k, v)] + es[1..]
    else [es[0]] + Put(es[1..], k, v)
  }

  /** After `d[k] = v`, `d[k]` is `v` and every other key reads as before. */
  lemma {:induction false} PutGet(es: seq<Entry>, k: string, v: Value)
    ensures Get(Put(es, k, v), k) == Some(v)
    ensures forall k' :: k' != k ==> Get(Put(es, k, v), k') == Get(es, k')
  {
    if es != [] && es[0].key != k {
      PutGet(es[1..], k, v);
    }
  }

  /** Assignment brings in no entry other than the assigned one. */
  lemma {:induction false} PutEntries(es: seq<Entry>, k: string, v: Value)
    ensures forall e :: e in Put(es, k, v) ==> e in es || e == Entry(k, v)
  {
    if es != [] && es[0].key != k {
      PutEntries(es[1..], k, v);
    }
  }

  /** Assignment keeps the order of the keys and appends a new key at the end. */
  lemma {:induction false} PutKeys(es: seq<Entry>, k: string, v: Value)
    ensures Keys(Put(es, k, v)) == if k in Keys(es) then Keys(es) else Keys(es) + [k]
  {
    if es != [] && es[0].key != k {
      PutKeys(es[1..], k, v);
      assert Keys(es) == [es[0].key] + Keys(es[1..]);
      assert Keys(Put(es, k, v)) == [es[0].key] + Keys(Put(es[1..], k, v));
    } else if es != [] {
      assert Keys(es) == [k] + Keys(es[1..]);
      assert Keys(Put(es, k, v)) == [k] + Keys(es[1..]);
    }
  }

  /** Assignment keeps the keys of a dictionary distinct. */
  lemma {:induction false} PutUnique(es: seq<Entry>, k: string, v: Value)
    requires UniqueKeys(es)
    ensures UniqueKeys(Put(es, k, v))
  {
    var r := Put(es, k, v);
    var ks := Keys(r);
    PutKeys(es, k, v);
    assert forall i, j :: 0 <= i < j < |r| ==> ks[i] != ks[j] by {
      forall i, j | 0 <= i < j < |r| ensures ks[i] != ks[j] {
        var old_ks := Keys(es);
        if k in old_ks {
          assert old_ks[i] == es[i].key && old_ks[j] == es[j].key;
        } else if j < |es| {
          assert old_ks[i] == es[i].key && old_ks[j] == es[j].key;
        } else {
          assert ks[i] == old_ks[i] && ks[j] == k;
        }
      }
    }
  }

  /** A second assignment to the same key wins, and the first leaves no trace. */
  lemma {:induction false} PutPut(es: seq<Entry>, k: string, v: Value, w: Value)
    ensures Put(Put(es, k, v), k, w) == Put(es, k, w)
  {
    if es != [] && es[0].key != k {
      PutPut(es[1..], k, v, w);
    }
  }
}
