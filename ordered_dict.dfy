/**
 * A Python `dict` as the client builds one for a form body: the keys in
 * insertion order, and what each key maps to.
 */
module OrderedDict {

  datatype Dict<V> = Dict(keys: seq<string>, vals: map<string, V>)

  /** The insertion order lists each key of the mapping exactly once. */
  ghost predicate Valid<V>(d: Dict<V>) {
    && (forall i, j :: 0 <= i < j < |d.keys| ==> d.keys[i] != d.keys[j])
    && (forall k :: k in d.vals <==> k in d.keys)
  }

  function Empty<V>(): (d: Dict<V>)
    ensures Valid(d) && d.keys == [] && d.vals == map[]
  {
    Dict([], map[])
  }

  /** `d[k] = v`: a key already present keeps its place, a new key goes last. */
  function Set<V>(d: Dict<V>, k: string, v: V): (r: Dict<V>)
    ensures Valid(d) ==> Valid(r)
    ensures r.vals == d.vals[k := v]
    ensures k in d.vals ==> r.keys == d.keys
    ensures k !in d.vals ==> r.keys == d.keys + [k]
  {
    if k in d.vals then Dict(d.keys, d.vals[k := v]) else Dict(d.keys + [k], d.vals[k := v])
  }

  function KeysOf<V>(es: seq<(string, V)>): (ks: seq<string>)
    ensures |ks| == |es| && forall i :: 0 <= i < |es| ==> ks[i] == es[i].0
  {
    seq(|es|, i requires 0 <= i < |es| => es[i].0)
  }

  predicate DistinctKeys<V>(es: seq<(string, V)>) {
    forall i, j :: 0 <= i < j < |es| ==> es[i].0 != es[j].0
  }

  /** The dict obtained by `d[k] = v` for each pair in turn, starting from `{}`. */
  function FromEntries<V>(es: seq<(string, V)>): (d: Dict<V>)
    ensures Valid(d)
  {
    if es == [] then Empty()
    else Set(FromEntries(es[..|es| - 1]), es[|es| - 1].0, es[|es| - 1].1)
  }

  lemma FromEntriesSnoc<V>(es: seq<(string, V)>, k: string, v: V)
    ensures FromEntries(es + [(k, v)]) == Set(FromEntries(es), k, v)
  {
    assert (es + [(k, v)])[..|es|] == es;
  }

  /** When no key repeats, the dict lists the keys in the order given. */
  lemma {:induction false} FromDistinctKeys<V>(es: seq<(string, V)>)
    requires DistinctKeys(es)
    ensures FromEntries(es).keys == KeysOf(es)
  {
    if es != [] {
      var init, last := es[..|es| - 1], es[|es| - 1];
      FromDistinctKeys(init);
      assert last.0 !in FromEntries(init).vals by {
        assert last.0 !in KeysOf(init);
      }
      assert KeysOf(es) == KeysOf(init) + [last.0];
    }
  }

  /** When no key repeats, each key maps to its own value. */
  lemma {:induction false} FromDistinctEntries<V>(es: seq<(string, V)>)
    requires DistinctKeys(es)
    ensures forall i :: 0 <= i < |es| ==> es[i].0 in FromEntries(es).vals
                                          && FromEntries(es).vals[es[i].0] == es[i].1
  {
    if es != [] {
      var init, last := es[..|es| - 1], es[|es| - 1];
      FromDistinctEntries(init);
      forall i | 0 <= i < |es| ensures es[i].0 in FromEntries(es).vals && FromEntries(es).vals[es[i].0] == es[i].1 {
        if i < |es| - 1 {
          assert es[i] == init[i];
        }
      }
    }
  }

  /** The dict has as many entries as it has keys in its order. */
  lemma {:induction false} FromEntriesSize<V>(es: seq<(string, V)>)
    ensures |FromEntries(es).vals| == |FromEntries(es).keys|
  {
    if es != [] {
      FromEntriesSize(es[..|es| - 1]);
    }
  }
}
