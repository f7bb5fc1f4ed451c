/**
 * The form-payload builder of `src/enums.py`: the `PayloadData` record and
 * its `payload` property, which turns the record into the flat dict sent as
 * a form body.
 */
module Payload {
  import opened PyValues
  import opened OrderedDict
  import opened Decimal

  /** The ten optional fields, in declaration order; `None` is `VNone`. */
  datatype PayloadData = PayloadData(
    title: Value,
    description: Value,
    name: Value,
    image: Value,
    video: Value,
    album: Value,
    ids: Value,
    privacy: Value,
    layout: Value,
    cover: Value)

  /** Every field left at its default, `None`. */
  const Defaults := PayloadData(VNone, VNone, VNone, VNone, VNone, VNone, VNone, VNone, VNone, VNone)

  /** `self.__dict__.items()`: the field names with their values, in declaration order. */
  function Items(p: PayloadData): (fields: seq<(string, Value)>)
    ensures |fields| == 10
  {
    [ ("title", p.title), ("description", p.description), ("name", p.name),
      ("image", p.image), ("video", p.video), ("album", p.album), ("ids", p.ids),
      ("privacy", p.privacy), ("layout", p.layout), ("cover", p.cover) ]
  }

  /** The key `f'ids[{i}]'`. */
  function IdsKey(i: nat): string {
    "ids[" + NatToString(i) + "]"
  }

  /** The `ids` field holding a list, which is expanded rather than copied. */
  predicate IsIdsList(f: (string, Value)) {
    f.0 == "ids" && f.1.VList?
  }

  /** A field copied under its own name. */
  predicate IsScalar(f: (string, Value)) {
    f.1 != VNone && !IsIdsList(f)
  }

  /** The pairs `(ids[i], xs[i])`, in list order. */
  function IdsEntries(xs: seq<Value>): (es: seq<(string, Value)>)
    ensures |es| == |xs| && forall i :: 0 <= i < |xs| ==> es[i] == (IdsKey(i), xs[i])
  {
    seq(|xs|, i requires 0 <= i < |xs| => (IdsKey(i), xs[i]))
  }

  /** The pairs one field puts into the payload. */
  function FieldEntries(f: (string, Value)): seq<(string, Value)> {
    if f.1 == VNone then []
    else if IsIdsList(f) then IdsEntries(f.1.items)
    else [f]
  }

  /** The pairs all the fields put into the payload, field after field. */
  function Entries(fields: seq<(string, Value)>): seq<(string, Value)> {
    if fields == [] then []
    else Entries(fields[..|fields| - 1]) + FieldEntries(fields[|fields| - 1])
  }

  /** What `PayloadData.payload` returns. */
  function PayloadOf(p: PayloadData): Dict<Value> {
    FromEntries(Entries(Items(p)))
  }

  /** The `payload` property: `PayloadFill` over the record's fields. */
  method BuildPayload(p: PayloadData) returns (payload: Dict<Value>)
    ensures payload == PayloadOf(p)
  {
    payload := PayloadFill(Items(p));
  }

  /** The outer loop of `payload`: one step per `(key, value)` of the record. */
  method PayloadFill(fields: seq<(string, Value)>) returns (payload: Dict<Value>)
    ensures payload == FromEntries(Entries(fields))
  {
    payload := Empty();
    var i := 0;
    while i < |fields|
      invariant 0 <= i <= |fields|
      invariant payload == FromEntries(Entries(fields[..i]))
    {
      EntriesPrefixStep(fields, i);
      payload := PayloadAddField(payload, Entries(fields[..i]), fields[i].0, fields[i].1);
      i := i + 1;
    }
    assert fields[..i] == fields;
  }

  /** One pass of the outer loop: skip `None`, expand an `ids` list, copy anything else. */
  method PayloadAddField(d: Dict<Value>, ghost done: seq<(string, Value)>, key: string, value: Value)
    returns (payload: Dict<Value>)
    requires d == FromEntries(done)
    ensures payload == FromEntries(done + FieldEntries((key, value)))
  {
    payload := d;
    if value != VNone {
      if key == "ids" && value.VList? {
        payload := PayloadAddIds(d, done, value.items);
      } else {
        FromEntriesSnoc(done, key, value);
        payload := Set(d, key, value);
      }
    } else {
      assert done + [] == done;
    }
  }

  /** The inner loop of `payload`: `payload[f'ids[{i}]'] = img_id` for each element in turn. */
  method PayloadAddIds(d: Dict<Value>, ghost done: seq<(string, Value)>, xs: seq<Value>)
    returns (payload: Dict<Value>)
    requires d == FromEntries(done)
    ensures payload == FromEntries(done + IdsEntries(xs))
  {
    payload := d;
    var j := 0;
    assert done + IdsEntries(xs[..0]) == done;
    while j < |xs|
      invariant 0 <= j <= |xs|
      invariant payload == FromEntries(done + IdsEntries(xs[..j]))
    {
      IdsEntriesPrefix(xs, j);
      SeqAssoc(done, IdsEntries(xs[..j]), [(IdsKey(j), xs[j])]);
      FromEntriesSnoc(done + IdsEntries(xs[..j]), IdsKey(j), xs[j]);
      payload := Set(payload, IdsKey(j), xs[j]);
      j := j + 1;
    }
    assert xs[..j] == xs;
  }

  lemma IdsEntriesPrefix(xs: seq<Value>, j: nat)
    requires j < |xs|
    ensures IdsEntries(xs[..j + 1]) == IdsEntries(xs[..j]) + [(IdsKey(j), xs[j])]
  {
  }

  // ----- Where each pair of the payload comes from -----

  /** The field names, in order. */
  function Names(fields: seq<(string, Value)>): (ns: seq<string>)
    ensures |ns| == |fields| && forall n :: 0 <= n < |fields| ==> ns[n] == fields[n].0
  {
    seq(|fields|, n requires 0 <= n < |fields| => fields[n].0)
  }

  /** Field names are distinct and never contain '[', as the dataclass's do. */
  predicate WellNamed(fields: seq<(string, Value)>) {
    && DistinctKeys(fields)
    && forall n :: 0 <= n < |fields| ==> '[' !in fields[n].0
  }

  lemma IdsKeyHasBracket(i: nat)
    ensures '[' in IdsKey(i)
  {
    assert IdsKey(i)[3] == '[';
  }

  lemma IdsKeyInjective(i: nat, j: nat)
    requires IdsKey(i) == IdsKey(j)
    ensures i == j
  {
    var a, b := IdsKey(i), IdsKey(j);
    assert NatToString(i) == a[4..|a| - 1];
    assert NatToString(j) == b[4..|b| - 1];
    NatToStringInjective(i, j);
  }

  lemma EntriesPrefixStep(fields: seq<(string, Value)>, i: nat)
    requires i < |fields|
    ensures Entries(fields[..i + 1]) == Entries(fields[..i]) + FieldEntries(fields[i])
  {
    assert fields[..i + 1] == fields[..i] + [fields[i]];
    EntriesSnoc(fields[..i], fields[i]);
  }

  lemma EntriesSnoc(fields: seq<(string, Value)>, f: (string, Value))
    ensures Entries(fields + [f]) == Entries(fields) + FieldEntries(f)
  {
    assert (fields + [f])[..|fields|] == fields;
  }

  /** Each pair of the payload is a copied field, or `ids[i]` with the i-th element of the `ids` list. */
  lemma {:induction false} EntryOrigin(fields: seq<(string, Value)>, j: nat) returns (n: nat, i: nat)
    requires j < |Entries(fields)|
    ensures n < |fields|
    ensures || (IsScalar(fields[n]) && Entries(fields)[j] == fields[n])
            || (IsIdsList(fields[n]) && i < |fields[n].1.items|
                && Entries(fields)[j] == (IdsKey(i), fields[n].1.items[i]))
  {
    var init, last := fields[..|fields| - 1], fields[|fields| - 1];
    if j < |Entries(init)| {
      n, i := EntryOrigin(init, j);
    } else {
      n, i := |fields| - 1, j - |Entries(init)|;
    }
  }

  /** A copied field is among the payload's pairs. */
  lemma {:induction false} ScalarEntry(fields: seq<(string, Value)>, n: nat)
    requires n < |fields| && IsScalar(fields[n])
    ensures fields[n] in Entries(fields)
  {
    var init := fields[..|fields| - 1];
    if n < |fields| - 1 {
      ScalarEntry(init, n);
    } else {
      assert FieldEntries(fields[n]) == [fields[n]];
    }
  }

  /** Every element of an `ids` list is among the payload's pairs, under its index. */
  lemma {:induction false} IdsEntry(fields: seq<(string, Value)>, n: nat, i: nat)
    requires n < |fields| && IsIdsList(fields[n]) && i < |fields[n].1.items|
    ensures (IdsKey(i), fields[n].1.items[i]) in Entries(fields)
  {
    var init := fields[..|fields| - 1];
    if n < |fields| - 1 {
      IdsEntry(init, n, i);
    } else {
      assert FieldEntries(fields[n])[i] == (IdsKey(i), fields[n].1.items[i]);
    }
  }

  /** With well-named fields no key is produced twice. */
  lemma {:induction false} EntriesDistinct(fields: seq<(string, Value)>)
    requires WellNamed(fields)
    ensures DistinctKeys(Entries(fields))
  {
    if fields != [] {
      var init, last := fields[..|fields| - 1], fields[|fields| - 1];
      EntriesDistinct(init);
      var before, added := Entries(init), FieldEntries(last);
      assert Entries(fields) == before + added;
      forall a, b | 0 <= a < |before| && 0 <= b < |added|
        ensures before[a].0 != added[b].0
      {
        var n, i := EntryOrigin(init, a);
        assert init[n] == fields[n];
        if IsIdsList(last) {
          IdsKeyHasBracket(b);
        } else {
          if IsIdsList(init[n]) {
            IdsKeyHasBracket(i);
            assert '[' !in last.0;
          } else {
            assert init[n].0 != last.0;
          }
        }
      }
      forall a, b | 0 <= a < b < |added|
        ensures added[a].0 != added[b].0
      {
        if added[a].0 == added[b].0 {
          IdsKeyInjective(a, b);
        }
      }
    }
  }

  /** The dataclass's field names are distinct and contain no '['. */
  lemma ItemsWellNamed(p: PayloadData)
    ensures WellNamed(Items(p))
  {
    var fs := Items(p);
    forall n | 0 <= n < |fs| ensures '[' !in fs[n].0 {
    }
    forall a, b | 0 <= a < b < |fs| ensures fs[a].0 != fs[b].0 {
    }
  }

  // ----- The general facts, for any well-named record -----

  /** Each key of the dict comes from a copied field or is `ids[i]` for an element of the `ids` list. */
  lemma KeyOrigin(fields: seq<(string, Value)>, k: string) returns (n: nat, i: nat)
    requires WellNamed(fields)
    requires k in FromEntries(Entries(fields)).vals
    ensures n < |fields|
    ensures var vals := FromEntries(Entries(fields)).vals;
            || (IsScalar(fields[n]) && k == fields[n].0 && vals[k] == fields[n].1)
            || (IsIdsList(fields[n]) && i < |fields[n].1.items|
                && k == IdsKey(i) && vals[k] == fields[n].1.items[i])
  {
    var es := Entries(fields);
    EntriesDistinct(fields);
    FromDistinctKeys(es);
    FromDistinctEntries(es);
    var j :| 0 <= j < |es| && KeysOf(es)[j] == k;
    n, i := EntryOrigin(fields, j);
  }

  /** Every copied field sits in the dict under its own name, with its value. */
  lemma ScalarKept(fields: seq<(string, Value)>, n: nat)
    requires WellNamed(fields) && n < |fields| && IsScalar(fields[n])
    ensures fields[n].0 in FromEntries(Entries(fields)).vals
    ensures FromEntries(Entries(fields)).vals[fields[n].0] == fields[n].1
  {
    EntriesDistinct(fields);
    FromDistinctEntries(Entries(fields));
    ScalarEntry(fields, n);
  }

  /** Every element of a listed `ids` sits in the dict under `ids[i]`. */
  lemma IdsKept(fields: seq<(string, Value)>, n: nat, i: nat)
    requires WellNamed(fields) && n < |fields| && IsIdsList(fields[n]) && i < |fields[n].1.items|
    ensures IdsKey(i) in FromEntries(Entries(fields)).vals
    ensures FromEntries(Entries(fields)).vals[IdsKey(i)] == fields[n].1.items[i]
  {
    EntriesDistinct(fields);
    FromDistinctEntries(Entries(fields));
    IdsEntry(fields, n, i);
  }

  /** Fields copied under their own names. */
  function ScalarCount(fields: seq<(string, Value)>): nat {
    if fields == [] then 0
    else ScalarCount(fields[..|fields| - 1]) + (if IsScalar(fields[|fields| - 1]) then 1 else 0)
  }

  /** Elements of `ids` lists. */
  function IdsTotal(fields: seq<(string, Value)>): nat {
    if fields == [] then 0
    else IdsTotal(fields[..|fields| - 1])
         + (if IsIdsList(fields[|fields| - 1]) then |fields[|fields| - 1].1.items| else 0)
  }

  lemma {:induction false} EntriesLength(fields: seq<(string, Value)>)
    ensures |Entries(fields)| == ScalarCount(fields) + IdsTotal(fields)
  {
    if fields != [] {
      EntriesLength(fields[..|fields| - 1]);
    }
  }

  /** With one field named `ids`, the listed elements are that field's. */
  lemma {:induction false} IdsTotalOfField(fields: seq<(string, Value)>, n: nat)
    requires WellNamed(fields) && n < |fields| && fields[n].0 == "ids"
    ensures IdsTotal(fields) == if fields[n].1.VList? then |fields[n].1.items| else 0
  {
    var init := fields[..|fields| - 1];
    if n < |fields| - 1 {
      IdsTotalOfField(init, n);
    } else {
      IdsTotalNone(init);
    }
  }

  lemma {:induction false} IdsTotalNone(fields: seq<(string, Value)>)
    requires forall n :: 0 <= n < |fields| ==> fields[n].0 != "ids"
    ensures IdsTotal(fields) == 0
  {
    if fields != [] {
      IdsTotalNone(fields[..|fields| - 1]);
    }
  }

  lemma {:induction false} EntriesAppend(a: seq<(string, Value)>, b: seq<(string, Value)>)
    ensures Entries(a + b) == Entries(a) + Entries(b)
    decreases |b|
  {
    if b == [] {
      assert a + b == a;
    } else {
      var init, last := b[..|b| - 1], b[|b| - 1];
      EntriesAppend(a, init);
      EntriesAppendStep(a, init, last);
      assert b == init + [last];
    }
  }

  lemma EntriesAppendStep(a: seq<(string, Value)>, init: seq<(string, Value)>, last: (string, Value))
    requires Entries(a + init) == Entries(a) + Entries(init)
    ensures Entries(a + (init + [last])) == Entries(a) + Entries(init + [last])
  {
    EntriesSnocAfter(a, init, last);
    EntriesSnoc(init, last);
    SeqAssoc(Entries(a), Entries(init), FieldEntries(last));
  }

  lemma EntriesSnocAfter(a: seq<(string, Value)>, init: seq<(string, Value)>, last: (string, Value))
    ensures Entries(a + (init + [last])) == Entries(a + init) + FieldEntries(last)
  {
    assert a + (init + [last]) == (a + init) + [last];
    EntriesSnoc(a + init, last);
  }

  lemma SplitAround<T>(s: seq<T>, n: nat)
    requires n < |s|
    ensures s == (s[..n] + [s[n]]) + s[n + 1..]
  {
    assert s[..n] + [s[n]] == s[..n + 1];
  }

  lemma SliceMiddle<T>(a: seq<T>, b: seq<T>, c: seq<T>)
    ensures (a + b + c)[|a|..|a| + |b|] == b
  {
  }

  lemma SeqAssoc<T>(x: seq<T>, y: seq<T>, z: seq<T>)
    ensures (x + y) + z == x + (y + z)
  {
  }

  lemma {:induction false} EntriesCongruent(f: seq<(string, Value)>, g: seq<(string, Value)>)
    requires |f| == |g|
    requires forall n :: 0 <= n < |f| ==> FieldEntries(f[n]) == FieldEntries(g[n])
    ensures Entries(f) == Entries(g)
  {
    if f != [] {
      EntriesCongruent(f[..|f| - 1], g[..|g| - 1]);
    }
  }

  // ----- What `PayloadData.payload` promises -----

  /** No field whose value is `None` appears as a key. */
  lemma PayloadDropsNone(p: PayloadData)
    ensures forall n :: 0 <= n < 10 && Items(p)[n].1 == VNone ==> Items(p)[n].0 !in PayloadOf(p).vals
  {
    var fs := Items(p);
    ItemsWellNamed(p);
    forall n | 0 <= n < 10 && fs[n].1 == VNone ensures fs[n].0 !in PayloadOf(p).vals {
      if fs[n].0 in PayloadOf(p).vals {
        var m, i := KeyOrigin(fs, fs[n].0);
        if IsIdsList(fs[m]) {
          IdsKeyHasBracket(i);
        }
      }
    }
  }

  /**
   * Every field that is not `None` (an empty string included), apart from
   * an `ids` list, appears under its own name with its value unchanged.
   */
  lemma PayloadKeepsFields(p: PayloadData)
    ensures forall n :: 0 <= n < 10 && IsScalar(Items(p)[n]) ==>
              && Items(p)[n].0 in PayloadOf(p).vals
              && PayloadOf(p).vals[Items(p)[n].0] == Items(p)[n].1
  {
    ItemsWellNamed(p);
    forall n | 0 <= n < 10 && IsScalar(Items(p)[n])
      ensures Items(p)[n].0 in PayloadOf(p).vals && PayloadOf(p).vals[Items(p)[n].0] == Items(p)[n].1
    {
      ScalarKept(Items(p), n);
    }
  }

  /**
   * An `ids` list of length N gives exactly the keys `ids[0]` .. `ids[N-1]`,
   * `ids[i]` holding the i-th element, and no bare `ids` key.
   */
  lemma PayloadExpandsIds(p: PayloadData)
    requires p.ids.VList?
    ensures forall i :: 0 <= i < |p.ids.items| ==>
              IdsKey(i) in PayloadOf(p).vals && PayloadOf(p).vals[IdsKey(i)] == p.ids.items[i]
    ensures "ids" !in PayloadOf(p).vals
    ensures forall k :: k in PayloadOf(p).vals && '[' in k ==>
              exists i :: 0 <= i < |p.ids.items| && k == IdsKey(i)
  {
    var fs := Items(p);
    ItemsWellNamed(p);
    assert fs[6] == ("ids", p.ids);
    forall i | 0 <= i < |p.ids.items|
      ensures IdsKey(i) in PayloadOf(p).vals && PayloadOf(p).vals[IdsKey(i)] == p.ids.items[i]
    {
      IdsKept(fs, 6, i);
    }
    if "ids" in PayloadOf(p).vals {
      var m, i := KeyOrigin(fs, "ids");
      if IsIdsList(fs[m]) {
        IdsKeyHasBracket(i);
      }
    }
    forall k | k in PayloadOf(p).vals && '[' in k
      ensures exists i :: 0 <= i < |p.ids.items| && k == IdsKey(i)
    {
      var m, i := KeyOrigin(fs, k);
      assert IsIdsList(fs[m]);
    }
  }

  /** An empty `ids` list contributes no keys at all: the payload is the one for `ids=None`. */
  lemma PayloadEmptyIds(p: PayloadData)
    requires p.ids == VList([])
    ensures PayloadOf(p) == PayloadOf(p.(ids := VNone))
  {
    var f, g := Items(p), Items(p.(ids := VNone));
    forall n | 0 <= n < 10 ensures FieldEntries(f[n]) == FieldEntries(g[n]) {
      if n == 6 {
        assert FieldEntries(f[n]) == IdsEntries([]) == [];
      }
    }
    EntriesCongruent(f, g);
  }

  /** The number of `ids` elements, when `ids` is a list. */
  function IdsLength(p: PayloadData): nat {
    if p.ids.VList? then |p.ids.items| else 0
  }

  /**
   * `len(payload)` is the number of fields copied under their own names
   * plus the length of the `ids` list: no two pairs share a key.
   */
  lemma PayloadSize(p: PayloadData)
    ensures |PayloadOf(p).vals| == |PayloadOf(p).keys| == ScalarCount(Items(p)) + IdsLength(p)
  {
    var fs := Items(p);
    ItemsWellNamed(p);
    EntriesDistinct(fs);
    FromDistinctKeys(Entries(fs));
    EntriesLength(fs);
    IdsTotalOfField(fs, 6);
    FromEntriesSize(Entries(fs));
  }

  /** The keys follow the field declaration order, each field's pairs in turn. */
  lemma PayloadOrder(p: PayloadData)
    ensures PayloadOf(p).keys == KeysOf(Entries(Items(p)))
  {
    ItemsWellNamed(p);
    EntriesDistinct(Items(p));
    FromDistinctKeys(Entries(Items(p)));
  }

  /**
   * The `ids[i]` keys form one run, in list order, right after the keys of
   * the fields copied from `title` .. `album`.
   */
  lemma PayloadIdsRun(p: PayloadData) returns (off: nat)
    requires p.ids.VList?
    ensures off == ScalarCount(Items(p)[..6])
    ensures off + |p.ids.items| <= |PayloadOf(p).keys|
    ensures forall i :: 0 <= i < |p.ids.items| ==> PayloadOf(p).keys[off + i] == IdsKey(i)
  {
    var fs := Items(p);
    ItemsWellNamed(p);
    PayloadOrder(p);
    off := IdsRun(fs, 6);
    IdsBeforeRun(fs, 6);
    KeysOfRun(Entries(fs), off, p.ids.items);
  }

  /** The length of what the fields before the `ids` field put in: the fields copied among them. */
  lemma IdsBeforeRun(fields: seq<(string, Value)>, n: nat)
    requires WellNamed(fields) && n < |fields| && fields[n].0 == "ids"
    ensures |Entries(fields[..n])| == ScalarCount(fields[..n])
  {
    EntriesLength(fields[..n]);
    IdsTotalNone(fields[..n]);
  }

  /** An `ids` list at field `n` puts its pairs in one run, right after what the fields before it put in. */
  lemma IdsRun(fields: seq<(string, Value)>, n: nat) returns (off: nat)
    requires n < |fields| && IsIdsList(fields[n])
    ensures off == |Entries(fields[..n])|
    ensures off + |fields[n].1.items| <= |Entries(fields)|
    ensures Entries(fields)[off..off + |fields[n].1.items|] == IdsEntries(fields[n].1.items)
  {
    EntriesAround(fields, n);
    assert FieldEntries(fields[n]) == IdsEntries(fields[n].1.items);
    off := |Entries(fields[..n])|;
    SliceMiddle(Entries(fields[..n]), IdsEntries(fields[n].1.items), Entries(fields[n + 1..]));
  }

  lemma KeysOfRun(es: seq<(string, Value)>, off: nat, xs: seq<Value>)
    requires off + |xs| <= |es| && es[off..off + |xs|] == IdsEntries(xs)
    ensures forall i :: 0 <= i < |xs| ==> KeysOf(es)[off + i] == IdsKey(i)
  {
    forall i | 0 <= i < |xs| ensures KeysOf(es)[off + i] == IdsKey(i) {
      assert es[off + i] == es[off..off + |xs|][i];
    }
  }

  /** The pairs of the fields before field `n`, then field `n`'s, then those of the fields after it. */
  lemma EntriesAround(fields: seq<(string, Value)>, n: nat)
    requires n < |fields|
    ensures Entries(fields) == Entries(fields[..n]) + FieldEntries(fields[n]) + Entries(fields[n + 1..])
  {
    SplitAround(fields, n);
    EntriesAppend(fields[..n] + [fields[n]], fields[n + 1..]);
    EntriesSnoc(fields[..n], fields[n]);
  }

  /** The dataclass's field names can never collide with an `ids[i]` key. */
  lemma FieldNamesAreNotIdsKeys(p: PayloadData, n: nat, i: nat)
    requires n < 10
    ensures Items(p)[n].0 != IdsKey(i)
  {
    ItemsWellNamed(p);
    IdsKeyHasBracket(i);
  }

  /** `PayloadData()` with every field left at `None` gives `{}`. */
  lemma PayloadOfDefaults(p: PayloadData)
    requires p == Defaults
    ensures PayloadOf(p).keys == [] && PayloadOf(p).vals == map[]
  {
    var fs := Items(p);
    assert forall n :: 0 <= n < |fs| ==> fs[n].1 == VNone;
    EntriesNone(fs);
  }

  lemma {:induction false} EntriesNone(fields: seq<(string, Value)>)
    requires forall n :: 0 <= n < |fields| ==> fields[n].1 == VNone
    ensures Entries(fields) == []
  {
    if fields != [] {
      EntriesNone(fields[..|fields| - 1]);
    }
  }
}
