/**
 * `Imgur._build_query_params`: `"&".join(f"{k}={v}" ...)` over the
 * parameters that are not `None`, in insertion order, with no escaping.
 */
module Query {
  import opened Decimal

  /** A query parameter's value: the callers pass strings and integers. */
  datatype Param = PNone | PStr(s: string) | PInt(i: int)

  /** `f"{v}"` */
  function Render(v: Param): string
    requires !v.PNone?
  {
    match v
    case PStr(s) => s
    case PInt(i) => IntToString(i)
  }

  /** `"k=v"` for each parameter that is not `None`, in order. */
  function Pairs(params: seq<(string, Param)>): (ps: seq<string>)
    ensures |ps| <= |params|
  {
    if params == [] then []
    else if params[0].1.PNone? then Pairs(params[1..])
    else [params[0].0 + "=" + Render(params[0].1)] + Pairs(params[1..])
  }

  /** `sep.join(parts)` */
  function Join(parts: seq<string>, sep: char): string {
    if parts == [] then ""
    else if |parts| == 1 then parts[0]
    else parts[0] + [sep] + Join(parts[1..], sep)
  }

  function BuildQueryParams(params: seq<(string, Param)>): string {
    Join(Pairs(params), '&')
  }

  /** `s.split(sep)`: the pieces between separators, always at least one. */
  function Split(s: string, sep: char): (parts: seq<string>)
    ensures |parts| >= 1
  {
    if s == [] then [""]
    else
      var rest := Split(s[1..], sep);
      if s[0] == sep then [""] + rest else [[s[0]] + rest[0]] + rest[1..]
  }

  lemma {:induction false} SplitNoSep(s: string, sep: char)
    requires sep !in s
    ensures Split(s, sep) == [s]
  {
    if s != [] {
      SplitNoSep(s[1..], sep);
      assert [s[0]] + s[1..] == s;
    }
  }

  lemma {:induction false} SplitAtFirstSep(a: string, b: string, sep: char)
    requires sep !in a
    ensures Split(a + [sep] + b, sep) == [a] + Split(b, sep)
  {
    if a == [] {
      assert a + [sep] + b == [sep] + b;
      assert ([sep] + b)[1..] == b;
    } else {
      assert (a + [sep] + b)[1..] == a[1..] + [sep] + b;
      SplitAtFirstSep(a[1..], b, sep);
      assert [a[0]] + a[1..] == a;
    }
  }

  /** Splitting a join gives the parts back, when there is at least one and none holds the separator. */
  lemma {:induction false} SplitJoin(parts: seq<string>, sep: char)
    requires parts != []
    requires forall i :: 0 <= i < |parts| ==> sep !in parts[i]
    ensures Split(Join(parts, sep), sep) == parts
  {
    if |parts| == 1 {
      SplitNoSep(parts[0], sep);
    } else {
      SplitJoin(parts[1..], sep);
      SplitAtFirstSep(parts[0], Join(parts[1..], sep), sep);
    }
  }

  /** `"k=v"` pairs in order, one per parameter that is not `None`. */
  lemma {:induction false} PairsAreKeptParams(params: seq<(string, Param)>)
    ensures |Pairs(params)| == |Present(params)|
    ensures forall i :: 0 <= i < |Pairs(params)| ==>
              Pairs(params)[i] == Present(params)[i].0 + "=" + Render(Present(params)[i].1)
  {
    if params != [] {
      PairsAreKeptParams(params[1..]);
    }
  }

  /** The parameters that are not `None`, in order. */
  function Present(params: seq<(string, Param)>): (kept: seq<(string, Param)>)
    ensures forall i :: 0 <= i < |kept| ==> !kept[i].1.PNone?
  {
    if params == [] then []
    else if params[0].1.PNone? then Present(params[1..])
    else [params[0]] + Present(params[1..])
  }

  /** A list none of whose values is `None` is kept whole, in order. */
  lemma {:induction false} PresentAll(params: seq<(string, Param)>)
    requires forall i :: 0 <= i < |params| ==> !params[i].1.PNone?
    ensures Present(params) == params
  {
    if params != [] {
      PresentAll(params[1..]);
    }
  }

  /**
   * When no key or value holds '&', splitting the query string on '&'
   * gives back `k=v` for each parameter that is not `None`, in order.
   */
  lemma QueryRoundTrip(params: seq<(string, Param)>)
    requires Present(params) != []
    requires forall i :: 0 <= i < |Present(params)| ==>
               '&' !in Present(params)[i].0 && '&' !in Render(Present(params)[i].1)
    ensures |Split(BuildQueryParams(params), '&')| == |Present(params)|
    ensures forall i :: 0 <= i < |Present(params)| ==>
              Split(BuildQueryParams(params), '&')[i]
              == Present(params)[i].0 + "=" + Render(Present(params)[i].1)
  {
    PairsAreKeptParams(params);
    var ps := Pairs(params);
    forall i | 0 <= i < |ps| ensures '&' !in ps[i] {
      var k, v := Present(params)[i].0, Render(Present(params)[i].1);
      assert ps[i] == k + "=" + v;
      assert forall j :: 0 <= j < |ps[i]| ==> ps[i][j] != '&' by {
        forall j | 0 <= j < |ps[i]| ensures ps[i][j] != '&' {
          if j < |k| { assert ps[i][j] == k[j]; }
          else if j > |k| { assert ps[i][j] == v[j - |k| - 1]; }
        }
      }
    }
    SplitJoin(ps, '&');
  }

  /** With every parameter present and free of '&', the query string splits back into the `k=v` pairs. */
  lemma QuerySplitsToPairs(params: seq<(string, Param)>)
    requires params != []
    requires forall i :: 0 <= i < |params| ==>
               !params[i].1.PNone? && '&' !in params[i].0 && '&' !in Render(params[i].1)
    ensures |Split(BuildQueryParams(params), '&')| == |params|
    ensures forall i :: 0 <= i < |params| ==>
              Split(BuildQueryParams(params), '&')[i] == params[i].0 + "=" + Render(params[i].1)
  {
    PresentAll(params);
    QueryRoundTrip(params);
  }

  /** Nothing is escaped: a value holding '&' splits into two pieces. */
  lemma NoEscaping()
    ensures BuildQueryParams([("q", PStr("cats&dogs"))]) == "q=cats&dogs"
    ensures Split(BuildQueryParams([("q", PStr("cats&dogs"))]), '&') == ["q=cats", "dogs"]
  {
    var params := [("q", PStr("cats&dogs"))];
    assert Pairs(params[1..]) == [];
    assert Render(params[0].1) == "cats&dogs";
    assert "q" + "=" + "cats&dogs" == "q=cats&dogs";
    assert Pairs(params) == ["q=cats&dogs"];
    SplitAtFirstSep("q=cats", "dogs", '&');
    SplitNoSep("dogs", '&');
    assert "q=cats&dogs" == "q=cats" + ['&'] + "dogs";
  }
}
