/**
  The Python values the filer works on: what `json.loads` produces for a filing
  (dicts keep insertion order and are association lists here), Python's truthiness,
  and the exceptions that subscripting, `dict.get`, iteration and item assignment
  raise on the wrong kind of value.
 */
module PyJson {
  import opened Wrappers

  datatype Json =
    | Null
    | Bool(b: bool)
    | Int(i: int)
    | Str(s: string)
    | Arr(items: seq<Json>)
    | Obj(fields: seq<(string, Json)>)

  /** The built-in exceptions the modelled code can raise without catching them. */
  datatype PyError = KeyError | TypeError | AttributeError | ValueError | RequestError

  /** `bool(j)` in Python. */
  predicate Truthy(j: Json) {
    match j
    case Null => false
    case Bool(b) => b
    case Int(i) => i != 0
    case Str(s) => s != ""
    case Arr(xs) => xs != []
    case Obj(fs) => fs != []
  }

  function Keys(fs: seq<(string, Json)>): (ks: seq<string>)
    ensures |ks| == |fs|
  {
    if fs == [] then [] else [fs[0].0] + Keys(fs[1..])
  }

  /** The value bound to `k`: the first binding, as a dict holds only one. */
  function Find(fs: seq<(string, Json)>, k: string): (r: Option<Json>)
    ensures r.Some? <==> k in Keys(fs)
  {
    if fs == [] then None else if fs[0].0 == k then Some(fs[0].1) else Find(fs[1..], k)
  }

  /** Bindings of other keys before the first binding of `k` do not affect the lookup. */
  lemma {:induction false} FindSkips(fs: seq<(string, Json)>, k: string, i: nat)
    requires i <= |fs| && forall j :: 0 <= j < i ==> fs[j].0 != k
    ensures Find(fs, k) == Find(fs[i..], k)
    decreases i
  {
    if i > 0 {
      assert fs[0].0 != k;
      assert fs[1..][i - 1..] == fs[i..];
      FindSkips(fs[1..], k, i - 1);
    }
  }

  /** `d[k] = v`: rebinds `k` where it stands, or adds it at the end. */
  function Put(fs: seq<(string, Json)>, k: string, v: Json): (r: seq<(string, Json)>)
    ensures Find(r, k) == Some(v)
    ensures forall k' :: k' != k ==> Find(r, k') == Find(fs, k')
    ensures k in Keys(fs) ==> Keys(r) == Keys(fs)
    ensures k !in Keys(fs) ==> Keys(r) == Keys(fs) + [k]
  {
    if fs == [] then [(k, v)]
    else if fs[0].0 == k then [(k, v)] + fs[1..]
    else [fs[0]] + Put(fs[1..], k, v)
  }

  /** `j[k]` with a string key: KeyError on a dict without `k`, TypeError on anything else. */
  function Subscript(j: Json, k: string): (r: Result<Json, PyError>)
    ensures r.Ok? <==> j.Obj? && k in Keys(j.fields)
    ensures r.Ok? ==> Truthy(j)
  {
    match j
    case Obj(fs) => (match Find(fs, k) case Some(v) => Ok(v) case None => Err(KeyError))
    case _ => Err(TypeError)
  }

  /** `j.get(k)` (default None) on a value known to be a dict. */
  function DictGet(j: Json, k: string): Json
    requires j.Obj?
  {
    match Find(j.fields, k) case Some(v) => v case None => Null
  }

  /** `j.get(k)`: AttributeError unless `j` is a dict. */
  function Get(j: Json, k: string): (r: Result<Json, PyError>)
    ensures r.Ok? <==> j.Obj?
  {
    if j.Obj? then Ok(DictGet(j, k)) else Err(AttributeError)
  }

  /** `j.items()`: AttributeError unless `j` is a dict. */
  function Items(j: Json): (r: Result<seq<(string, Json)>, PyError>)
    ensures r.Ok? <==> j.Obj?
  {
    if j.Obj? then Ok(j.fields) else Err(AttributeError)
  }

  /** What `for x in j` visits: list items, dict keys, one-character strings; None if not iterable. */
  function Iterate(j: Json): (r: Option<seq<Json>>)
    ensures r.Some? <==> j.Arr? || j.Obj? || j.Str?
    ensures j.Arr? ==> r == Some(j.items)
  {
    match j
    case Arr(xs) => Some(xs)
    case Obj(fs) => Some(seq(|fs|, i requires 0 <= i < |fs| => Str(fs[i].0)))
    case Str(s) => Some(seq(|s|, i requires 0 <= i < |s| => Str([s[i]])))
    case _ => None
  }

  /** `j[p[0]][p[1]]...` evaluated left to right. */
  function GetPath(j: Json, p: seq<string>): Result<Json, PyError>
    decreases |p|
  {
    if p == [] then Ok(j)
    else match Subscript(j, p[0])
      case Err(e) => Err(e)
      case Ok(c) => GetPath(c, p[1..])
  }

  /** `j[p[0]]...[p[|p|-2]][p[|p|-1]] = v` on a copy of `j`: the result, or what the statement raises. */
  function SetPath(j: Json, p: seq<string>, v: Json): Result<Json, PyError>
    requires p != []
    decreases |p|
  {
    if |p| == 1 then
      (if j.Obj? then Ok(Obj(Put(j.fields, p[0], v))) else Err(TypeError))
    else match Subscript(j, p[0])
      case Err(e) => Err(e)
      case Ok(c) =>
        match SetPath(c, p[1..], v)
        case Err(e) => Err(e)
        case Ok(c') => Ok(Obj(Put(j.fields, p[0], c')))
  }

  /** Two assignments to keys of one parent path both succeed exactly when the parent is a dict. */
  lemma TwoWritesSucceed(j: Json, p: seq<string>, k1: string, k2: string, v1: Json, v2: Json)
    ensures (SetPath(j, p + [k1], v1).Ok? && SetPath(SetPath(j, p + [k1], v1).value, p + [k2], v2).Ok?) <==>
      GetPath(j, p).Ok? && GetPath(j, p).value.Obj?
  {
    var q1, q2 := p + [k1], p + [k2];
    assert q1[..|q1| - 1] == p && q2[..|q2| - 1] == p;
    SetPathSucceeds(j, q1, v1);
    if SetPath(j, q1, v1).Ok? {
      SetPathReadsBack(j, q1, v1);
      SetPathSucceeds(SetPath(j, q1, v1).value, q2, v2);
    }
  }

  /**
    After two successful assignments to different keys of one parent, both keys read
    their new values, and every path that parts from both reads as before.
   */
  lemma TwoWritesEffect(j: Json, p: seq<string>, k1: string, k2: string, v1: Json, v2: Json, r: seq<string>)
    requires k1 != k2
    requires SetPath(j, p + [k1], v1).Ok? && SetPath(SetPath(j, p + [k1], v1).value, p + [k2], v2).Ok?
    ensures var j2 := SetPath(SetPath(j, p + [k1], v1).value, p + [k2], v2).value;
      && GetPath(j2, p + [k1]) == Ok(v1)
      && GetPath(j2, p + [k2]) == Ok(v2)
      && (Diverge(r, p + [k1]) && Diverge(r, p + [k2]) ==> GetPath(j2, r) == GetPath(j, r))
  {
    var q1, q2 := p + [k1], p + [k2];
    var j1 := SetPath(j, q1, v1).value;
    SetPathReadsBack(j, q1, v1);
    SetPathReadsBack(j1, q2, v2);
    DivergeAtLastKey(p, k1, k2);
    SetPathFrame(j1, q2, v2, q1);
    if Diverge(r, q1) && Diverge(r, q2) {
      SetPathFrame(j, q1, v1, r);
      SetPathFrame(j1, q2, v2, r);
    }
  }

  /** Two paths that share a parent and end in different keys part at those keys. */
  lemma {:induction false} DivergeAtLastKey(p: seq<string>, k1: string, k2: string)
    requires k1 != k2
    ensures Diverge(p + [k1], p + [k2])
    decreases |p|
  {
    if p != [] {
      assert (p + [k1])[1..] == p[1..] + [k1];
      assert (p + [k2])[1..] == p[1..] + [k2];
      DivergeAtLastKey(p[1..], k1, k2);
    }
  }

  /** Neither path is a prefix of the other: they part at some key. */
  predicate Diverge(p: seq<string>, q: seq<string>)
    decreases |p|
  {
    p != [] && q != [] && (p[0] != q[0] || Diverge(p[1..], q[1..]))
  }

  /** Reading one key further: `j[p...][k]` is `j[p...]` subscripted by `k`. */
  lemma {:induction false} GetPathSnoc(j: Json, p: seq<string>, k: string)
    ensures GetPath(j, p + [k]) == match GetPath(j, p) case Err(e) => Err(e) case Ok(c) => Subscript(c, k)
    decreases |p|
  {
    if p == [] {
      assert [] + [k] == [k];
      assert [k][1..] == [];
    } else {
      assert (p + [k])[0] == p[0];
      assert (p + [k])[1..] == p[1..] + [k];
      match Subscript(j, p[0])
      case Err(_) =>
      case Ok(c) => GetPathSnoc(c, p[1..], k);
    }
  }

  /** A path whose last key is missing from the dict it reaches raises KeyError. */
  lemma MissingKeyRaisesKeyError(j: Json, p: seq<string>, k: string)
    requires GetPath(j, p).Ok? && GetPath(j, p).value.Obj? && k !in Keys(GetPath(j, p).value.fields)
    ensures GetPath(j, p + [k]) == Err(KeyError)
  {
    GetPathSnoc(j, p, k);
  }

  /** The assignment succeeds exactly when the path up to the last key reaches a dict. */
  lemma {:induction false} SetPathSucceeds(j: Json, q: seq<string>, v: Json)
    requires q != []
    ensures SetPath(j, q, v).Ok? <==> GetPath(j, q[..|q| - 1]).Ok? && GetPath(j, q[..|q| - 1]).value.Obj?
    decreases |q|
  {
    if |q| == 1 {
      assert q[..0] == [];
    } else {
      assert q[..|q| - 1][0] == q[0];
      assert q[..|q| - 1][1..] == q[1..][..|q[1..]| - 1];
      match Subscript(j, q[0])
      case Err(_) =>
      case Ok(c) => SetPathSucceeds(c, q[1..], v);
    }
  }

  /** After a successful assignment the path reads the new value and its parent is still a dict. */
  lemma {:induction false} SetPathReadsBack(j: Json, q: seq<string>, v: Json)
    requires q != [] && SetPath(j, q, v).Ok?
    ensures GetPath(SetPath(j, q, v).value, q) == Ok(v)
    ensures GetPath(SetPath(j, q, v).value, q[..|q| - 1]).Ok?
    ensures GetPath(SetPath(j, q, v).value, q[..|q| - 1]).value.Obj?
    decreases |q|
  {
    var j' := SetPath(j, q, v).value;
    if |q| == 1 {
      assert q[..0] == [];
      assert Subscript(j', q[0]) == Ok(v);
    } else {
      var c := Subscript(j, q[0]).value;
      var c' := SetPath(c, q[1..], v).value;
      assert Subscript(j', q[0]) == Ok(c');
      SetPathReadsBack(c, q[1..], v);
      assert q[..|q| - 1][0] == q[0];
      assert q[..|q| - 1][1..] == q[1..][..|q[1..]| - 1];
    }
  }

  /** A successful assignment leaves every path that parts from the assigned one as it was. */
  lemma {:induction false} SetPathFrame(j: Json, q: seq<string>, v: Json, p: seq<string>)
    requires q != [] && SetPath(j, q, v).Ok? && Diverge(p, q)
    ensures GetPath(SetPath(j, q, v).value, p) == GetPath(j, p)
    decreases |q|
  {
    var j' := SetPath(j, q, v).value;
    if p[0] != q[0] {
      assert Subscript(j', p[0]) == Subscript(j, p[0]);
    } else {
      var c := Subscript(j, q[0]).value;
      SetPathFrame(c, q[1..], v, p[1..]);
      var c' := SetPath(c, q[1..], v).value;
      assert Subscript(j', p[0]) == Ok(c');
    }
  }
}
