/**
 * The dictionaries the analyzer passes around: configurations, metric results and
 * reports. A Python dict keeps insertion order, so a dictionary is a sequence of
 * key/value pairs; looking a key up finds its (first) entry and assigning a key
 * replaces the value where the key already sits or appends a new entry at the end.
 */
module Values {

  datatype Option<T> = None | Some(value: T)

  /** A value, or the message of the exception the source raises instead. */
  datatype Result<T> = Ok(value: T) | Err(message: string)

  /** A JSON-like value. */
  datatype Value =
    | Null
    | Bool(b: bool)
    | Num(n: real)
    | Str(s: string)
    | Arr(items: seq<Value>)
    | Obj(fields: seq<(string, Value)>)

  type Fields = seq<(string, Value)>

  /** The keys of an ordered dictionary, in insertion order. */
  function Keys<V>(d: seq<(string, V)>): (ks: seq<string>)
    ensures |ks| == |d|
  {
    if d == [] then [] else [d[0].0] + Keys(d[1..])
  }

  lemma {:induction false} KeysAt<V>(d: seq<(string, V)>, i: nat)
    requires i < |d|
    ensures Keys(d)[i] == d[i].0
  {
    if i > 0 { KeysAt(d[1..], i - 1); }
  }

  /** What a Python dict guarantees: no key occurs twice. */
  lemma NotInKeys<V>(d: seq<(string, V)>, k: string)
    requires forall i :: 0 <= i < |d| ==> d[i].0 != k
    ensures k !in Keys(d)
  {
    forall j | 0 <= j < |d| ensures Keys(d)[j] != k {
      KeysAt(d, j);
    }
  }

  predicate UniqueKeys<V>(d: seq<(string, V)>)
  {
    forall i, j :: 0 <= i < j < |d| ==> d[i].0 != d[j].0
  }

  /** `d.get(k)`: the value stored under `k`, if any. */
  function Get<V>(d: seq<(string, V)>, k: string): (r: Option<V>)
    ensures r.Some? <==> k in Keys(d)
  {
    if d == [] then None
    else if d[0].0 == k then Some(d[0].1)
    else Get(d[1..], k)
  }

  /** A value found under `k` is one of the dictionary's entries. */
  lemma {:induction false} GetMember<V>(d: seq<(string, V)>, k: string)
    requires k in Keys(d)
    ensures exists i :: 0 <= i < |d| && d[i] == (k, Get(d, k).value)
  {
    if d[0].0 != k {
      GetMember(d[1..], k);
      var i :| 0 <= i < |d[1..]| && d[1..][i] == (k, Get(d, k).value);
      assert d[i + 1] == d[1..][i];
    }
  }

  /** The entry at index `i` is the one found when no earlier entry has its key. */
  lemma {:induction false} GetIndex<V>(d: seq<(string, V)>, i: nat)
    requires i < |d|
    requires forall j :: 0 <= j < i ==> d[j].0 != d[i].0
    ensures Get(d, d[i].0) == Some(d[i].1)
  {
    if i > 0 {
      GetIndex(d[1..], i - 1);
    }
  }

  /** In a dict, the key at index `i` occurs nowhere after it. */
  lemma UniqueAfter<V>(d: seq<(string, V)>, i: nat)
    requires UniqueKeys(d) && i < |d|
    ensures d[i].0 !in Keys(d[i + 1..])
  {
    var t := d[i + 1..];
    forall j | 0 <= j < |t|
      ensures Keys(t)[j] != d[i].0
    {
      KeysAt(t, j);
      assert t[j] == d[i + 1 + j];
    }
  }

  /** `d[k] = v`: replaces the value in place when `k` is present, appends otherwise. */
  function Put<V>(d: seq<(string, V)>, k: string, v: V): seq<(string, V)>
  {
    if d == [] then [(k, v)]
    else if d[0].0 == k then [(k, v)] + d[1..]
    else [d[0]] + Put(d[1..], k, v)
  }

  lemma {:induction false} GetPutSame<V>(d: seq<(string, V)>, k: string, v: V)
    ensures Get(Put(d, k, v), k) == Some(v)
  {
    if d != [] && d[0].0 != k {
      GetPutSame(d[1..], k, v);
      assert Put(d, k, v)[1..] == Put(d[1..], k, v);
    }
  }

  lemma {:induction false} GetPutOther<V>(d: seq<(string, V)>, k: string, v: V, k': string)
    requires k' != k
    ensures Get(Put(d, k, v), k') == Get(d, k')
  {
    if d == [] {
    } else if d[0].0 == k {
      assert Put(d, k, v)[1..] == d[1..];
    } else {
      GetPutOther(d[1..], k, v, k');
      assert Put(d, k, v)[1..] == Put(d[1..], k, v);
    }
  }

  /** Assignment keeps the existing key order and appends only a new key. */
  lemma {:induction false} PutKeys<V>(d: seq<(string, V)>, k: string, v: V)
    ensures Keys(Put(d, k, v)) == if k in Keys(d) then Keys(d) else Keys(d) + [k]
  {
    if d != [] {
      var p := Put(d, k, v);
      if d[0].0 == k {
        assert p[1..] == d[1..];
      } else {
        assert p[1..] == Put(d[1..], k, v);
        PutKeys(d[1..], k, v);
      }
    }
  }

  lemma {:induction false} PutUnique<V>(d: seq<(string, V)>, k: string, v: V)
    requires UniqueKeys(d)
    ensures UniqueKeys(Put(d, k, v))
  {
    PutKeys(d, k, v);
    var r := Put(d, k, v);
    forall i, j | 0 <= i < j < |r| ensures r[i].0 != r[j].0 {
      KeysAt(r, i);
      KeysAt(r, j);
      if j < |d| {
        KeysAt(d, i);
        KeysAt(d, j);
      } else {
        KeysAt(d, i);
      }
    }
  }

  /** A new key lands at the end: on a fresh key, assignment is an append. */
  lemma {:induction false} PutFresh<V>(d: seq<(string, V)>, k: string, v: V)
    requires k !in Keys(d)
    ensures Put(d, k, v) == d + [(k, v)]
  {
    if d != [] {
      PutFresh(d[1..], k, v);
      assert d == [d[0]] + d[1..];
    }
  }

  /** Looking up in a dict extended by one entry at its end. */
  lemma {:induction false} GetAppend<V>(d: seq<(string, V)>, k': string, v: V, k: string)
    ensures Get(d + [(k', v)], k) ==
      if k in Keys(d) then Get(d, k) else if k == k' then Some(v) else None
  {
    if d != [] {
      assert (d + [(k', v)])[1..] == d[1..] + [(k', v)];
      GetAppend(d[1..], k', v, k);
    }
  }

  /** The keys of a dict extended by one entry at its end. */
  lemma {:induction false} KeysAppend<V>(d: seq<(string, V)>, k: string, v: V)
    ensures Keys(d + [(k, v)]) == Keys(d) + [k]
  {
    if d != [] {
      assert (d + [(k, v)])[1..] == d[1..] + [(k, v)];
      KeysAppend(d[1..], k, v);
    }
  }

  /** `v.get(k)` for a value that should be a dict. */
  function Lookup(v: Value, k: string): Option<Value>
  {
    if v.Obj? then Get(v.fields, k) else None
  }

  /** `k in v` for a value that should be a dict. */
  predicate Has(v: Value, k: string)
  {
    v.Obj? && k in Keys(v.fields)
  }

  /** `v.get(k, dflt)`. */
  function GetOr(v: Value, k: string, dflt: Value): Value
  {
    match Lookup(v, k)
    case Some(x) => x
    case None => dflt
  }

  /** `v.get(k, {})` used as a dict: a missing or non-dict entry reads as `{}`. */
  function Section(v: Value, k: string): (r: Value)
    ensures r.Obj?
  {
    match Lookup(v, k)
    case Some(Obj(f)) => Obj(f)
    case _ => Obj([])
  }

  /** `v.get(k, dflt)` read as a number; Python's `bool` is an `int`. */
  function NumOr(v: Value, k: string, dflt: real): real
  {
    match Lookup(v, k)
    case Some(Num(n)) => n
    case Some(Bool(b)) => if b then 1.0 else 0.0
    case _ => dflt
  }

  /** Python truthiness. */
  predicate Truthy(v: Value)
  {
    match v
    case Null => false
    case Bool(b) => b
    case Num(n) => n != 0.0
    case Str(s) => s != []
    case Arr(a) => a != []
    case Obj(f) => f != []
  }

  /** `bool(v.get(k, dflt))`. */
  predicate TruthyOr(v: Value, k: string, dflt: bool)
  {
    match Lookup(v, k)
    case Some(x) => Truthy(x)
    case None => dflt
  }

  /** `v.get(k, dflt)` read as a string. */
  function StrOr(v: Value, k: string, dflt: string): string
  {
    match Lookup(v, k)
    case Some(Str(s)) => s
    case _ => dflt
  }

  /** The characters Python's `str.isspace` accepts: what `\s`, `int()` and `float()` see as whitespace. */
  predicate IsSpace(c: char)
  {
    var n := c as int;
    n == 32 || 9 <= n <= 13 || 28 <= n <= 31 || n == 0x85 || n == 0xA0 || n == 0x1680
    || 0x2000 <= n <= 0x200A || n == 0x2028 || n == 0x2029 || n == 0x202F || n == 0x205F || n == 0x3000
  }

  function Max(a: real, b: real): real { if a >= b then a else b }
  function Min(a: real, b: real): real { if a <= b then a else b }
  function Abs(a: real): real { if a < 0.0 then -a else a }
  function IMin(a: int, b: int): int { if a <= b then a else b }
  function IMax(a: int, b: int): int { if a >= b then a else b }

  /** The sum of a list of numbers, taken from the left. */
  function Sum(xs: seq<real>): real
  {
    if xs == [] then 0.0 else Sum(xs[..|xs| - 1]) + xs[|xs| - 1]
  }
}
