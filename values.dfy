/** Python values as the backend handles them: JSON-decoded data, dicts that
    keep insertion order, truthiness, and calls that may raise. */
module Values {
  import opened Seqs

  datatype Option<+T> = None | Some(value: T)

  /** The outcome of a Python call: it returns a value, or it raises an
      exception whose `str()` is `exc`. */
  datatype Result<+T> = Ok(value: T) | Raise(exc: string) {
    predicate IsFailure() { Raise? }
    function PropagateFailure<U>(): Result<U> requires Raise? { Raise(exc) }
    function Extract(): T requires Ok? { value }
  }

  /** A JSON-compatible Python value. `Null` is both JSON null and Python
      None; `Obj` is a dict, its entries in insertion order. */
  datatype Json =
    | Null
    | Bool(b: bool)
    | Int(i: int)
    | Num(x: real)
    | Str(s: string)
    | Arr(items: seq<Json>)
    | Obj(fields: seq<(string, Json)>)

  /** The entries of a dict, in insertion order. */
  type Fields = seq<(string, Json)>

  /** `list(d.keys())` */
  function Keys(d: Fields): (ks: seq<string>)
    ensures |ks| == |d|
    ensures forall i :: 0 <= i < |d| ==> ks[i] == d[i].0
  {
    if d == [] then [] else [d[0].0] + Keys(d[1..])
  }

  /** What every Python dict satisfies: no key occurs twice. */
  predicate DistinctKeys(d: Fields) {
    forall i, j :: 0 <= i < j < |d| ==> d[i].0 != d[j].0
  }

  /** `d[k]` when `k in d`. */
  function Get(d: Fields, k: string): (r: Option<Json>)
    ensures r.Some? <==> k in Keys(d)
  {
    if d == [] then None
    else if d[0].0 == k then Some(d[0].1)
    else Get(d[1..], k)
  }

  /** `d.get(k, default)`, and the value `d.pop(k, default)` returns. */
  function GetOr(d: Fields, k: string, default: Json): (r: Json)
    ensures k in Keys(d) ==> Get(d, k) == Some(r)
    ensures k !in Keys(d) ==> r == default
  {
    match Get(d, k)
    case Some(v) => v
    case None => default
  }

  /** In a dict, the value found for the key of an entry is that entry's value. */
  lemma {:induction false} GetEntry(d: Fields, i: nat)
    requires DistinctKeys(d) && i < |d|
    ensures Get(d, d[i].0) == Some(d[i].1)
  {
    if i > 0 {
      assert d[1..][i - 1] == d[i];
      assert DistinctKeys(d[1..]) by {
        forall a, b | 0 <= a < b < |d[1..]| ensures d[1..][a].0 != d[1..][b].0 {
          assert d[1..][a] == d[a + 1] && d[1..][b] == d[b + 1];
        }
      }
      GetEntry(d[1..], i - 1);
    }
  }

  /** A lookup finds the first entry under its key. */
  lemma {:induction false} GetFirst(d: Fields, i: nat)
    requires i < |d|
    requires forall j :: 0 <= j < i ==> d[j].0 != d[i].0
    ensures Get(d, d[i].0) == Some(d[i].1)
  {
    if i > 0 {
      assert d[1..][i - 1] == d[i];
      GetFirst(d[1..], i - 1);
    }
  }

  /** The dict after `d.pop(k)`: every entry but the one under `k`, in order. */
  function Removed(d: Fields, k: string): (r: Fields)
    ensures forall e :: e in r <==> e in d && e.0 != k
    ensures IsSubsequence(r, d)
    ensures k !in Keys(r)
    ensures forall k' :: k' != k ==> Get(r, k') == Get(d, k')
  {
    RemovedGet(d, k);
    FilterIsSubsequence((e: (string, Json)) => e.0 != k, d);
    Filter((e: (string, Json)) => e.0 != k, d)
  }

  lemma {:induction false} RemovedGet(d: Fields, k: string)
    ensures k !in Keys(Filter((e: (string, Json)) => e.0 != k, d))
    ensures forall k' :: k' != k ==> Get(Filter((e: (string, Json)) => e.0 != k, d), k') == Get(d, k')
  {
    if d != [] {
      RemovedGet(d[1..], k);
    }
  }

  /** The dict after `d[k] = v`: an existing key keeps its position, a new
      one goes last. */
  function SetItem(d: Fields, k: string, v: Json): Fields {
    if d == [] then [(k, v)]
    else if d[0].0 == k then [(k, v)] + d[1..]
    else [d[0]] + SetItem(d[1..], k, v)
  }

  /** After `d[k] = v`, `d[k]` is `v` and every other key reads as before. */
  lemma {:induction false} SetItemGet(d: Fields, k: string, v: Json)
    ensures Get(SetItem(d, k, v), k) == Some(v)
    ensures forall k' :: k' != k ==> Get(SetItem(d, k, v), k') == Get(d, k')
  {
    if d != [] && d[0].0 != k {
      SetItemGet(d[1..], k, v);
    }
  }

  /** Assigning to an existing key keeps the key order. */
  lemma {:induction false} SetItemKeepsKeys(d: Fields, k: string, v: Json)
    requires k in Keys(d)
    ensures Keys(SetItem(d, k, v)) == Keys(d)
  {
    if d[0].0 != k {
      SetItemKeepsKeys(d[1..], k, v);
      assert SetItem(d, k, v)[1..] == SetItem(d[1..], k, v);
    } else {
      assert SetItem(d, k, v)[1..] == d[1..];
    }
  }

  /** Assigning to a new key appends the entry. */
  lemma {:induction false} SetItemAppends(d: Fields, k: string, v: Json)
    requires k !in Keys(d)
    ensures SetItem(d, k, v) == d + [(k, v)]
  {
    if d != [] {
      assert Keys(d) == [d[0].0] + Keys(d[1..]);
      assert k !in Keys(d[1..]);
      SetItemAppends(d[1..], k, v);
      assert SetItem(d, k, v) == [d[0]] + SetItem(d[1..], k, v);
      assert d + [(k, v)] == [d[0]] + (d[1..] + [(k, v)]);
    }
  }

  /** In a dict, assigning to the key of an entry replaces that entry in place. */
  lemma {:induction false} SetItemReplaces(d: Fields, i: nat, v: Json)
    requires DistinctKeys(d) && i < |d|
    ensures SetItem(d, d[i].0, v) == d[i := (d[i].0, v)]
  {
    if i > 0 {
      var t := d[1..];
      assert t[i - 1] == d[i];
      assert DistinctKeys(t) by {
        forall a, b | 0 <= a < b < |t| ensures t[a].0 != t[b].0 {
          assert t[a] == d[a + 1] && t[b] == d[b + 1];
        }
      }
      SetItemReplaces(t, i - 1, v);
      assert d[i := (d[i].0, v)] == [d[0]] + t[i - 1 := (d[i].0, v)];
    }
  }

  /** `bool(v)` */
  predicate Truthy(v: Json)
    ensures !Truthy(v) <==>
      v == Null || v == Bool(false) || v == Int(0) || v == Num(0.0) || v == Str("") || v == Arr([]) || v == Obj([])
  {
    match v
    case Null => false
    case Bool(b) => b
    case Int(i) => i != 0
    case Num(x) => x != 0.0
    case Str(s) => s != ""
    case Arr(items) => items != []
    case Obj(fields) => fields != []
  }

  /** A list of names as a JSON list of strings. */
  function StrList(names: seq<string>): (r: Json)
    ensures r.Arr? && |r.items| == |names|
    ensures forall i :: 0 <= i < |names| ==> r.items[i] == Str(names[i])
  {
    if names == [] then Arr([]) else Arr([Str(names[0])] + StrList(names[1..]).items)
  }

  /** `v[key]` for a string key: only a dict holding the key answers. */
  function Index(v: Json, key: string): (r: Result<Json>)
    ensures r.Ok? <==> v.Obj? && Get(v.fields, key).Some?
    ensures r.Ok? ==> Get(v.fields, key) == Some(r.value)
  {
    if v.Obj? then
      match Get(v.fields, key)
      case Some(x) => Ok(x)
      case None => Raise("KeyError: '" + key + "'")
    else Raise("TypeError: object is not subscriptable by '" + key + "'")
  }

  /** `v[k1][k2]...`, raising at the first step that fails. */
  function Path(v: Json, keys: seq<string>): (r: Result<Json>)
    ensures keys == [] ==> r == Ok(v)
    ensures keys != [] && !v.Obj? ==> r.Raise?
    decreases |keys|
  {
    if keys == [] then Ok(v)
    else
      var x :- Index(v, keys[0]);
      Path(x, keys[1..])
  }

  /** Following a path one key further is indexing what the path reaches. */
  lemma {:induction false} PathAppend(v: Json, keys: seq<string>, k: string)
    ensures Path(v, keys + [k]) ==
      match Path(v, keys)
      case Ok(x) => Index(x, k)
      case Raise(e) => Raise(e)
    decreases |keys|
  {
    if keys == [] {
      assert keys + [k] == [k];
    } else {
      assert (keys + [k])[0] == keys[0];
      assert (keys + [k])[1..] == keys[1..] + [k];
      match Index(v, keys[0])
      case Raise(_) =>
      case Ok(x) => PathAppend(x, keys[1..], k);
    }
  }

  /** `f"{v:.2f}"`, with `fixed2` the two-decimal rendering of a number:
      numbers and booleans format, anything else (None included) raises. */
  function FormatFixed2(v: Json, fixed2: real -> string): (r: Result<string>)
    ensures r.Ok? <==> v.Num? || v.Int? || v.Bool?
    ensures v.Num? ==> r == Ok(fixed2(v.x))
    ensures v.Int? ==> r == Ok(fixed2(v.i as real))
    ensures v.Bool? ==> r == Ok(fixed2(if v.b then 1.0 else 0.0))
  {
    match v
    case Num(x) => Ok(fixed2(x))
    case Int(i) => Ok(fixed2(i as real))
    case Bool(b) => Ok(fixed2(if b then 1.0 else 0.0))
    case _ => Raise("TypeError: unsupported format string passed to __format__")
  }

  /** `f"{acc:.2f}%" if acc else 'N/A'`: a falsy value (None, 0, "") reads
      as N/A without being formatted. */
  function PercentOrNA(acc: Json, fixed2: real -> string): (r: Result<string>)
    ensures !Truthy(acc) ==> r == Ok("N/A")
    ensures Truthy(acc) ==>
      match FormatFixed2(acc, fixed2)
      case Ok(text) => r == Ok(text + "%")
      case Raise(e) => r == Raise(e)
  {
    if !Truthy(acc) then Ok("N/A")
    else
      var text :- FormatFixed2(acc, fixed2);
      Ok(text + "%")
  }

  /** A dict that callers share and that is changed in place. */
  class MutableDict {
    var items: Fields

    ghost predicate Valid()
      reads this
    {
      DistinctKeys(items)
    }

    /** A dict built from entries with distinct keys, as every Python dict is. */
    constructor (items: Fields)
      requires DistinctKeys(items)
      ensures this.items == items && Valid()
    {
      this.items := items;
    }

    /** `d.pop(k, default)` */
    method Pop(k: string, default: Json) returns (v: Json)
      requires Valid()
      modifies this
      ensures v == GetOr(old(items), k, default)
      ensures items == Removed(old(items), k)
      ensures Valid()
    {
      v := GetOr(items, k, default);
      RemovedKeepsDistinct(items, k);
      items := Removed(items, k);
    }

    /** `d[k] = v` */
    method Store(k: string, v: Json)
      requires Valid()
      modifies this
      ensures items == SetItem(old(items), k, v)
      ensures Valid()
    {
      SetItemKeepsDistinct(items, k, v);
      items := SetItem(items, k, v);
    }
  }

  lemma {:induction false} RemovedKeepsDistinct(d: Fields, k: string)
    ensures DistinctKeys(d) ==> DistinctKeys(Removed(d, k))
  {
    if d != [] && DistinctKeys(d) {
      var t := d[1..];
      assert DistinctKeys(t) by {
        forall a, b | 0 <= a < b < |t| ensures t[a].0 != t[b].0 {
          assert t[a] == d[a + 1] && t[b] == d[b + 1];
        }
      }
      RemovedKeepsDistinct(t, k);
      var rt := Removed(t, k);
      assert forall e :: e in rt ==> e.0 != d[0].0 by {
        forall e | e in rt ensures e.0 != d[0].0 {
          var j :| 0 <= j < |t| && t[j] == e;
          assert d[j + 1] == e;
        }
      }
      if d[0].0 != k {
        assert Removed(d, k) == [d[0]] + rt;
        forall a, b | 0 <= a < b < |[d[0]] + rt| ensures ([d[0]] + rt)[a].0 != ([d[0]] + rt)[b].0 {
          if a == 0 {
            assert ([d[0]] + rt)[b] == rt[b - 1];
            assert rt[b - 1] in rt;
          } else {
            assert ([d[0]] + rt)[a] == rt[a - 1] && ([d[0]] + rt)[b] == rt[b - 1];
          }
        }
      } else {
        assert Removed(d, k) == rt;
      }
    }
  }

  lemma DistinctKeysByKeys(d: Fields)
    ensures DistinctKeys(d) <==> NoDuplicates(Keys(d))
  {
  }

  lemma SetItemKeepsDistinct(d: Fields, k: string, v: Json)
    ensures DistinctKeys(d) ==> DistinctKeys(SetItem(d, k, v))
  {
    var r := SetItem(d, k, v);
    if k in Keys(d) {
      SetItemKeepsKeys(d, k, v);
    } else {
      SetItemAppends(d, k, v);
      assert Keys(d + [(k, v)]) == Keys(d) + [k];
    }
    DistinctKeysByKeys(d);
    DistinctKeysByKeys(r);
    if DistinctKeys(d) && k !in Keys(d) {
      var ks := Keys(d);
      forall a, b | 0 <= a < b < |ks + [k]| ensures (ks + [k])[a] != (ks + [k])[b] {
        if b == |ks| {
          assert (ks + [k])[a] == ks[a];
        } else {
          assert (ks + [k])[a] == ks[a] && (ks + [k])[b] == ks[b];
        }
      }
    }
  }
}
