/** JSON values as the program sees them after decoding: Python's `None`,
    booleans, integers, floats, strings, lists and dictionaries.

    A dictionary is an ordered list of (key, value) fields, because a Python
    dictionary remembers insertion order and serialising it writes the fields
    in that order. Lookups find the first field with the key; assigning to a
    key that is present replaces that field where it stands, and assigning to
    a new key appends a field at the end, exactly as `d[k] = v` does. */
module Json {
  import opened Wrappers

  datatype Value =
    | Null
    | Bool(b: bool)
    | Int(i: int)
    | Float(f: real)
    | Str(s: string)
    | Arr(items: seq<Value>)
    | Obj(fields: seq<(string, Value)>)

  type Fields = seq<(string, Value)>

  /** The keys of a dictionary, in insertion order. */
  function Keys(fs: Fields): (ks: seq<string>)
    ensures |ks| == |fs|
    ensures forall i :: 0 <= i < |fs| ==> ks[i] == fs[i].0
  {
    if fs == [] then [] else [fs[0].0] + Keys(fs[1..])
  }

  /** `d.get(k)`: the value stored under `k`, if any. */
  function Lookup(fs: Fields, k: string): Option<Value>
  {
    if fs == [] then None
    else if fs[0].0 == k then Some(fs[0].1)
    else Lookup(fs[1..], k)
  }

  /** `d.get(k)` is the value of the first field whose key is `k`, and
      `None` exactly when no field has key `k`. */
  lemma {:induction false} LookupFirst(fs: Fields, k: string)
    ensures Lookup(fs, k).None? <==> forall i :: 0 <= i < |fs| ==> fs[i].0 != k
    ensures Lookup(fs, k).Some? ==>
      exists i :: 0 <= i < |fs| && fs[i] == (k, Lookup(fs, k).value) && forall j :: 0 <= j < i ==> fs[j].0 != k
  {
    if fs != [] && fs[0].0 != k {
      LookupFirst(fs[1..], k);
      if Lookup(fs, k).Some? {
        var i :| 0 <= i < |fs| - 1 && fs[1..][i] == (k, Lookup(fs, k).value)
          && forall j :: 0 <= j < i ==> fs[1..][j].0 != k;
        assert fs[i + 1] == (k, Lookup(fs, k).value);
        assert forall j :: 0 <= j < i + 1 ==> fs[j].0 != k by {
          forall j | 0 <= j < i + 1
            ensures fs[j].0 != k
          {
            if j > 0 {
              assert fs[j] == fs[1..][j - 1];
            }
          }
        }
      } else {
        forall i | 0 <= i < |fs|
          ensures fs[i].0 != k
        {
          if i > 0 {
            assert fs[i] == fs[1..][i - 1];
          }
        }
      }
    } else if fs != [] {
      assert fs[0] == (k, Lookup(fs, k).value);
    }
  }

  /** `k in d`. */
  predicate HasKey(fs: Fields, k: string)
  {
    Lookup(fs, k).Some?
  }

  /** A key is present exactly when it is one of the dictionary's keys. */
  lemma {:induction false} HasKeyIffInKeys(fs: Fields, k: string)
    ensures HasKey(fs, k) <==> k in Keys(fs)
  {
    if fs != [] {
      HasKeyIffInKeys(fs[1..], k);
      assert Keys(fs) == [fs[0].0] + Keys(fs[1..]);
    }
  }

  /** `d.get(k, default)`. */
  function LookupOr(fs: Fields, k: string, default: Value): (r: Value)
    ensures HasKey(fs, k) ==> Lookup(fs, k) == Some(r)
    ensures !HasKey(fs, k) ==> r == default
  {
    match Lookup(fs, k)
    case Some(v) => v
    case None => default
  }

  /** No key occurs twice; every dictionary Python builds has this shape. */
  predicate DistinctKeys(fs: Fields)
  {
    forall i, j :: 0 <= i < j < |fs| ==> Keys(fs)[i] != Keys(fs)[j]
  }

  /** `d[k] = v`: overwrite the field `k` where it stands, or append it. */
  function Assign(fs: Fields, k: string, v: Value): Fields
  {
    if fs == [] then [(k, v)]
    else if fs[0].0 == k then [(k, v)] + fs[1..]
    else [fs[0]] + Assign(fs[1..], k, v)
  }

  /** After `d[k] = v`, `d.get(k)` is `v` and every other key reads as before. */
  lemma {:induction false} AssignLookup(fs: Fields, k: string, v: Value, k': string)
    ensures Lookup(Assign(fs, k, v), k') == if k' == k then Some(v) else Lookup(fs, k')
  {
    if fs != [] && fs[0].0 != k {
      AssignLookup(fs[1..], k, v, k');
    }
  }

  /** `d[k] = v` keeps the key order: an existing key stays where it is and a
      new key goes last. */
  lemma {:induction false} AssignKeys(fs: Fields, k: string, v: Value)
    ensures Keys(Assign(fs, k, v)) == if HasKey(fs, k) then Keys(fs) else Keys(fs) + [k]
  {
    if fs != [] && fs[0].0 != k {
      AssignKeys(fs[1..], k, v);
      var r := Assign(fs, k, v);
      assert r[1..] == Assign(fs[1..], k, v);
    } else if fs != [] {
      var r := Assign(fs, k, v);
      assert r[1..] == fs[1..];
    }
  }

  /** `d[k] = v` never makes a key occur twice. */
  lemma AssignDistinct(fs: Fields, k: string, v: Value)
    requires DistinctKeys(fs)
    ensures DistinctKeys(Assign(fs, k, v))
  {
    AssignKeys(fs, k, v);
    HasKeyIffInKeys(fs, k);
  }
}
