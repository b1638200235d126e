/** Values shared by every part of the model: optional and failing results,
    the loosely typed metadata values that documents carry, and the ordered
    metadata mappings (Python dicts keep insertion order, and the renderers
    iterate in that order). */
module Common {

  datatype Option<T> = None | Some(value: T)

  /** The outcome of an operation that may raise: `Err` carries the name of
      the Python exception. */
  datatype Result<T> = Ok(value: T) | Err(error: string)

  /** A metadata value. `VOther` stands for a value of any other Python type
      (a float score, say): what `str()` renders it as, and its truthiness. */
  datatype Value =
    | VNone
    | VStr(s: string)
    | VInt(i: int)
    | VBool(b: bool)
    | VOther(text: string, truthy: bool)

  /** Python truthiness of a metadata value. */
  predicate Truthy(v: Value)
  {
    match v
    case VNone => false
    case VStr(s) => |s| > 0
    case VInt(i) => i != 0
    case VBool(b) => b
    case VOther(_, t) => t
  }

  function Digit(d: nat): char
    requires d < 10
  {
    "0123456789"[d]
  }

  /** Decimal rendering of a natural number, as Python's `str(int)`. */
  function NatToString(n: nat): (r: string)
    ensures |r| > 0
    ensures forall k :: 0 <= k < |r| ==> '0' <= r[k] <= '9'
    decreases n
  {
    if n < 10 then [Digit(n)] else NatToString(n / 10) + [Digit(n % 10)]
  }

  function IntToString(i: int): string
  {
    if i < 0 then "-" + NatToString(-i) else NatToString(i)
  }

  /** `str(v)` as an f-string renders it. */
  function Show(v: Value): string
  {
    match v
    case VNone => "None"
    case VStr(s) => s
    case VInt(i) => IntToString(i)
    case VBool(b) => if b then "True" else "False"
    case VOther(t, _) => t
  }

  /** An ordered metadata mapping: key/value pairs in insertion order. */
  type Metadata = seq<(string, Value)>

  predicate HasKey(m: Metadata, k: string)
  {
    exists i :: 0 <= i < |m| && m[i].0 == k
  }

  /** `m.get(k)`: the value stored under `k`, if any. */
  function Get(m: Metadata, k: string): (r: Option<Value>)
    ensures r.Some? <==> HasKey(m, k)
  {
    if |m| == 0 then None
    else if m[0].0 == k then Some(m[0].1)
    else Get(m[1..], k)
  }

  /** `m.get(k)` where a missing key reads as `None`. */
  function GetValue(m: Metadata, k: string): Value
  {
    match Get(m, k)
    case Some(v) => v
    case None => VNone
  }

  /** `m[k] = v`: an existing key keeps its position, a new key goes last. */
  function SetKey(m: Metadata, k: string, v: Value): (r: Metadata)
    ensures Get(r, k) == Some(v)
  {
    if |m| == 0 then [(k, v)]
    else if m[0].0 == k then [(k, v)] + m[1..]
    else [m[0]] + SetKey(m[1..], k, v)
  }

  /** After `m[k] = v` every other key is as before. */
  lemma {:induction false} SetKeyOthers(m: Metadata, k: string, v: Value)
    ensures forall k' :: k' != k ==> Get(SetKey(m, k, v), k') == Get(m, k')
  {
    if |m| > 0 && m[0].0 != k {
      SetKeyOthers(m[1..], k, v);
    }
  }

  /** The keys of a mapping, in order. */
  function Keys(m: Metadata): (r: seq<string>)
    ensures |r| == |m| && forall j :: 0 <= j < |m| ==> r[j] == m[j].0
  {
    seq(|m|, j requires 0 <= j < |m| => m[j].0)
  }

  /** No key occurs twice in `ks`. */
  predicate Distinct(ks: seq<string>)
  {
    forall i, j :: 0 <= i < j < |ks| ==> ks[i] != ks[j]
  }

  /** A key is present exactly when it is among the keys. */
  lemma KeysHasKey(m: Metadata, k: string)
    ensures HasKey(m, k) <==> k in Keys(m)
  {
    if k in Keys(m) {
      var j :| 0 <= j < |m| && Keys(m)[j] == k;
      assert m[j].0 == k;
    }
  }

  /** Distinct keys make a dict, and each key first occurs where it is. */
  lemma KeysDistinct(m: Metadata, i: nat)
    requires Distinct(Keys(m)) && i < |m|
    ensures UniqueKeys(m)
    ensures FirstAt(m, i, m[i].0)
  {
    assert forall j :: 0 <= j < |m| ==> Keys(m)[j] == m[j].0;
  }

  /** The dictionary literal with keys `ks` and values `vs`, in order. */
  function Pairs(ks: seq<string>, vs: seq<Value>): (r: Metadata)
    requires |ks| == |vs|
    ensures |r| == |ks|
  {
    if |ks| == 0 then [] else [(ks[0], vs[0])] + Pairs(ks[1..], vs[1..])
  }

  /** Pair `i` of a literal is key `i` with value `i`. */
  lemma {:induction false} PairsAt(ks: seq<string>, vs: seq<Value>, i: nat)
    requires |ks| == |vs| && i < |ks|
    ensures Pairs(ks, vs)[i] == (ks[i], vs[i])
  {
    if i > 0 {
      PairsAt(ks[1..], vs[1..], i - 1);
    }
  }

  lemma PairsKeys(ks: seq<string>, vs: seq<Value>)
    requires |ks| == |vs|
    ensures Keys(Pairs(ks, vs)) == ks
  {
    forall i | 0 <= i < |ks| ensures Keys(Pairs(ks, vs))[i] == ks[i] {
      PairsAt(ks, vs, i);
    }
  }

  /** Replacing the value of a pair keeps the keys. */
  lemma ReplaceKeepsKeys(m: Metadata, i: nat, v: Value)
    requires i < |m|
    ensures Keys(m[i := (m[i].0, v)]) == Keys(m)
  {
  }

  /** Mappings with the same keys hold the same keys. */
  lemma SameKeys(m: Metadata, n: Metadata, k: string)
    requires Keys(m) == Keys(n)
    ensures HasKey(m, k) <==> HasKey(n, k)
  {
    if HasKey(m, k) {
      var j :| 0 <= j < |m| && m[j].0 == k;
      assert Keys(n)[j] == k;
    }
    if HasKey(n, k) {
      var j :| 0 <= j < |n| && n[j].0 == k;
      assert Keys(m)[j] == k;
    }
  }

  /** Position `i` holds the first occurrence of `k`. */
  predicate FirstAt(m: Metadata, i: nat, k: string)
  {
    i < |m| && m[i].0 == k && forall j :: 0 <= j < i ==> m[j].0 != k
  }

  /** The value under the first occurrence of a key. */
  lemma {:induction false} GetAt(m: Metadata, i: nat, k: string)
    requires FirstAt(m, i, k)
    ensures Get(m, k) == Some(m[i].1)
  {
    if i > 0 {
      assert FirstAt(m[1..], i - 1, k);
      GetAt(m[1..], i - 1, k);
    }
  }

  /** Setting a key that is present replaces its pair in place. */
  lemma {:induction false} SetKeyAt(m: Metadata, i: nat, k: string, v: Value)
    requires FirstAt(m, i, k)
    ensures SetKey(m, k, v) == m[i := (k, v)]
  {
    if i > 0 {
      var tail := m[1..];
      assert FirstAt(tail, i - 1, k);
      SetKeyAt(tail, i - 1, k, v);
      var r := SetKey(m, k, v);
      assert r == [m[0]] + tail[i - 1 := (k, v)];
      forall j | 0 <= j < |m| ensures r[j] == m[i := (k, v)][j] {
        if j > 0 {
          assert r[j] == tail[i - 1 := (k, v)][j - 1];
        }
      }
    }
  }

  /** Setting a key that is absent appends its pair. */
  lemma {:induction false} SetKeyNew(m: Metadata, k: string, v: Value)
    requires !HasKey(m, k)
    ensures SetKey(m, k, v) == m + [(k, v)]
  {
    if |m| > 0 {
      var tail := m[1..];
      assert m[0].0 != k;
      assert SetKey(m, k, v) == [m[0]] + SetKey(tail, k, v);
      SetKeyNew(tail, k, v);
      assert m == [m[0]] + tail;
    }
  }

  /** Setting a key adds no key besides it. */
  lemma {:induction false} SetKeyKeys(m: Metadata, k: string, v: Value, i: nat)
    requires i < |SetKey(m, k, v)|
    ensures SetKey(m, k, v)[i].0 == k || HasKey(m, SetKey(m, k, v)[i].0)
  {
    if |m| > 0 && m[0].0 != k && i > 0 {
      SetKeyKeys(m[1..], k, v, i - 1);
      var key := SetKey(m, k, v)[i].0;
      if key != k {
        var j :| 0 <= j < |m[1..]| && m[1..][j].0 == key;
        assert m[j + 1].0 == key;
      }
    } else if |m| > 0 && m[0].0 == k && i > 0 {
      assert m[i].0 == SetKey(m, k, v)[i].0;
    }
  }

  /** So setting a key keeps a dict a dict. */
  lemma {:induction false} SetKeyUnique(m: Metadata, k: string, v: Value)
    requires UniqueKeys(m)
    ensures UniqueKeys(SetKey(m, k, v))
  {
    if |m| > 0 && m[0].0 != k {
      var r := SetKey(m, k, v);
      var tail := SetKey(m[1..], k, v);
      SetKeyUnique(m[1..], k, v);
      assert r == [m[0]] + tail;
      forall i | 0 < i < |r|
        ensures r[0].0 != r[i].0
      {
        SetKeyKeys(m[1..], k, v, i - 1);
        if tail[i - 1].0 != k {
          var j :| 0 <= j < |m[1..]| && m[1..][j].0 == tail[i - 1].0;
          assert m[j + 1].0 == r[i].0;
        }
      }
    }
  }

  /** `m.update(u)`: the pairs of `u` set one after the other. */
  function Update(m: Metadata, u: Metadata): (r: Metadata)
    decreases |u|
  {
    if |u| == 0 then m else Update(SetKey(m, u[0].0, u[0].1), u[1..])
  }

  /** After `m.update(u)` with distinct keys in `u`, a key of `u` holds its
      value there and every other key is as before. */
  lemma {:induction false} UpdateGet(m: Metadata, u: Metadata, k: string)
    requires UniqueKeys(u)
    ensures Get(Update(m, u), k) == if HasKey(u, k) then Get(u, k) else Get(m, k)
    decreases |u|
  {
    if |u| > 0 {
      var rest := u[1..];
      assert UniqueKeys(rest);
      UpdateGet(SetKey(m, u[0].0, u[0].1), rest, k);
      SetKeyOthers(m, u[0].0, u[0].1);
      if k == u[0].0 {
        assert !HasKey(rest, k);
      } else if HasKey(u, k) {
        var i :| 0 <= i < |u| && u[i].0 == k;
        assert rest[i - 1].0 == k;
      }
    }
  }

  lemma {:induction false} UpdateUnique(m: Metadata, u: Metadata)
    requires UniqueKeys(m)
    ensures UniqueKeys(Update(m, u))
    decreases |u|
  {
    if |u| > 0 {
      SetKeyUnique(m, u[0].0, u[0].1);
      UpdateUnique(SetKey(m, u[0].0, u[0].1), u[1..]);
    }
  }

  /** `del m[k]` on a key that is present (otherwise Python raises KeyError). */
  function RemoveKey(m: Metadata, k: string): Metadata
  {
    if |m| == 0 then []
    else if m[0].0 == k then m[1..]
    else [m[0]] + RemoveKey(m[1..], k)
  }

  /** After `del m[k]` on a dict the key is gone and every other key is as
      before. */
  lemma {:induction false} RemoveKeyGet(m: Metadata, k: string, k': string)
    requires UniqueKeys(m)
    ensures Get(RemoveKey(m, k), k') == if k' == k then None else Get(m, k')
  {
    if |m| > 0 {
      var tail := m[1..];
      assert UniqueKeys(tail);
      if m[0].0 == k {
        forall j | 0 <= j < |tail| ensures tail[j].0 != k {
          assert tail[j] == m[j + 1];
        }
      } else {
        RemoveKeyGet(tail, k, k');
      }
    }
  }

  /** A LangChain `Document`: its text and its metadata. */
  datatype Document = Document(pageContent: string, metadata: Metadata)

  /** Python dicts never hold a key twice. */
  predicate UniqueKeys(m: Metadata)
  {
    forall i, j :: 0 <= i < j < |m| ==> m[i].0 != m[j].0
  }
}
