/**
 * JSON values and JavaScript plain objects. An object is its list of
 * entries in insertion order, which is the order `Object.entries` and
 * `for..in` visit for keys that are not integer-like; a property write replaces an existing entry in place
 * and appends a new one.
 */
module Json {
  import opened Wrappers

  datatype Json =
    | JNull
    | JBool(b: bool)
    | JNum(n: int)
    | JStr(s: string)
    | JArr(items: seq<Json>)
    | JObj(fields: seq<(string, Json)>)

  /** JavaScript truthiness of a present value. */
  predicate Truthy(j: Json)
  {
    match j
    case JNull => false
    case JBool(b) => b
    case JNum(n) => n != 0
    case JStr(s) => s != ""
    case _ => true
  }

  /** Truthiness of a property read, where a missing property is `undefined`. */
  predicate TruthyOpt(j: Option<Json>)
  {
    j.Some? && Truthy(j.value)
  }

  function Keys<V>(o: seq<(string, V)>): (ks: seq<string>)
    ensures |ks| == |o| && forall i :: 0 <= i < |o| ==> ks[i] == o[i].0
  {
    seq(|o|, i requires 0 <= i < |o| => o[i].0)
  }

  predicate UniqueKeys<V>(o: seq<(string, V)>)
  {
    forall i, j :: 0 <= i < j < |o| ==> o[i].0 != o[j].0
  }

  predicate HasKey<V>(o: seq<(string, V)>, k: string)
  {
    exists i :: 0 <= i < |o| && o[i].0 == k
  }

  /** `o[k]`, `undefined` when absent. */
  function Get<V>(o: seq<(string, V)>, k: string): (r: Option<V>)
    ensures r.Some? <==> HasKey(o, k)
    ensures r.Some? ==> exists i :: 0 <= i < |o| && o[i] == (k, r.value)
  {
    if |o| == 0 then None
    else if o[0].0 == k then Some(o[0].1)
    else
      var r := Get(o[1..], k);
      assert r.Some? ==> exists i :: 0 <= i < |o[1..]| && o[1..][i] == (k, r.value);
      assert HasKey(o[1..], k) ==> HasKey(o, k);
      assert HasKey(o, k) ==> HasKey(o[1..], k) by {
        if HasKey(o, k) {
          var i :| 0 <= i < |o| && o[i].0 == k;
          assert i > 0 && o[1..][i - 1].0 == k;
        }
      }
      r
  }

  /** `o[k]` when it holds an object, and the empty object otherwise. */
  function GetObject(o: seq<(string, Json)>, k: string): (r: seq<(string, Json)>)
    ensures r != [] ==> Get(o, k) == Some(JObj(r))
  {
    var v: Option<Json> := Get(o, k);
    if v.Some? && v.value.JObj? then v.value.fields else []
  }

  lemma HasKeyCons<V>(o: seq<(string, V)>, k: string)
    requires |o| > 0
    ensures HasKey(o, k) <==> o[0].0 == k || HasKey(o[1..], k)
  {
    if HasKey(o, k) && o[0].0 != k {
      var i :| 0 <= i < |o| && o[i].0 == k;
      assert o[1..][i - 1].0 == k;
    }
    if HasKey(o[1..], k) {
      var i :| 0 <= i < |o[1..]| && o[1..][i].0 == k;
      assert o[i + 1].0 == k;
    }
  }

  lemma KeysCons<V>(x: (string, V), o: seq<(string, V)>)
    ensures Keys([x] + o) == [x.0] + Keys(o)
  {
  }

  /** `o[k] = v`: replaces the entry for `k` where it stands, or appends one. */
  function Set<V>(o: seq<(string, V)>, k: string, v: V): (r: seq<(string, V)>)
    ensures |r| == if HasKey(o, k) then |o| else |o| + 1
  {
    if |o| == 0 then [(k, v)]
    else if o[0].0 == k then [(k, v)] + o[1..]
    else [o[0]] + Set(o[1..], k, v)
  }

  /** Every entry after a write is an entry from before or the written one. */
  lemma {:induction false} SetEntries<V>(o: seq<(string, V)>, k: string, v: V)
    ensures forall e :: e in Set(o, k, v) ==> e in o || e == (k, v)
  {
    if |o| > 0 {
      SetEntries(o[1..], k, v);
      assert forall e :: e in o[1..] ==> e in o;
    }
  }

  /** Writing keeps the key order; a new key goes last. */
  lemma {:induction false} SetKeys<V>(o: seq<(string, V)>, k: string, v: V)
    ensures Keys(Set(o, k, v)) == if HasKey(o, k) then Keys(o) else Keys(o) + [k]
  {
    if |o| > 0 {
      HasKeyCons(o, k);
      KeysCons(o[0], o[1..]);
      assert o == [o[0]] + o[1..];
      if o[0].0 == k {
        KeysCons((k, v), o[1..]);
      } else {
        SetKeys(o[1..], k, v);
        KeysCons(o[0], Set(o[1..], k, v));
      }
    }
  }

  /** Writing a key the object does not have appends one entry at the end. */
  lemma {:induction false} SetAbsentAppends<V>(o: seq<(string, V)>, k: string, v: V)
    requires !HasKey(o, k)
    ensures Set(o, k, v) == o + [(k, v)]
  {
    if |o| > 0 {
      forall i | 0 <= i < |o[1..]| ensures o[1..][i].0 != k {
        assert o[1..][i] == o[i + 1];
      }
      SetAbsentAppends(o[1..], k, v);
      assert o == [o[0]] + o[1..];
    }
  }

  /** `Object.assign(a, b)` and `{...a, ...b}`: b's entries written over a, in b's order. */
  function Assign<V>(a: seq<(string, V)>, b: seq<(string, V)>): seq<(string, V)>
    decreases |b|
  {
    if |b| == 0 then a else Assign(Set(a, b[0].0, b[0].1), b[1..])
  }

  lemma {:induction false} GetSetSame<V>(o: seq<(string, V)>, k: string, v: V)
    ensures Get(Set(o, k, v), k) == Some(v)
  {
    if |o| > 0 && o[0].0 != k {
      GetSetSame(o[1..], k, v);
    }
  }

  lemma {:induction false} GetSetOther<V>(o: seq<(string, V)>, k: string, v: V, k': string)
    requires k' != k
    ensures Get(Set(o, k, v), k') == Get(o, k')
  {
    if |o| > 0 && o[0].0 != k {
      GetSetOther(o[1..], k, v, k');
      assert Set(o, k, v)[1..] == Set(o[1..], k, v);
    } else if |o| > 0 {
      assert Set(o, k, v)[1..] == o[1..];
    }
  }

  /** Reading after a write: the written key gives the new value, every other key is unchanged. */
  lemma GetSet<V>(o: seq<(string, V)>, k: string, v: V, k': string)
    ensures Get(Set(o, k, v), k') == if k' == k then Some(v) else Get(o, k')
  {
    if k' == k { GetSetSame(o, k, v); } else { GetSetOther(o, k, v, k'); }
  }

  lemma SetKeepsUnique<V>(o: seq<(string, V)>, k: string, v: V)
    requires UniqueKeys(o)
    ensures UniqueKeys(Set(o, k, v))
  {
    var r := Set(o, k, v);
    var ks := Keys(r);
    SetKeys(o, k, v);
    forall i, j | 0 <= i < j < |r|
      ensures r[i].0 != r[j].0
    {
      assert r[i].0 == ks[i] && r[j].0 == ks[j];
      if j < |o| {
        assert ks[i] == Keys(o)[i] == o[i].0;
        assert ks[j] == Keys(o)[j] == o[j].0;
      } else {
        assert !HasKey(o, k) && ks[j] == k;
        assert ks[i] == o[i].0;
      }
    }
  }

  /** After `Object.assign(a, b)` a key reads from b when b has it, and from a otherwise. */
  lemma {:induction false} GetAssign<V>(a: seq<(string, V)>, b: seq<(string, V)>, k: string)
    requires UniqueKeys(b)
    ensures Get(Assign(a, b), k) == if HasKey(b, k) then Get(b, k) else Get(a, k)
    decreases |b|
  {
    if |b| > 0 {
      var a' := Set(a, b[0].0, b[0].1);
      assert UniqueKeys(b[1..]);
      GetAssign(a', b[1..], k);
      GetSet(a, b[0].0, b[0].1, k);
      if b[0].0 == k {
        assert !HasKey(b[1..], k);
      } else {
        assert HasKey(b, k) <==> HasKey(b[1..], k) by {
          if HasKey(b, k) {
            var i :| 0 <= i < |b| && b[i].0 == k;
            assert i > 0 && b[1..][i - 1].0 == k;
          }
          if HasKey(b[1..], k) {
            var i :| 0 <= i < |b[1..]| && b[1..][i].0 == k;
            assert b[i + 1].0 == k;
          }
        }
      }
    }
  }

  lemma {:induction false} AssignKeepsUnique<V>(a: seq<(string, V)>, b: seq<(string, V)>)
    requires UniqueKeys(a)
    ensures UniqueKeys(Assign(a, b))
    decreases |b|
  {
    if |b| > 0 {
      SetKeepsUnique(a, b[0].0, b[0].1);
      AssignKeepsUnique(Set(a, b[0].0, b[0].1), b[1..]);
    }
  }
}
