/** Ordered association lists with string keys: the own enumerable properties
    of a JavaScript object, in insertion order (which is the order
    `Object.keys`, `Object.entries` and object spread walk them). */
module Assoc {
  import opened Wrappers

  type Assoc<V> = seq<(string, V)>

  function Keys<V>(p: Assoc<V>): seq<string>
  {
    if |p| == 0 then [] else [p[0].0] + Keys(p[1..])
  }

  lemma {:induction false} KeysIndex<V>(p: Assoc<V>)
    ensures |Keys(p)| == |p|
    ensures forall i :: 0 <= i < |p| ==> Keys(p)[i] == p[i].0
  {
    if |p| > 0 {
      KeysIndex(p[1..]);
    }
  }

  /** A JavaScript object never holds the same property twice. */
  predicate UniqueKeys<V>(p: Assoc<V>)
  {
    forall i, j :: 0 <= i < j < |p| ==> p[i].0 != p[j].0
  }

  /** Property read `o[k]`; `None` stands for `undefined`. */
  function Lookup<V>(p: Assoc<V>, k: string): (r: Option<V>)
    ensures r.None? <==> k !in Keys(p)
    ensures r.Some? ==> (k, r.value) in p
  {
    if |p| == 0 then None
    else if p[0].0 == k then Some(p[0].1)
    else Lookup(p[1..], k)
  }

  lemma {:induction false} LookupAt<V>(p: Assoc<V>, i: nat)
    requires UniqueKeys(p) && i < |p|
    ensures Lookup(p, p[i].0) == Some(p[i].1)
  {
    if i > 0 {
      assert p[0].0 != p[i].0;
      LookupAt(p[1..], i - 1);
    }
  }

  /** The keys of `ks` that are not yet in `existing`, in the order of `ks`. */
  function NewKeys(ks: seq<string>, existing: seq<string>): seq<string>
  {
    if |ks| == 0 then []
    else (if ks[0] in existing then [] else [ks[0]]) + NewKeys(ks[1..], existing)
  }

  lemma NewKeysCons(k: string, ks: seq<string>, existing: seq<string>)
    ensures NewKeys([k] + ks, existing) == (if k in existing then [] else [k]) + NewKeys(ks, existing)
  {
    assert ([k] + ks)[1..] == ks;
  }

  lemma {:induction false} NewKeysSkips(ks: seq<string>, existing: seq<string>, k: string)
    requires k !in ks
    ensures NewKeys(ks, existing + [k]) == NewKeys(ks, existing)
  {
    if |ks| > 0 {
      NewKeysSkips(ks[1..], existing, k);
    }
  }

  lemma KeysCons<V>(x: (string, V), p: Assoc<V>)
    ensures Keys([x] + p) == [x.0] + Keys(p)
  {
    assert ([x] + p)[1..] == p;
  }

  lemma LookupCons<V>(x: (string, V), p: Assoc<V>, k: string)
    ensures Lookup([x] + p, k) == if x.0 == k then Some(x.1) else Lookup(p, k)
  {
    assert ([x] + p)[1..] == p;
  }

  /** Property assignment `o[k] = v`: an existing property keeps its position
      and takes the new value, a new property is appended. */
  function Put<V>(p: Assoc<V>, k: string, v: V): (r: Assoc<V>)
    ensures Keys(r) == if k in Keys(p) then Keys(p) else Keys(p) + [k]
    ensures k !in Keys(p) ==> r == p + [(k, v)]
    ensures forall k' :: Lookup(r, k') == if k' == k then Some(v) else Lookup(p, k')
  {
    if |p| == 0 then [(k, v)]
    else if p[0].0 == k then
      var r := [(k, v)] + p[1..];
      assert p == [p[0]] + p[1..];
      KeysCons((k, v), p[1..]);
      KeysCons(p[0], p[1..]);
      LookupsCons((k, v), p[1..]);
      LookupsCons(p[0], p[1..]);
      r
    else
      var rest := Put(p[1..], k, v);
      assert p == [p[0]] + p[1..];
      KeysCons(p[0], p[1..]);
      KeysCons(p[0], rest);
      LookupsCons(p[0], p[1..]);
      LookupsCons(p[0], rest);
      [p[0]] + rest
  }

  lemma LookupsCons<V>(x: (string, V), p: Assoc<V>)
    ensures forall k :: Lookup([x] + p, k) == if x.0 == k then Some(x.1) else Lookup(p, k)
  {
    forall k ensures Lookup([x] + p, k) == if x.0 == k then Some(x.1) else Lookup(p, k) {
      LookupCons(x, p, k);
    }
  }

  lemma {:induction false} PutUnique<V>(p: Assoc<V>, k: string, v: V)
    requires UniqueKeys(p)
    ensures UniqueKeys(Put(p, k, v))
  {
    var r := Put(p, k, v);
    var ks := Keys(r);
    KeysIndex(r);
    KeysIndex(p);
    if k in Keys(p) {
      assert ks == Keys(p);
    } else {
      assert ks == Keys(p) + [k];
    }
  }

  /** Object spread of `s` onto `t` (`{...t, ...s}`): the properties of `s`
      are assigned to `t` one by one, in their order. On a shared key the
      value of `s` wins and the key keeps its place in `t`; the other keys of
      `s` are appended. */
  function Assign<V>(t: Assoc<V>, s: Assoc<V>): Assoc<V>
    decreases |s|
  {
    if |s| == 0 then t else Assign(Put(t, s[0].0, s[0].1), s[1..])
  }

  lemma {:induction false} AssignUnique<V>(t: Assoc<V>, s: Assoc<V>)
    requires UniqueKeys(t)
    ensures UniqueKeys(Assign(t, s))
    decreases |s|
  {
    if |s| > 0 {
      PutUnique(t, s[0].0, s[0].1);
      AssignUnique(Put(t, s[0].0, s[0].1), s[1..]);
    }
  }

  /** Spreading keeps the target's keys in place and appends the new ones. */
  lemma {:induction false} AssignKeys<V>(t: Assoc<V>, s: Assoc<V>)
    requires UniqueKeys(s)
    ensures Keys(Assign(t, s)) == Keys(t) + NewKeys(Keys(s), Keys(t))
    decreases |s|
  {
    if |s| > 0 {
      var t' := Put(t, s[0].0, s[0].1);
      AssignStep(t, s);
      AssignKeys(t', s[1..]);
      NewKeysCons(s[0].0, Keys(s[1..]), Keys(t));
      var k0, rest, kt := s[0].0, NewKeys(Keys(s[1..]), Keys(t)), Keys(t);
      var added := if k0 in kt then [] else [k0];
      assert Keys(Assign(t, s)) == (kt + added) + rest;
      SeqAssoc(kt, added, rest);
    }
  }

  /** On a shared key the spread source wins; other keys read through. */
  lemma {:induction false} AssignLookup<V>(t: Assoc<V>, s: Assoc<V>, k: string)
    requires UniqueKeys(s)
    ensures Lookup(Assign(t, s), k) == if k in Keys(s) then Lookup(s, k) else Lookup(t, k)
    decreases |s|
  {
    if |s| > 0 {
      var t' := Put(t, s[0].0, s[0].1);
      AssignStep(t, s);
      AssignLookup(t', s[1..], k);
      assert s == [s[0]] + s[1..];
      LookupCons(s[0], s[1..], k);
    }
  }

  /** The facts about one step of `Assign` that carry a property from
      `s[1..]` to `s`. */
  lemma AssignStep<V>(t: Assoc<V>, s: Assoc<V>)
    requires |s| > 0
    ensures Keys(s) == [s[0].0] + Keys(s[1..])
    ensures UniqueKeys(s) ==> UniqueKeys(s[1..]) && s[0].0 !in Keys(s[1..])
    ensures UniqueKeys(s) ==>
      NewKeys(Keys(s[1..]), Keys(Put(t, s[0].0, s[0].1))) == NewKeys(Keys(s[1..]), Keys(t))
  {
    assert s == [s[0]] + s[1..];
    KeysCons(s[0], s[1..]);
    if UniqueKeys(s) {
      TailUnique(s);
      KeysIndex(s[1..]);
      forall i | 0 <= i < |s[1..]| ensures Keys(s[1..])[i] != s[0].0 {
        assert s[1..][i] == s[i + 1];
      }
      if s[0].0 !in Keys(t) {
        NewKeysSkips(Keys(s[1..]), Keys(t), s[0].0);
      }
    }
  }

  lemma SeqAssoc<T>(a: seq<T>, b: seq<T>, c: seq<T>)
    ensures (a + b) + c == a + (b + c)
  {
  }

  lemma TailUnique<V>(s: Assoc<V>)
    requires UniqueKeys(s) && |s| > 0
    ensures UniqueKeys(s[1..])
  {
    forall i, j | 0 <= i < j < |s[1..]| ensures s[1..][i].0 != s[1..][j].0 {
      assert s[1..][i] == s[i + 1] && s[1..][j] == s[j + 1];
    }
  }

  /** Spreading a list whose keys are all new onto `t` appends it. */
  lemma {:induction false} AssignFresh<V>(t: Assoc<V>, s: Assoc<V>)
    requires UniqueKeys(s)
    requires forall i :: 0 <= i < |s| ==> s[i].0 !in Keys(t)
    ensures Assign(t, s) == t + s
    decreases |s|
  {
    if |s| > 0 {
      var t' := Put(t, s[0].0, s[0].1);
      assert t' == t + [s[0]];
      assert Keys(t') == Keys(t) + [s[0].0];
      forall i | 0 <= i < |s[1..]| ensures s[1..][i].0 !in Keys(t') {
        assert s[1..][i] == s[i + 1];
        assert s[i + 1].0 != s[0].0;
        assert s[i + 1].0 !in Keys(t);
      }
      TailUnique(s);
      AssignFresh(t', s[1..]);
      assert Assign(t, s) == (t + [s[0]]) + s[1..];
      SeqAssoc(t, [s[0]], s[1..]);
      assert [s[0]] + s[1..] == s;
    }
  }

  /** The plain map an association list denotes. */
  function ToMap<V>(p: Assoc<V>): (m: map<string, V>)
    ensures forall k :: k in m <==> k in Keys(p)
    ensures forall k :: k in m ==> Lookup(p, k) == Some(m[k])
  {
    map k | k in Keys(p) :: Lookup(p, k).value
  }

  /** Object spread agrees with right-biased map union: ordered spread is
      map union plus a key order. */
  lemma AssignIsMapUnion<V>(t: Assoc<V>, s: Assoc<V>)
    requires UniqueKeys(s)
    ensures ToMap(Assign(t, s)) == ToMap(t) + ToMap(s)
  {
    var r := Assign(t, s);
    var lhs, rhs := ToMap(r), ToMap(t) + ToMap(s);
    forall k ensures k in lhs <==> k in rhs {
      AssignLookup(t, s, k);
    }
    forall k | k in lhs ensures lhs[k] == rhs[k] {
      AssignLookup(t, s, k);
    }
  }
}
