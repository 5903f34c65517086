/** The request payload as the handler sees it: a plain JavaScript object whose
    own keys are enumerated in a fixed order and whose values are text or
    null/undefined. */
module JsObjects {

  datatype Option<+T> = None | Some(value: T)

  /** A field value: text, or None for null and undefined (the two are treated
      alike everywhere in the handler). */
  type Value = Option<string>

  /** JavaScript truthiness of a field value: present and not the empty string. */
  predicate Truthy(v: Value) {
    v.Some? && v.value != ""
  }

  predicate NoDuplicates(s: seq<string>) {
    forall i, j :: 0 <= i < j < |s| ==> s[i] != s[j]
  }

  /** An object: its own keys in enumeration order (what `Object.keys` returns)
      and the value stored under each key. */
  datatype JsObject = JsObject(keys: seq<string>, values: map<string, Value>) {
    predicate Valid() {
      && NoDuplicates(keys)
      && (forall k :: k in values ==> k in keys)
      && (forall k :: k in keys ==> k in values)
    }
  }

  /** Every object the handler works with has each key once, and a value for
      exactly its keys. */
  type Payload = o: JsObject | o.Valid() witness JsObject([], map[])

  const Empty: Payload := JsObject([], map[])

  /** Property read `o.k`; an absent key reads as undefined. */
  function Get(o: Payload, k: string): Value {
    if k in o.values then o.values[k] else None
  }

  /** Two objects with the same key order that read the same under every key
      are the same object. */
  lemma SameFields(a: Payload, b: Payload)
    requires a.keys == b.keys
    requires forall k :: Get(a, k) == Get(b, k)
    ensures a == b
  {
    forall k | k in a.values
      ensures k in b.values && a.values[k] == b.values[k]
    {
      assert Get(a, k) == Get(b, k);
    }
    assert a.values == b.values;
  }

  /** Property assignment `o.k = v`: an existing key keeps its place in the key
      order, a new key is enumerated last. */
  function Put(o: Payload, k: string, v: Value): (r: Payload)
    ensures r.keys == if k in o.keys then o.keys else o.keys + [k]
    ensures Get(r, k) == v
    ensures forall k' :: k' != k ==> Get(r, k') == Get(o, k')
  {
    if k in o.values then
      JsObject(o.keys, o.values[k := v])
    else
      assert forall i :: 0 <= i < |o.keys| ==> o.keys[i] in o.keys;
      JsObject(o.keys + [k], o.values[k := v])
  }

  /** The elements of s that are not in ks, in their order in s. */
  function FilterOut(s: seq<string>, ks: set<string>): (r: seq<string>)
    ensures |r| <= |s|
  {
    if s == [] then []
    else FilterOut(s[..|s| - 1], ks) + (if s[|s| - 1] in ks then [] else [s[|s| - 1]])
  }

  /** Filtering keeps exactly the elements outside ks. */
  lemma {:induction false} FilterOutMembers(s: seq<string>, ks: set<string>)
    ensures forall k :: k in FilterOut(s, ks) <==> k in s && k !in ks
  {
    if s != [] {
      var init, last := s[..|s| - 1], s[|s| - 1];
      FilterOutMembers(init, ks);
      assert s == init + [last];
    }
  }

  /** Filtering an object's key list cannot introduce a duplicate key. */
  lemma {:induction false} FilterOutNoDuplicates(s: seq<string>, ks: set<string>)
    requires NoDuplicates(s)
    ensures NoDuplicates(FilterOut(s, ks))
  {
    if s != [] {
      var init, last := s[..|s| - 1], s[|s| - 1];
      assert s == init + [last];
      assert last !in init;
      FilterOutNoDuplicates(init, ks);
      FilterOutMembers(init, ks);
    }
  }

  /** `delete o.k` for every k in ks: the remaining keys keep their relative
      order. */
  function Without(o: Payload, ks: set<string>): (r: Payload)
    ensures r.keys == FilterOut(o.keys, ks)
    ensures forall k :: Get(r, k) == if k in ks then None else Get(o, k)
  {
    FilterOutMembers(o.keys, ks);
    FilterOutNoDuplicates(o.keys, ks);
    JsObject(FilterOut(o.keys, ks), o.values - ks)
  }

  /** Deleting one set of keys and then another is deleting both at once. */
  lemma {:induction false} FilterOutTwice(s: seq<string>, a: set<string>, b: set<string>)
    ensures FilterOut(FilterOut(s, a), b) == FilterOut(s, a + b)
    decreases |s|
  {
    if s != [] {
      var init, last := s[..|s| - 1], s[|s| - 1];
      FilterOutTwice(init, a, b);
      var t := FilterOut(init, a);
      if last !in a {
        assert FilterOut(s, a) == t + [last];
        assert (t + [last])[..|t + [last]| - 1] == t;
        assert FilterOut(t + [last], b) == FilterOut(t, b) + (if last in b then [] else [last]);
        assert FilterOut(s, a + b) == FilterOut(init, a + b) + (if last in b then [] else [last]);
      } else {
        assert FilterOut(s, a) == t;
        assert FilterOut(s, a + b) == FilterOut(init, a + b);
      }
    }
  }

  lemma WithoutTwice(o: Payload, a: set<string>, b: set<string>)
    ensures Without(Without(o, a), b) == Without(o, a + b)
  {
    FilterOutTwice(o.keys, a, b);
    assert (o.values - a) - b == o.values - (a + b);
  }

  /** Filtering a prefix gives a prefix of the filtered whole. */
  lemma {:induction false} FilterOutPrefix(s: seq<string>, ks: set<string>, i: nat, j: nat)
    requires i <= j <= |s|
    ensures FilterOut(s[..i], ks) <= FilterOut(s[..j], ks)
    decreases j - i
  {
    if i < j {
      FilterOutPrefix(s, ks, i, j - 1);
      assert s[..j][..j - 1] == s[..j - 1];
    }
  }

  /** A kept element of s sits in the filtered sequence right after the kept
      elements that precede it in s. */
  lemma FilterOutPosition(s: seq<string>, ks: set<string>, i: nat)
    requires i < |s| && s[i] !in ks
    ensures |FilterOut(s[..i], ks)| < |FilterOut(s, ks)|
    ensures FilterOut(s, ks)[|FilterOut(s[..i], ks)|] == s[i]
  {
    FilterOutPrefix(s, ks, i + 1, |s|);
    assert s[..i + 1][..i] == s[..i];
    assert s[..|s|] == s;
  }

  /** Filtering keeps the relative order of the elements it keeps: the
      positions a and b where s[i] and s[j] land are in the same order. */
  lemma FilterOutKeepsOrder(s: seq<string>, ks: set<string>, i: nat, j: nat) returns (a: nat, b: nat)
    requires i < j < |s| && s[i] !in ks && s[j] !in ks
    ensures a < b < |FilterOut(s, ks)|
    ensures FilterOut(s, ks)[a] == s[i] && FilterOut(s, ks)[b] == s[j]
  {
    FilterOutPosition(s, ks, i);
    FilterOutPosition(s, ks, j);
    FilterOutPrefix(s, ks, i + 1, j);
    assert s[..i + 1][..i] == s[..i];
    a, b := |FilterOut(s[..i], ks)|, |FilterOut(s[..j], ks)|;
  }
}
