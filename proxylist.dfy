/** `ProxyList`: the registered client proxies by name, with an array of them
 *  in registration order from which `first()` and `random()` pick. */
module ProxyLists {
  import opened Wrappers

  predicate Distinct(s: seq<string>)
  {
    forall i, j :: 0 <= i < j < |s| ==> s[i] != s[j]
  }

  /** `[...map.values()]` for a map whose keys were inserted in `order`. */
  function ValuesInOrder<V>(order: seq<string>, m: map<string, V>): (vs: seq<V>)
    requires forall k :: k in order ==> k in m
    ensures |vs| == |order|
    ensures forall i :: 0 <= i < |order| ==> vs[i] == m[order[i]]
  {
    if order == [] then [] else [m[order[0]]] + ValuesInOrder(order[1..], m)
  }

  /** The insertion order after a key is deleted. */
  function Without(s: seq<string>, k: string): (r: seq<string>)
    ensures forall x :: x in r <==> x in s && x != k
    ensures Distinct(s) ==> Distinct(r)
  {
    if s == [] then []
    else if s[0] == k then Without(s[1..], k)
    else
      var rest := Without(s[1..], k);
      assert Distinct(s) ==> Distinct(s[1..]) && s[0] !in s[1..] && s[0] !in rest;
      [s[0]] + rest
  }

  /** Deleting a key keeps the others in their order: it only cuts the key
   *  out where it stood. */
  lemma {:induction false} WithoutCutsOut(s: seq<string>, i: nat)
    requires Distinct(s) && i < |s|
    ensures Without(s, s[i]) == s[..i] + s[i + 1..]
  {
    if i > 0 {
      WithoutCutsOut(s[1..], i - 1);
      assert s[1..][..i - 1] == s[1..i];
      assert s[1..][i..] == s[i + 1..];
      assert s[..i] == [s[0]] + s[1..i];
    } else {
      assert s[1..] == s[i + 1..];
      assert s[i] !in s[1..];
      WithoutAbsent(s[1..], s[i]);
    }
  }

  lemma {:induction false} WithoutAbsent(s: seq<string>, k: string)
    requires k !in s
    ensures Without(s, k) == s
  {
    if s != [] {
      WithoutAbsent(s[1..], k);
      assert [s[0]] + s[1..] == s;
    }
  }

  class ProxyList<V> {
    /** The JavaScript Map `this.map` is `order`, its keys in insertion order,
     *  and `entries`; `list` is the array of its values. */
    var order: seq<string>
    var entries: map<string, V>
    var list: seq<V>

    ghost predicate Valid()
      reads this
    {
      && Distinct(order)
      && (forall k :: k in order <==> k in entries)
      && list == ValuesInOrder(order, entries)
    }

    constructor ()
      ensures Valid()
      ensures order == [] && entries == map[] && list == []
    {
      order, entries, list := [], map[], [];
    }

    /** `set(key, value)`: a new key goes last, an existing one keeps its
     *  place and takes the new value; `list` is rebuilt from the map. */
    method Set(key: string, value: V)
      requires Valid()
      modifies this
      ensures Valid()
      ensures entries == old(entries)[key := value]
      ensures order == if key in old(entries) then old(order) else old(order) + [key]
    {
      if key !in entries {
        order := order + [key];
      }
      entries := entries[key := value];
      list := ValuesInOrder(order, entries);
    }

    /** `delete(key)`: the key leaves the map and the order; `list` is
     *  rebuilt from the map. Deleting an absent key changes nothing. */
    method Delete(key: string)
      requires Valid()
      modifies this
      ensures Valid()
      ensures entries == old(entries) - {key}
      ensures order == Without(old(order), key)
      ensures key !in old(entries) ==> order == old(order) && list == old(list)
    {
      if key !in entries {
        WithoutAbsent(order, key);
      }
      entries := entries - {key};
      order := Without(order, key);
      list := ValuesInOrder(order, entries);
    }

    /** `clear()`: empties the map and truncates the list. */
    method Clear()
      requires Valid()
      modifies this
      ensures Valid()
      ensures order == [] && entries == map[] && list == []
    {
      entries := map[];
      order := [];
      list := [];
    }

    /** `first()`: the earliest registered proxy still present, or false. */
    function First(): (r: Option<V>)
      reads this
      requires Valid()
      ensures r.None? <==> entries == map[]
      ensures r.Some? ==> |order| > 0 && r.value == entries[order[0]]
    {
      if |list| == 0 then
        None
      else
        assert order[0] in entries;
        Some(list[0])
    }

    /** `random()`, with the index `((list.length - 1) * Math.random() + .5) | 0`
     *  given as `pick`: some registered proxy, or false when none is. */
    function Random(pick: nat): (r: Option<V>)
      reads this
      requires Valid()
      requires list != [] ==> pick < |list|
      ensures r.None? <==> entries == map[]
      ensures r.Some? ==> exists k :: k in entries && entries[k] == r.value
    {
      if |list| == 0 then
        None
      else
        assert order[pick] in entries;
        Some(list[pick])
    }
  }
}
