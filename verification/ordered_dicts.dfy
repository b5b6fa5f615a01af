/** Python dictionaries keyed by strings, which remember the order in which
    their keys were first inserted: assigning to a present key keeps its
    place, a new key goes last, and `pop` removes a key wherever it stands. */
module OrderedDicts {

  predicate Distinct(s: seq<string>) {
    forall i, j :: 0 <= i < j < |s| ==> s[i] != s[j]
  }

  datatype Dict<V> = Dict(order: seq<string>, entries: map<string, V>) {
    /** `order` lists every key of `entries` exactly once. */
    predicate WellFormed() {
      && Distinct(order)
      && (forall k :: k in order ==> k in entries)
      && (forall k :: k in entries ==> k in order)
    }
  }

  type OrderedDict<V> = d: Dict<V> | d.WellFormed() witness Dict([], map[])

  function Empty<V>(): OrderedDict<V> {
    Dict([], map[])
  }

  /** `d[k] = v` */
  function Put<V>(d: OrderedDict<V>, k: string, v: V): (r: OrderedDict<V>)
    ensures r.entries == d.entries[k := v]
    ensures k in d.entries ==> r.order == d.order
    ensures k !in d.entries ==> r.order == d.order + [k]
  {
    if k in d.entries then Dict(d.order, d.entries[k := v])
    else Dict(d.order + [k], d.entries[k := v])
  }

  /** The keys of `s` other than `k`, in their order. */
  function Remove(s: seq<string>, k: string): (r: seq<string>)
    ensures forall x :: x in r <==> x in s && x != k
    ensures Distinct(s) ==> Distinct(r)
    ensures k !in s ==> r == s
  {
    if s == [] then []
    else if s[0] == k then Remove(s[1..], k)
    else
      var rest := Remove(s[1..], k);
      assert Distinct(s) ==> s[0] !in rest by {
        if Distinct(s) {
          assert forall j :: 0 <= j < |s[1..]| ==> s[1..][j] == s[j + 1] != s[0];
        }
      }
      [s[0]] + rest
  }

  /** In an order without duplicates, removing the key at position `i`
      keeps every other key in its place relative to the rest. */
  lemma {:induction false} RemoveAt(s: seq<string>, k: string, i: int)
    requires Distinct(s) && 0 <= i < |s| && s[i] == k
    ensures Remove(s, k) == s[..i] + s[i + 1..]
  {
    assert forall j :: 0 <= j < |s[1..]| ==> s[1..][j] == s[j + 1];
    if i == 0 {
      assert k !in s[1..];
    } else {
      assert s[0] != k;
      RemoveAt(s[1..], k, i - 1);
      assert s[..i] == [s[0]] + s[1..][..i - 1];
      assert s[i + 1..] == s[1..][i..];
    }
  }

  /** Appending `k` and then removing it leaves the other keys as they were:
      removing a key twice from an appended order is removing it once. */
  lemma {:induction false} RemoveAppended(s: seq<string>, k: string)
    ensures Remove(s + [k], k) == Remove(s, k)
  {
    if s != [] {
      assert (s + [k])[1..] == s[1..] + [k];
      RemoveAppended(s[1..], k);
    } else {
      assert Remove([k], k) == Remove([k][1..], k);
    }
  }

  /** `d.pop(k, None)` */
  function Pop<V>(d: OrderedDict<V>, k: string): (r: OrderedDict<V>)
    ensures r.entries == d.entries - {k}
    ensures r.order == Remove(d.order, k)
    ensures k !in d.entries ==> r == d
  {
    Dict(Remove(d.order, k), d.entries - {k})
  }
}
