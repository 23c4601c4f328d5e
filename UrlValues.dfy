/**
 * Go's url.Values (a map from query key to its list of values) as a mutable object,
 * since every Encode method of the client writes into a map its caller owns.
 */
module UrlValues {

  /** The contents of a url.Values: each key maps to its values, in order. */
  type Query = map<string, seq<string>>

  /** The values stored under key, or none (Go reads a missing key as a nil slice). */
  function ValuesOf(q: Query, key: string): seq<string> {
    if key in q then q[key] else []
  }

  /** url.Values.Get: the first value under key, or "" when there is none. */
  function First(q: Query, key: string): (v: string)
    ensures ValuesOf(q, key) != [] ==> v == ValuesOf(q, key)[0]
    ensures ValuesOf(q, key) == [] ==> v == ""
  {
    if key in q && |q[key]| > 0 then q[key][0] else ""
  }

  /** r agrees with q on every key outside keys: same presence, same values. */
  ghost predicate AgreeOutside(q: Query, r: Query, keys: set<string>) {
    forall k :: k !in keys ==> (k in q <==> k in r) && (k in q ==> q[k] == r[k])
  }

  /** r is q after `Set(key, value)` when cond holds, and q unchanged at key otherwise. */
  ghost predicate SetWhen(q: Query, r: Query, key: string, cond: bool, value: string) {
    if cond then key in r && r[key] == [value]
    else (key in q <==> key in r) && (key in q ==> q[key] == r[key])
  }

  /** The query after `if cond { q.Set(key, value) }`. */
  function SetIf(q: Query, key: string, cond: bool, value: string): (r: Query)
    ensures SetWhen(q, r, key, cond, value)
    ensures AgreeOutside(q, r, {key})
    ensures !cond ==> r == q
  {
    if cond then q[key := [value]] else q
  }

  /** Two updates in a row change at most the keys either of them may change. */
  lemma AgreeOutsideThen(q: Query, r: Query, s: Query, ks: set<string>, ls: set<string>)
    requires AgreeOutside(q, r, ks) && AgreeOutside(r, s, ls)
    ensures AgreeOutside(q, s, ks + ls)
  {
  }

  /** A conditional Set survives a later update that leaves its key alone. */
  lemma SetWhenThen(q: Query, r: Query, s: Query, key: string, cond: bool, value: string, ls: set<string>)
    requires SetWhen(q, r, key, cond, value) && AgreeOutside(r, s, ls) && key !in ls
    ensures SetWhen(q, s, key, cond, value)
  {
  }

  /** A url.Values owned by the caller and updated in place by the encoders. */
  class Values {
    var entries: Query

    constructor (initial: Query)
      ensures entries == initial
    {
      entries := initial;
    }

    /** url.Values.Set: the key now holds exactly [value]. */
    method Set(key: string, value: string)
      modifies this
      ensures entries == old(entries)[key := [value]]
    {
      entries := entries[key := [value]];
    }

    /** url.Values.Add: value is appended to whatever the key already holds. */
    method Add(key: string, value: string)
      modifies this
      ensures entries == old(entries)[key := ValuesOf(old(entries), key) + [value]]
    {
      entries := entries[key := ValuesOf(entries, key) + [value]];
    }

    /** The index assignment `v[key] = values`: the key holds exactly the given list, even an empty one. */
    method Put(key: string, values: seq<string>)
      modifies this
      ensures entries == old(entries)[key := values]
    {
      entries := entries[key := values];
    }
  }
}
