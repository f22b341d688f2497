// `saveLocalData` / `getLocalData`: the seen map persisted in the browser's key/value
// store under a key namespaced by the timeline id. JSON encoding is the identity
// here: a map from story ids to booleans survives `JSON.stringify`/`JSON.parse`
// unchanged.
module Storage {
  import opened Common

  /** What the library persists: story id to "seen". */
  type SeenMap = map<StoryId, bool>

  /** `window.localStorage`, shared by every timeline of the page. */
  type Store = map<string, SeenMap>

  /** `"zuck-" + id + "-" + key`. */
  function KeyName(id: string, key: string): (k: string)
    ensures |k| == 6 + |id| + |key|
    ensures k[..5] == "zuck-" && k[5 + |id|] == '-'
    ensures k[5..5 + |id|] == id && k[6 + |id|..] == key
  {
    "zuck-" + id + "-" + key
  }

  /** Within one timeline, distinct data keys never share a storage slot. */
  lemma KeyNameInjective(id: string, k1: string, k2: string)
    requires KeyName(id, k1) == KeyName(id, k2)
    ensures k1 == k2
  {
    var a, b := KeyName(id, k1), KeyName(id, k2);
    assert k1 == a[6 + |id|..] == b[6 + |id|..] == k2;
  }

  /** For one data key, distinct timelines never share a storage slot. */
  lemma KeyNameInjectiveInId(id1: string, id2: string, key: string)
    requires KeyName(id1, key) == KeyName(id2, key)
    ensures id1 == id2
  {
    var a, b := KeyName(id1, key), KeyName(id2, key);
    assert |id1| == |id2|;
    assert id1 == a[5..5 + |id1|] == b[5..5 + |id2|] == id2;
  }

  /** `saveLocalData(key, data)`: writes only when the `localStorage` option is on;
      a store that refuses the write (the `try`/`catch`) leaves everything as it was. */
  function Save(store: Store, enabled: bool, writable: bool, id: string, key: string, data: SeenMap): (r: Store)
    ensures enabled && writable ==> KeyName(id, key) in r && r[KeyName(id, key)] == data
    ensures forall k :: k != KeyName(id, key) ==> (k in r <==> k in store) && (k in r ==> r[k] == store[k])
    ensures !(enabled && writable) ==> r == store
  {
    if enabled && writable then store[KeyName(id, key) := data] else store
  }

  /** `getLocalData(key)`: the stored map, or `false` (None) when nothing is stored or
      the `localStorage` option is off. */
  function Load(store: Store, enabled: bool, id: string, key: string): (r: Option<SeenMap>)
    ensures r.Some? <==> enabled && KeyName(id, key) in store
    ensures r.Some? ==> r.value == store[KeyName(id, key)]
  {
    if enabled && KeyName(id, key) in store then Some(store[KeyName(id, key)]) else None
  }

  /** `getLocalData('seenItems') || {}`: the seen map a timeline starts with. */
  function InitialSeen(store: Store, enabled: bool, id: string): (r: SeenMap)
    ensures Load(store, enabled, id, "seenItems").Some? ==> r == Load(store, enabled, id, "seenItems").value
    ensures Load(store, enabled, id, "seenItems").None? ==> r == map[]
  {
    match Load(store, enabled, id, "seenItems")
    case Some(m) => m
    case None => map[]
  }

  /** What was saved is what is loaded back. */
  lemma SaveThenLoad(store: Store, writable: bool, id: string, key: string, data: SeenMap)
    requires writable
    ensures Load(Save(store, true, writable, id, key, data), true, id, key) == Some(data)
  {
  }

  /** Saving one key of a timeline leaves every other key of that timeline intact. */
  lemma SaveKeepsOtherKeys(store: Store, enabled: bool, writable: bool, id: string,
                           key: string, other: string, data: SeenMap)
    requires other != key
    ensures Load(Save(store, enabled, writable, id, key, data), enabled, id, other) == Load(store, enabled, id, other)
  {
    if KeyName(id, key) == KeyName(id, other) {
      KeyNameInjective(id, key, other);
    }
  }

  /** Saving under one timeline leaves the other timelines' seen maps intact. */
  lemma SaveKeepsOtherTimelines(store: Store, enabled: bool, writable: bool, id: string,
                                other: string, key: string, data: SeenMap)
    requires other != id
    ensures Load(Save(store, enabled, writable, id, key, data), enabled, other, key) == Load(store, enabled, other, key)
  {
    if KeyName(id, key) == KeyName(other, key) {
      KeyNameInjectiveInId(id, other, key);
    }
  }
}
