/**
  The per-client temp-data store the middleware reads and writes.

  It follows the temp-data discipline of the host framework: a value written
  in one request survives until a request reads it, and the Save at the end
  of that request drops it. Entries read in the current request are tracked
  by the set of keys still "live"; Save keeps exactly the live entries and
  hands them to the provider (the client's cookie), and the next request
  loads what was saved with every entry live again.
*/
module TempData {
  import opened Wrappers

  /** A stored value; `None` is a null reference stored under a key. */
  type Value = Option<string>

  /** The abstract state of one client's temp data during a request. */
  datatype StoreState = StoreState(
    data: map<string, Value>,   // the entries this request sees
    live: set<string>,          // keys not read in this request: the next Save keeps them
    saved: map<string, Value>,  // what the last Save handed to the provider
    saveCount: nat)             // how many times Save has been called
  {
    /** Only entries that exist can be live. */
    predicate Valid() {
      live <= data.Keys
    }
  }

  /** The entries of `data` whose keys are in `keep`. */
  function Retained(data: map<string, Value>, keep: set<string>): (r: map<string, Value>)
    ensures r.Keys == data.Keys * keep
    ensures forall k :: k in r ==> r[k] == data[k]
  {
    map k | k in data && k in keep :: data[k]
  }

  /** A new request: the dictionary is loaded from what the provider saved, every entry live. */
  function Load(s: StoreState): (r: StoreState)
    ensures r.Valid()
    ensures r.data == s.saved && r.live == r.data.Keys
    ensures r.saved == s.saved && r.saveCount == s.saveCount
  {
    s.(data := s.saved, live := s.saved.Keys)
  }

  /** `tempData[key] = value`: the entry is written, replacing any earlier value, and kept live. */
  function Write(s: StoreState, key: string, value: Value): (r: StoreState)
    requires s.Valid()
    ensures r.Valid()
    ensures key in r.data && r.data[key] == value && key in r.live
    ensures forall k :: k != key ==> (k in r.data <==> k in s.data) && (k in r.live <==> k in s.live)
    ensures forall k :: k != key && k in s.data ==> r.data[k] == s.data[k]
    ensures r.saved == s.saved && r.saveCount == s.saveCount
  {
    s.(data := s.data[key := value], live := s.live + {key})
  }

  /**
    `TryGetValue(key, out value)`: the entry's value if there is one. The key
    is marked read whether or not it is present, so the next Save drops it.
  */
  function TryGet(s: StoreState, key: string): (r: (Option<Value>, StoreState))
    requires s.Valid()
    ensures r.1.Valid()
    ensures r.0.Some? <==> key in s.data
    ensures r.0.Some? ==> r.0.value == s.data[key]
    ensures r.1.live == s.live - {key} && r.1.data == s.data && r.1.saved == s.saved && r.1.saveCount == s.saveCount
  {
    (if key in s.data then Some(s.data[key]) else None, s.(live := s.live - {key}))
  }

  /** `Save()`: drop every entry read in this request and hand the rest to the provider. */
  function Persist(s: StoreState): (r: StoreState)
    requires s.Valid()
    ensures r.Valid()
    ensures r.data == r.saved && r.live == r.data.Keys
    ensures r.saveCount == s.saveCount + 1
    ensures forall k :: k in r.data <==> k in s.live
    ensures forall k :: k in r.data ==> r.data[k] == s.data[k]
  {
    var kept := Retained(s.data, s.live);
    s.(data := kept, saved := kept, saveCount := s.saveCount + 1)
  }

  /** What a Save leaves is exactly what the next request loads. */
  lemma SaveThenLoad(s: StoreState)
    requires s.Valid()
    ensures Load(Persist(s)) == Persist(s)
  {
  }

  /** A written value is seen by the next request, and the Save after that read drops it. */
  lemma WrittenValueIsReadOnce(s: StoreState, key: string, value: Value)
    requires s.Valid()
    ensures var next := Load(Persist(Write(s, key, value)));
            var read := TryGet(next, key);
            read.0 == Some(value) && key !in Persist(read.1).saved
  {
  }

  /** The store of one client, updated in place by the middleware and the host. */
  class TempDataDictionary {
    var data: map<string, Value>
    var live: set<string>
    var saved: map<string, Value>
    var saveCount: nat

    /** The abstract value of this dictionary. */
    function State(): StoreState
      reads this
    {
      StoreState(data, live, saved, saveCount)
    }

    /** The dictionary of a client whose provider holds `cookie`, loaded at the start of a request. */
    constructor (cookie: map<string, Value>)
      ensures State() == Load(StoreState(map[], {}, cookie, 0))
    {
      data, live, saved, saveCount := cookie, cookie.Keys, cookie, 0;
    }

    /** The next request of the same client: the dictionary is reloaded from the provider. */
    method BeginRequest()
      modifies this
      ensures State() == Load(old(State()))
    {
      data := saved;
      live := saved.Keys;
    }

    /** `this[key] = value` */
    method Set(key: string, value: Value)
      requires State().Valid()
      modifies this
      ensures State() == Write(old(State()), key, value)
    {
      data := data[key := value];
      live := live + {key};
    }

    /** `TryGetValue(key, out value)`; `value` is null when the key is absent. */
    method TryGetValue(key: string) returns (found: bool, value: Value)
      requires State().Valid()
      modifies this
      ensures State() == TryGet(old(State()), key).1
      ensures found == TryGet(old(State()), key).0.Some?
      ensures value == if found then TryGet(old(State()), key).0.value else None
    {
      live := live - {key};
      found := key in data;
      value := if found then data[key] else None;
    }

    /** `Save()` */
    method Save()
      requires State().Valid()
      modifies this
      ensures State() == Persist(old(State()))
    {
      data := Retained(data, live);
      saved := data;
      saveCount := saveCount + 1;
    }
  }
}
