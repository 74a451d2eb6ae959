/** The current settings manager and its per-namespace wrapper (`src/index.js`
    and `src/wrapper.js`). They share one module because each refers to the
    other: `CreateWrapper` allocates a wrapper, and a wrapper holds a manager. */
module Settings {
  import opened SettingsCache

  /** A base settings manager: an in-memory cache plus persistence hooks that
      a backend would override; here they are the base versions. */
  class SettingsManager<V> {
    /** The settings cache. */
    var settings: Cache<V>

    /** A new manager starts with an empty cache; it does not call `Init`. */
    constructor ()
      ensures settings == map[]
    {
      settings := map[];
    }

    /** The base initialization hook: it sets nothing up and reports failure. */
    method Init() returns (ok: bool)
      ensures !ok
    {
      ok := false;
    }

    /** The base persistence hook: it stores nothing and reports failure. */
    method Update(namespace: string) returns (ok: bool)
      ensures ok == BaseUpdate(namespace)
    {
      ok := BaseUpdate(namespace);
    }

    /** Stores `value` under `key` of `namespace`, creating the section when it
      is missing, then answers what the persistence hook answers. The cache
      keeps the new value whatever that answer is. */
    method Set(namespace: string, key: string, value: Value<V>) returns (ok: bool)
      modifies this
      ensures settings == Write(old(settings), namespace, key, value)
      ensures ok == BaseUpdate(namespace)
    {
      if namespace !in settings {
        settings := settings[namespace := map[]];
      }
      settings := settings[namespace := settings[namespace][key := value]];
      ok := Update(namespace);
    }

    /** Stores `undefined` under `key` of `namespace`: the key stays in the
      section with an absent value. Answers what the persistence hook answers. */
    method Clear(namespace: string, key: string) returns (ok: bool)
      modifies this
      ensures settings == Write(old(settings), namespace, key, Undefined)
      ensures ok == BaseUpdate(namespace)
    {
      if namespace !in settings {
        settings := settings[namespace := map[]];
      }
      settings := settings[namespace := settings[namespace][key := Undefined]];
      ok := Update(namespace);
    }

    /** Reads `key` of `namespace`; `undefined` when either is missing. */
    method Get(namespace: string, key: string) returns (r: Value<V>)
      ensures r == Lookup(settings, namespace, key)
      ensures namespace !in settings ==> r == Undefined
    {
      if namespace in settings {
        r := if key in settings[namespace] then settings[namespace][key] else Undefined;
      } else {
        r := Undefined;
      }
    }

    /** A wrapper bound to `namespace` and to this manager. */
    method CreateWrapper(namespace: string) returns (w: SettingsWrapper<V>)
      ensures fresh(w)
      ensures w.namespace == namespace && w.manager == this
    {
      w := new SettingsWrapper(namespace, this);
    }
  }

  /** A view of one namespace of a manager. It has no cache of its own: every
      call goes to the manager it holds. */
  class SettingsWrapper<V> {
    /** The namespace to modify. */
    var namespace: string
    /** The settings manager. */
    var manager: SettingsManager<V>

    constructor (namespace: string, manager: SettingsManager<V>)
      ensures this.namespace == namespace && this.manager == manager
    {
      this.namespace := namespace;
      this.manager := manager;
    }

    /** Same effect and answer as `manager.Set(namespace, key, value)`. */
    method Set(key: string, value: Value<V>) returns (ok: bool)
      modifies manager
      ensures manager.settings == Write(old(manager.settings), namespace, key, value)
      ensures ok == BaseUpdate(namespace)
    {
      ok := manager.Set(namespace, key, value);
    }

    /** Same effect and answer as `manager.Clear(namespace, key)`. */
    method Clear(key: string) returns (ok: bool)
      modifies manager
      ensures manager.settings == Write(old(manager.settings), namespace, key, Undefined)
      ensures ok == BaseUpdate(namespace)
    {
      ok := manager.Clear(namespace, key);
    }

    /** The answer of `manager.Get(namespace, key)`. */
    method Get(key: string) returns (r: Value<V>)
      ensures r == Lookup(manager.settings, namespace, key)
    {
      r := manager.Get(namespace, key);
    }
  }

  /** Two wrappers on one manager and namespace see each other's writes, and so
      does the manager: nothing is cached in a wrapper. */
  method SharedView<V>(w: SettingsWrapper<V>, other: SettingsWrapper<V>, key: string, v: V)
    returns (viaManager: Value<V>, viaOther: Value<V>)
    requires other.manager == w.manager && other.namespace == w.namespace
    modifies w.manager
    ensures viaManager == Defined(v) && viaOther == Defined(v)
    ensures forall n :: n in old(w.manager.settings) && n != w.namespace ==>
              n in w.manager.settings && w.manager.settings[n] == old(w.manager.settings)[n]
  {
    var _ := w.Set(key, Defined(v));
    viaManager := w.manager.Get(w.namespace, key);
    viaOther := other.Get(key);
    ReadAfterWrite(old(w.manager.settings), w.namespace, key, Defined(v));
  }

  /** A fresh manager: write a value, clear it, and read a namespace nobody
      touched. */
  method FishScenario() returns (afterSet: Value<string>, afterClear: Value<string>,
                                 untouched: Value<string>)
    ensures afterSet == Defined("red") && afterClear == Undefined && untouched == Undefined
  {
    var m := new SettingsManager<string>();
    var _ := m.Set("fish", "color", Defined("red"));
    afterSet := m.Get("fish", "color");
    var _ := m.Clear("fish", "color");
    afterClear := m.Get("fish", "color");
    assert m.settings.Keys == {"fish"};
    untouched := m.Get("frog", "color");
  }

  /** A wrapper's write on a fresh manager is read back through the manager and
      through the wrapper. */
  method WrapperScenario() returns (viaManager: Value<string>, viaWrapper: Value<string>)
    ensures viaManager == Defined("blue") && viaWrapper == Defined("blue")
  {
    var m := new SettingsManager<string>();
    var w := m.CreateWrapper("fish");
    var _ := w.Set("color", Defined("blue"));
    viaManager := m.Get("fish", "color");
    viaWrapper := w.Get("color");
  }
}
