/** The older settings manager (`index.js`): its constructor runs the
    initialization hook, and its wrapper is an object of closures rather than a
    class instance. */
module LegacySettings {
  import opened SettingsCache

  /** A base settings manager whose construction calls `Init`. */
  class SettingsManager<V> {
    /** The settings cache. */
    var settings: Cache<V>

    /** A new manager starts with an empty cache. The answer of `Init` is
      discarded, as in the original constructor. */
    constructor ()
      ensures settings == map[]
    {
      settings := map[];
      new;
      var _ := Init();
    }

    /** The base initialization hook: it sets nothing up and reports failure. */
    method Init() returns (ok: bool)
      ensures !ok
    {
      ok := false;
    }

    /** The base persistence hook: it stores nothing and reports failure. */
    method Update(namespace: string) returns (ok: bool)
      ensures ok == BaseUpdate(namespace)
    {
      ok := BaseUpdate(namespace);
    }

    /** Stores `value` under `key` of `namespace`, creating the section when it
      is missing, then answers what the persistence hook answers. */
    method Set(namespace: string, key: string, value: Value<V>) returns (ok: bool)
      modifies this
      ensures settings == Write(old(settings), namespace, key, value)
      ensures ok == BaseUpdate(namespace)
    {
      if namespace !in settings {
        settings := settings[namespace := map[]];
      }
      settings := settings[namespace := settings[namespace][key := value]];
      ok := Update(namespace);
    }

    /** Stores `undefined` under `key` of `namespace`, keeping the key. */
    method Clear(namespace: string, key: string) returns (ok: bool)
      modifies this
      ensures settings == Write(old(settings), namespace, key, Undefined)
      ensures ok == BaseUpdate(namespace)
    {
      if namespace !in settings {
        settings := settings[namespace := map[]];
      }
      settings := settings[namespace := settings[namespace][key := Undefined]];
      ok := Update(namespace);
    }

    /** Reads `key` of `namespace`; `undefined` when either is missing. */
    method Get(namespace: string, key: string) returns (r: Value<V>)
      ensures r == Lookup(settings, namespace, key)
      ensures namespace !in settings ==> r == Undefined
    {
      if namespace in settings {
        r := if key in settings[namespace] then settings[namespace][key] else Undefined;
      } else {
        r := Undefined;
      }
    }

    /** The closure object for `namespace`; its `manager` property is this
      manager. */
    method CreateWrapper(namespace: string) returns (w: ClosureWrapper<V>)
      ensures fresh(w)
      ensures w.boundNamespace == namespace && w.owner == this && w.manager == this
    {
      w := new ClosureWrapper(namespace, this);
    }

    /** Deprecated alias of `CreateWrapper`. */
    method SubredditWrapper(namespace: string) returns (w: ClosureWrapper<V>)
      ensures fresh(w)
      ensures w.boundNamespace == namespace && w.owner == this && w.manager == this
    {
      w := CreateWrapper(namespace);
    }
  }

  /** The object `createWrapper` returns. Its three arrow functions capture the
      namespace argument and the manager they were created on (`boundNamespace`
      and `owner`); `manager` is an ordinary property that starts as that same
      manager. Reassigning `manager` would not redirect the closures. */
  class ClosureWrapper<V> {
    const boundNamespace: string
    const owner: SettingsManager<V>
    var manager: SettingsManager<V>

    constructor (namespace: string, owner: SettingsManager<V>)
      ensures boundNamespace == namespace && this.owner == owner && manager == owner
    {
      boundNamespace := namespace;
      this.owner := owner;
      manager := owner;
    }

    /** Same effect and answer as `owner.Set(boundNamespace, key, value)`. */
    method Set(key: string, value: Value<V>) returns (ok: bool)
      modifies owner
      ensures owner.settings == Write(old(owner.settings), boundNamespace, key, value)
      ensures ok == BaseUpdate(boundNamespace)
    {
      ok := owner.Set(boundNamespace, key, value);
    }

    /** Same effect and answer as `owner.Clear(boundNamespace, key)`. */
    method Clear(key: string) returns (ok: bool)
      modifies owner
      ensures owner.settings == Write(old(owner.settings), boundNamespace, key, Undefined)
      ensures ok == BaseUpdate(boundNamespace)
    {
      ok := owner.Clear(boundNamespace, key);
    }

    /** The answer of `owner.Get(boundNamespace, key)`. */
    method Get(key: string) returns (r: Value<V>)
      ensures r == Lookup(owner.settings, boundNamespace, key)
    {
      r := owner.Get(boundNamespace, key);
    }
  }

  /** The alias yields a wrapper that reads back what the manager wrote, and
      whose writes the manager reads back. */
  method AliasScenario() returns (viaAlias: Value<string>, viaManager: Value<string>)
    ensures viaAlias == Defined("red") && viaManager == Defined("blue")
  {
    var m := new SettingsManager<string>();
    var w := m.SubredditWrapper("fish");
    var _ := m.Set("fish", "color", Defined("red"));
    viaAlias := w.Get("color");
    var _ := w.Set("color", Defined("blue"));
    viaManager := m.Get("fish", "color");
  }
}
