# Settings-Base in Dafny

A model of the Snooful settings base: a namespaced, in-memory settings cache.
It maps a namespace (originally a subreddit name) to a section, and a section
maps a setting key to a value. A `SettingsManager` owns the cache. Its `set`
and `clear` write one entry, creating the namespace's section first when it is
missing, and then answer whatever the persistence hook `update` answers. `get`
reads one entry. A wrapper binds one namespace to a manager and forwards the
three calls. The base hooks `init` and `update` do nothing and answer `false`.
Persistence backends are meant to override them.

The repository ships two versions of the manager, and both are modelled:

- `index.js` (module `LegacySettings`): the constructor calls `init`. The
  wrapper is an object of arrow functions plus a `manager` property. There is
  also a deprecated alias, `subredditWrapper`.
- `src/index.js` and `src/wrapper.js` (module `Settings`): the constructor does
  not call `init`. `createWrapper` returns a `SettingsWrapper` object holding a
  `namespace` and a `manager`. The two files share one Dafny module because each
  refers to the other.

Shared by both versions:

- `SettingsCache` holds the cache as a value. JavaScript `undefined` is
  `Value.Undefined` and any real payload is `Defined(p)`. The module also has
  the three things the managers do to the cache: `Lookup` (what `get` yields),
  `EnsureSection` (the lazy creation of a section) and `Write` (what `set` and
  `clear` leave behind).
- `Replay` runs sequences of manager calls and wrapper calls against that value.
  It proves the properties that are about many calls in a row.

Every `Set`, `Clear` and `Get` method, in both manager classes and both wrapper
classes, is proved against `Write` and `Lookup`. The lemmas in `SettingsCache`
and `Replay` then state what those functions mean.

No method of its own creates a section: `set` and `clear` do it inline
(`EnsureSection` names that step). Only `index.js` calls `init` from its
constructor; `src/index.js` does not.

## Model

| member | source | states |
|---|---|---|
| `SettingsCache.EnsureSection` | index.js:51-54 | after it, the namespace has a section; a missing one is created empty, and every existing section (that namespace's included) is kept as it was |
| `SettingsCache.Write` | index.js:49-57 | after writing `(n, k)`: `n` has a section and `k` is in it with the new value; a missing section becomes exactly `{k: v}`; every other key of `n` and every other namespace keeps its value; no other namespace or key appears |
| `SettingsCache.Lookup` | index.js:86-92 | a read yields the value stored under the key in the namespace's section, and `undefined` when the namespace has no section or its section lacks the key |
| `SettingsCache.EnsureSectionIdempotent` | index.js:51-54 | creating a section twice is the same as creating it once; afterwards the section exists |
| `SettingsCache.ReadAfterWrite` | index.js:57 | a read of `(n, k)` right after writing `v` there yields `v` |
| `SettingsCache.ReadOtherAfterWrite` | index.js:49-78 | a write to `(n, k)` leaves the read of every other entry `(m, j)` unchanged |
| `SettingsCache.ClearKeepsKey` | index.js:67-78 | clearing leaves the key present in the section with value `undefined`, and a read yields `undefined`, whether or not the key was ever set |
| `SettingsCache.LookupWithoutSection` | index.js:86-92 | a namespace with no section reads as `undefined` under every key |
| `SettingsCache.BaseUpdate` | index.js:38-41 | the base persistence hook answers `false`; every `Update`, `Set` and `Clear` method answers it by name |
| `Replay.Step` | index.js:49-92 | one manager call: a set or clear leaves the cache its write produces and answers `false`; a get leaves the cache as it was and answers the value read |
| `Replay.BoundStep` | src/wrapper.js:24-44 | one wrapper call gives the same cache and answer as the manager call it forwards to |
| `Replay.Bind` | src/wrapper.js:24-44 | the forwarded call has the bound namespace and the same key; a set stays a set with the same value, and only sets and clears write into the bound namespace |
| `Replay.ReadIsLastWrite` | index.js:49-92 | after any sequence of set/clear/get calls, a read of `(n, k)` yields what the last set or clear of `(n, k)` stored, or the earlier value when none did |
| `Replay.ReadsLeaveCache` | index.js:86-92 | any number of `get` calls leaves the cache exactly as it was |
| `Replay.SectionExistsIffTouched` | index.js:51-54 | after a sequence of calls, a namespace has a section if and only if it had one before or some set or clear in the sequence named it; reads never create one |
| `Replay.UntouchedNamespaceUnchanged` | index.js:49-78 | a sequence of calls with no set or clear on namespace `n` leaves `n`'s section, or its absence, unchanged |
| `Replay.SetUndefinedIsClear` | index.js:57 | `set(n, k, undefined)` has the same effect and answer as `clear(n, k)` |
| `Replay.BoundRunIsManagerRun` | src/wrapper.js:24-44 | any sequence of wrapper calls on a wrapper bound to `n` gives the same cache and the same answers as the manager called with `n` prepended |
| `Replay.BoundRunConfined` | src/wrapper.js:24-35 | any sequence of wrapper calls leaves every namespace other than the bound one as it was, its section or its absence alike |
| `Settings.SettingsManager.constructor` | src/index.js:16-21 | a new manager has an empty cache |
| `Settings.SettingsManager.Init` | src/index.js:28-31 | the base initialization hook answers `false` and changes nothing |
| `Settings.SettingsManager.Update` | src/index.js:38-41 | the base persistence hook answers `false` and changes nothing |
| `Settings.SettingsManager.Set` | src/index.js:49-60 | the new cache is the old one with `value` written at `(namespace, key)`, the section created if missing; the answer is the hook's `false`, and the write is not rolled back |
| `Settings.SettingsManager.Clear` | src/index.js:67-78 | the new cache is the old one with `undefined` written at `(namespace, key)`, the section created if missing; the answer is the hook's `false` |
| `Settings.SettingsManager.Get` | src/index.js:86-92 | answers the value under `(namespace, key)`, or `undefined` when the section or the key is missing; it modifies nothing |
| `Settings.SettingsManager.CreateWrapper` | src/index.js:99-101 | answers a new wrapper whose namespace is the argument and whose manager is this manager; the cache is unchanged |
| `Settings.SettingsWrapper.constructor` | src/wrapper.js:5-16 | the wrapper stores the namespace and the manager as given |
| `Settings.SettingsWrapper.Set` | src/wrapper.js:24-26 | same effect on the manager's cache and same answer as the manager's `Set` with the bound namespace; it modifies only the manager, so the wrapper's own fields stay as they were |
| `Settings.SettingsWrapper.Clear` | src/wrapper.js:33-35 | same effect and answer as the manager's `Clear` with the bound namespace; it modifies only the manager |
| `Settings.SettingsWrapper.Get` | src/wrapper.js:42-44 | answers what the manager's `Get` with the bound namespace answers; it modifies nothing |
| `Settings.SharedView` | src/wrapper.js:24-44 | after one wrapper writes `v`, both the manager and any other wrapper on the same manager and namespace read `v`, and every other namespace keeps its section |
| `Settings.FishScenario` | src/index.js:49-92 | on a new manager: set then get gives the value, clear then get gives `undefined`, and a namespace nobody touched gives `undefined` |
| `Settings.WrapperScenario` | src/index.js:99-101 | on a new manager, a write through a wrapper from `CreateWrapper` is read back through the manager and through the wrapper |
| `LegacySettings.SettingsManager.constructor` | index.js:14-21 | a new manager has an empty cache; `Init` runs and its answer is discarded |
| `LegacySettings.SettingsManager.Init` | index.js:28-31 | the base initialization hook answers `false` and changes nothing |
| `LegacySettings.SettingsManager.Update` | index.js:38-41 | the base persistence hook answers `false` and changes nothing |
| `LegacySettings.SettingsManager.Set` | index.js:49-60 | the new cache is the old one with `value` written at `(namespace, key)`, the section created if missing; the answer is the hook's `false` |
| `LegacySettings.SettingsManager.Clear` | index.js:67-78 | the new cache is the old one with `undefined` written at `(namespace, key)`, the section created if missing; the answer is the hook's `false` |
| `LegacySettings.SettingsManager.Get` | index.js:86-92 | answers the value under `(namespace, key)`, or `undefined` when the section or the key is missing; it modifies nothing |
| `LegacySettings.SettingsManager.CreateWrapper` | index.js:99-122 | answers a new closure object bound to the namespace and to this manager, whose `manager` property is this manager; the cache is unchanged |
| `LegacySettings.SettingsManager.SubredditWrapper` | index.js:129-131 | the deprecated alias gives the same kind of wrapper as `CreateWrapper` |
| `LegacySettings.ClosureWrapper.constructor` | index.js:100-121 | the closures capture the namespace and the manager; the `manager` property starts as that manager |
| `LegacySettings.ClosureWrapper.Set` | index.js:120 | same effect and answer as the captured manager's `Set` with the captured namespace |
| `LegacySettings.ClosureWrapper.Clear` | index.js:106 | same effect and answer as the captured manager's `Clear` with the captured namespace |
| `LegacySettings.ClosureWrapper.Get` | index.js:112 | answers what the captured manager's `Get` with the captured namespace answers |
| `LegacySettings.AliasScenario` | index.js:99-131 | a wrapper from the alias reads back what the manager wrote, and the manager reads back what the wrapper wrote |

## Left out

- Debug logging (`index.js:7-8`, `src/index.js:7-8` and the `debug(...)` calls): it is purely observational.
- The exported `extension` string (`index.js:5`, `src/index.js:5`): the core never uses it; it is only a hint for subclasses.
- Promises: `set` and `clear` are `async` in both versions. The model's `Set` and `Clear` are synchronous and return the hook's boolean. That boolean is the only thing the promise resolves to.
- Subclass overrides of `init` and `update`, that is, real persistence: no backend exists in the repository. `Set` and `Clear` call the base `Update`, so their answer is always `false`. Dynamic dispatch to an override is not modelled. The namespace argument passed to `update` is ignored by the base hook.
- Prototype names used as keys: in a plain JavaScript object, names like `__proto__` or `toString` resolve to prototype members. The model uses a Dafny `map` instead, where every string is an ordinary key.
- The truthiness test `!this.settings[namespace]`: it is modelled as "no section", which is the same thing because the cache only ever stores objects as sections.
- Construction order in `index.js`: the constructor calls `init()` before `this.settings` exists. The model assigns the cache first and calls `Init` afterwards, because Dafny cannot call a method on an object still under construction. Only a subclass override could see the difference.
- Extra arguments: `subredditWrapper` forwards all of its arguments to `createWrapper`, which reads only the first. The model's alias takes the namespace alone.
- Property reassignment from outside: JavaScript lets callers overwrite `namespace` or `manager` on a wrapper. In `Settings.SettingsWrapper` both are mutable fields, and no wrapper method writes them. In the closure object, overwriting `manager` does not redirect the closures. The model captures the namespace and the manager in constants (`boundNamespace`, `owner`), separate from the `manager` field.
- `Replay` models call sequences with the base hook only. A reply to a set or clear is therefore always `Persisted(false)`.
