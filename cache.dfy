/** The settings cache as a value: a table from namespace to section, and from
    setting key to value, together with the three things the managers do to it
    (look a value up, create a missing section, write one entry). */
module SettingsCache {

  /** A JavaScript value as the cache stores it: either `undefined` or a real
      payload, which the manager never interprets. */
  datatype Value<V> = Undefined | Defined(payload: V)

  /** The settings of one namespace, keyed by setting key. */
  type Section<V> = map<string, Value<V>>

  /** The whole cache, keyed by namespace. */
  type Cache<V> = map<string, Section<V>>

  /** The section of `n`, or an empty one when `n` has none yet. */
  function SectionOf<V>(c: Cache<V>, n: string): Section<V>
  {
    if n in c then c[n] else map[]
  }

  /** What a read of key `k` in namespace `n` yields: `undefined` when the
      namespace has no section or the section has no such key. */
  function Lookup<V>(c: Cache<V>, n: string, k: string): (r: Value<V>)
    ensures k in SectionOf(c, n) ==> r == SectionOf(c, n)[k]
    ensures k !in SectionOf(c, n) ==> r == Undefined
  {
    if n in c && k in c[n] then c[n][k] else Undefined
  }

  /** The base persistence hook: it stores nothing and reports failure. Both
      manager versions answer this from `set` and `clear`. */
  function BaseUpdate(n: string): (ok: bool)
    ensures !ok
  {
    false
  }

  /** Gives namespace `n` a section: an empty one when it has none, otherwise
      the cache as it was. */
  function EnsureSection<V>(c: Cache<V>, n: string): (r: Cache<V>)
    ensures r.Keys == c.Keys + {n}
    ensures n !in c ==> r[n] == map[]
    ensures forall m :: m in c ==> r[m] == c[m]
  {
    if n in c then c else c[n := map[]]
  }

  /** The cache after storing `v` under key `k` of namespace `n`, creating the
      section first when it is missing. */
  function Write<V>(c: Cache<V>, n: string, k: string, v: Value<V>): (r: Cache<V>)
    ensures r.Keys == c.Keys + {n}
    ensures r[n].Keys == SectionOf(c, n).Keys + {k} && r[n][k] == v
    ensures n !in c ==> r[n] == map[k := v]
    ensures forall j :: j in SectionOf(c, n) && j != k ==> r[n][j] == c[n][j]
    ensures forall m :: m in c && m != n ==> r[m] == c[m]
  {
    var e := EnsureSection(c, n);
    e[n := e[n][k := v]]
  }

  /** Creating a section is idempotent: a second attempt finds it there. */
  lemma EnsureSectionIdempotent<V>(c: Cache<V>, n: string)
    ensures EnsureSection(EnsureSection(c, n), n) == EnsureSection(c, n)
    ensures n in EnsureSection(c, n)
  {
  }

  /** Read-after-write: the value just written is the value read back. */
  lemma ReadAfterWrite<V>(c: Cache<V>, n: string, k: string, v: Value<V>)
    ensures Lookup(Write(c, n, k, v), n, k) == v
  {
  }

  /** A write to `(n, k)` is invisible to a read of any other entry. */
  lemma ReadOtherAfterWrite<V>(c: Cache<V>, n: string, k: string, v: Value<V>, m: string, j: string)
    requires m != n || j != k
    ensures Lookup(Write(c, n, k, v), m, j) == Lookup(c, m, j)
  {
    if m == n {
      assert j != k;
      if n in c {
        assert j in Write(c, n, k, v)[n] <==> j in c[n];
      }
    }
  }

  /** Writing `undefined` leaves the key in place with an absent value; a read
      of it yields `undefined` whether or not it was ever set. */
  lemma ClearKeepsKey<V>(c: Cache<V>, n: string, k: string)
    ensures n in Write(c, n, k, Undefined) && k in Write(c, n, k, Undefined)[n]
    ensures Lookup(Write(c, n, k, Undefined), n, k) == Undefined
  {
  }

  /** A namespace without a section reads as `undefined` under every key. */
  lemma LookupWithoutSection<V>(c: Cache<V>, n: string, k: string)
    requires n !in c
    ensures Lookup(c, n, k) == Undefined
  {
  }
}
