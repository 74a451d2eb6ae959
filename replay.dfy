/** Sequences of manager and wrapper calls, run against the cache value. This is
    the reference semantics the manager and wrapper methods are tied to, and the
    setting for the properties that speak of many calls in a row. */
module Replay {
  import opened SettingsCache

  /** One call on a manager: `set(n, k, v)`, `clear(n, k)` or `get(n, k)`. */
  datatype Op<V> =
    | SetOp(namespace: string, key: string, value: Value<V>)
    | ClearOp(namespace: string, key: string)
    | GetOp(namespace: string, key: string)

  /** One call on a wrapper, without the namespace it is bound to. */
  datatype BoundOp<V> =
    | BoundSet(key: string, value: Value<V>)
    | BoundClear(key: string)
    | BoundGet(key: string)

  /** What a call answers: `set` and `clear` answer the result of the
      persistence hook, `get` the value read. */
  datatype Reply<V> = Persisted(ok: bool) | Read(value: Value<V>)

  /** The cache after a run of calls, and the answers in call order. */
  datatype Trace<V> = Trace(cache: Cache<V>, replies: seq<Reply<V>>)

  /** True when `op` may create or change an entry of namespace `n`. */
  predicate Touches<V>(op: Op<V>, n: string)
  {
    !op.GetOp? && op.namespace == n
  }

  /** True when `op` writes entry `(n, k)`. */
  predicate WritesEntry<V>(op: Op<V>, n: string, k: string)
  {
    Touches(op, n) && op.key == k
  }

  /** The value a writing call stores. */
  function Stored<V>(op: Op<V>): Value<V>
    requires !op.GetOp?
  {
    if op.SetOp? then op.value else Undefined
  }

  /** One manager call on cache `c`: a `set` or `clear` leaves the cache its
      write produces and answers the base hook's `false`; a `get` leaves the
      cache as it was and answers the value read. */
  function Step<V>(c: Cache<V>, op: Op<V>): (r: (Cache<V>, Reply<V>))
    ensures !op.GetOp? ==> r.0 == Write(c, op.namespace, op.key, Stored(op)) && r.1 == Persisted(false)
    ensures op.GetOp? ==> r.0 == c && r.1 == Read(Lookup(c, op.namespace, op.key))
  {
    match op
    case SetOp(n, k, v) => (Write(c, n, k, v), Persisted(BaseUpdate(n)))
    case ClearOp(n, k) => (Write(c, n, k, Undefined), Persisted(BaseUpdate(n)))
    case GetOp(n, k) => (c, Read(Lookup(c, n, k)))
  }

  /** A run of manager calls, first call first. */
  function Run<V>(c: Cache<V>, ops: seq<Op<V>>): (t: Trace<V>)
    ensures |t.replies| == |ops|
    decreases |ops|
  {
    if ops == [] then Trace(c, [])
    else
      var (c1, r) := Step(c, ops[0]);
      var rest := Run(c1, ops[1..]);
      Trace(rest.cache, [r] + rest.replies)
  }

  /** One wrapper call on cache `c`, for a wrapper bound to namespace `n`: the
      same cache and answer as the manager call it forwards to. */
  function BoundStep<V>(c: Cache<V>, n: string, op: BoundOp<V>): (r: (Cache<V>, Reply<V>))
    ensures r == Step(c, Bind(n, op))
  {
    match op
    case BoundSet(k, v) => (Write(c, n, k, v), Persisted(BaseUpdate(n)))
    case BoundClear(k) => (Write(c, n, k, Undefined), Persisted(BaseUpdate(n)))
    case BoundGet(k) => (c, Read(Lookup(c, n, k)))
  }

  /** A run of calls on a wrapper bound to namespace `n`. */
  function RunBound<V>(c: Cache<V>, n: string, ops: seq<BoundOp<V>>): (t: Trace<V>)
    ensures |t.replies| == |ops|
    decreases |ops|
  {
    if ops == [] then Trace(c, [])
    else
      var (c1, r) := BoundStep(c, n, ops[0]);
      var rest := RunBound(c1, n, ops[1..]);
      Trace(rest.cache, [r] + rest.replies)
  }

  /** The manager call a wrapper call forwards to. */
  function Bind<V>(n: string, op: BoundOp<V>): (r: Op<V>)
    ensures r.namespace == n && r.key == op.key
    ensures Touches(r, n) <==> !op.BoundGet?
    ensures r.SetOp? <==> op.BoundSet?
    ensures r.SetOp? ==> r.value == op.value
  {
    match op
    case BoundSet(k, v) => SetOp(n, k, v)
    case BoundClear(k) => ClearOp(n, k)
    case BoundGet(k) => GetOp(n, k)
  }

  /** The manager calls a run of wrapper calls forwards to. */
  function BindAll<V>(n: string, ops: seq<BoundOp<V>>): (r: seq<Op<V>>)
    ensures |r| == |ops|
    ensures forall i :: 0 <= i < |ops| ==> r[i] == Bind(n, ops[i])
    decreases |ops|
  {
    if ops == [] then [] else [Bind(n, ops[0])] + BindAll(n, ops[1..])
  }

  /** Reference definition of a read after a run: the value of the last call in
      `ops` that writes `(n, k)`, or `initial` when no call does. */
  function LastWritten<V>(ops: seq<Op<V>>, n: string, k: string, initial: Value<V>): Value<V>
    decreases |ops|
  {
    if ops == [] then initial
    else if WritesEntry(ops[|ops| - 1], n, k) then Stored(ops[|ops| - 1])
    else LastWritten(ops[..|ops| - 1], n, k, initial)
  }

  /** Running `ops` and then `op` is running `ops + [op]`. */
  lemma {:induction false} RunSnoc<V>(c: Cache<V>, ops: seq<Op<V>>, op: Op<V>)
    ensures Run(c, ops + [op]).cache == Step(Run(c, ops).cache, op).0
    ensures Run(c, ops + [op]).replies == Run(c, ops).replies + [Step(Run(c, ops).cache, op).1]
    decreases |ops|
  {
    if ops == [] {
      assert [op][1..] == [];
    } else {
      var c1 := Step(c, ops[0]).0;
      assert (ops + [op])[0] == ops[0];
      assert (ops + [op])[1..] == ops[1..] + [op];
      RunSnoc(c1, ops[1..], op);
    }
  }

  /** After any run of calls, a read of `(n, k)` yields what the last call that
      wrote `(n, k)` stored, and what the cache held before when none did:
      read-after-write and clear-then-read over whole call histories. */
  lemma {:induction false} ReadIsLastWrite<V>(c: Cache<V>, ops: seq<Op<V>>, n: string, k: string)
    ensures Lookup(Run(c, ops).cache, n, k) == LastWritten(ops, n, k, Lookup(c, n, k))
    decreases |ops|
  {
    if ops != [] {
      var init := ops[..|ops| - 1];
      var op := ops[|ops| - 1];
      assert ops == init + [op];
      RunSnoc(c, init, op);
      ReadIsLastWrite(c, init, n, k);
      var before := Run(c, init).cache;
      match op
      case SetOp(m, j, v) =>
        if m != n || j != k { ReadOtherAfterWrite(before, m, j, v, n, k); }
      case ClearOp(m, j) =>
        if m != n || j != k { ReadOtherAfterWrite(before, m, j, Undefined, n, k); }
      case GetOp(_, _) =>
    }
  }

  /** Reads never change the cache, however many there are. */
  lemma {:induction false} ReadsLeaveCache<V>(c: Cache<V>, ops: seq<Op<V>>)
    requires forall i :: 0 <= i < |ops| ==> ops[i].GetOp?
    ensures Run(c, ops).cache == c
    decreases |ops|
  {
    if ops != [] {
      ReadsLeaveCache(c, ops[1..]);
    }
  }

  /** A namespace has a section after a run exactly when it had one before or
      some `set` or `clear` of the run named it; reads never create one. */
  lemma {:induction false} SectionExistsIffTouched<V>(c: Cache<V>, ops: seq<Op<V>>, n: string)
    ensures n in Run(c, ops).cache <==> n in c || exists i :: 0 <= i < |ops| && Touches(ops[i], n)
    decreases |ops|
  {
    if ops != [] {
      var c1 := Step(c, ops[0]).0;
      SectionExistsIffTouched(c1, ops[1..], n);
      assert n in c1 <==> n in c || Touches(ops[0], n);
      if exists i :: 0 <= i < |ops| && Touches(ops[i], n) {
        var i :| 0 <= i < |ops| && Touches(ops[i], n);
        if i > 0 { assert Touches(ops[1..][i - 1], n); }
      }
      if exists i :: 0 <= i < |ops| - 1 && Touches(ops[1..][i], n) {
        var i :| 0 <= i < |ops| - 1 && Touches(ops[1..][i], n);
        assert Touches(ops[i + 1], n);
      }
    }
  }

  /** A run that never writes into namespace `n` leaves its section, or its
      absence, exactly as it was. */
  lemma {:induction false} UntouchedNamespaceUnchanged<V>(c: Cache<V>, ops: seq<Op<V>>, n: string)
    requires forall i :: 0 <= i < |ops| ==> !Touches(ops[i], n)
    ensures n in Run(c, ops).cache <==> n in c
    ensures SectionOf(Run(c, ops).cache, n) == SectionOf(c, n)
    decreases |ops|
  {
    if ops != [] {
      var c1 := Step(c, ops[0]).0;
      assert !Touches(ops[0], n);
      assert n in c1 <==> n in c;
      assert SectionOf(c1, n) == SectionOf(c, n);
      UntouchedNamespaceUnchanged(c1, ops[1..], n);
    }
  }

  /** A wrapper bound to `n` behaves, call for call and on the cache, exactly
      like the manager called with `n` prepended. */
  lemma {:induction false} BoundRunIsManagerRun<V>(c: Cache<V>, n: string, ops: seq<BoundOp<V>>)
    ensures RunBound(c, n, ops) == Run(c, BindAll(n, ops))
    decreases |ops|
  {
    if ops != [] {
      var bound := BindAll(n, ops);
      assert bound[0] == Bind(n, ops[0]);
      assert bound[1..] == BindAll(n, ops[1..]);
      assert BoundStep(c, n, ops[0]) == Step(c, Bind(n, ops[0]));
      BoundRunIsManagerRun(BoundStep(c, n, ops[0]).0, n, ops[1..]);
    }
  }

  /** Calls through a wrapper bound to `n` leave every other namespace as it
      was, its section or its absence alike. */
  lemma BoundRunConfined<V>(c: Cache<V>, n: string, ops: seq<BoundOp<V>>, m: string)
    requires m != n
    ensures m in RunBound(c, n, ops).cache <==> m in c
    ensures SectionOf(RunBound(c, n, ops).cache, m) == SectionOf(c, m)
  {
    BoundRunIsManagerRun(c, n, ops);
    var bound := BindAll(n, ops);
    forall i | 0 <= i < |bound| ensures !Touches(bound[i], m) {
      assert bound[i] == Bind(n, ops[i]);
    }
    UntouchedNamespaceUnchanged(c, bound, m);
  }

  /** `set(n, k, undefined)` and `clear(n, k)` are the same call. */
  lemma SetUndefinedIsClear<V>(c: Cache<V>, n: string, k: string)
    ensures Step(c, SetOp(n, k, Undefined)) == Step(c, ClearOp(n, k))
  {
  }
}
