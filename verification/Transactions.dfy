/** Nested transactions over savepoints, with effects that wait for the outermost commit.
    `Transact` is the recursive meaning of a tree of transactions; class Adapter is the
    savepoint machine that carries it out. */
module Transactions {
  import opened Wrappers

  type Store = map<nat, int>

  /** A notification; `throws` says whether its transport fails. */
  datatype Effect = Effect(id: nat, throws: bool)

  /** What a sequential transaction body does, as a record of its run. A nested transaction
      that fails throws into its parent, which may catch the error and go on. */
  datatype Body =
    | Return
    | Throw
    | Write(key: nat, value: int, rest: Body)
    | AfterCommit(effect: Effect, rest: Body)
    | Nested(child: Body, caught: bool, rest: Body)

  // ---------- meaning ----------

  datatype Outcome = Outcome(ok: bool, store: Store, effects: seq<Effect>)

  function Run(b: Body, store: Store, effects: seq<Effect>): Outcome {
    match b
    case Return => Outcome(true, store, effects)
    case Throw => Outcome(false, store, effects)
    case Write(key, value, rest) => Run(rest, store[key := value], effects)
    case AfterCommit(effect, rest) => Run(rest, store, effects + [effect])
    case Nested(child, caught, rest) =>
      var inner := Run(child, store, []);
      if inner.ok then Run(rest, inner.store, effects + inner.effects)
      else if caught then Run(rest, store, effects)
      else Outcome(false, store, effects)
  }

  function Transact(b: Body, store: Store): Outcome {
    var inner := Run(b, store, []);
    if inner.ok then inner else Outcome(false, store, [])
  }

  // ---------- which leaves survive ----------

  predicate Fails(b: Body) {
    match b
    case Return => false
    case Throw => true
    case Write(_, _, rest) => Fails(rest)
    case AfterCommit(_, rest) => Fails(rest)
    case Nested(child, caught, rest) => (Fails(child) && !caught) || Fails(rest)
  }

  datatype Leaf = Wrote(key: nat, value: int) | Registered(effect: Effect)

  /** A leaf the body reached, and whether every transaction around it commits. */
  datatype Attempt = Attempt(leaf: Leaf, committed: bool)

  /** All leaves reached, in order, given whether the enclosing chain commits. */
  function Attempts(b: Body, chain: bool): seq<Attempt> {
    match b
    case Return => []
    case Throw => []
    case Write(key, value, rest) => [Attempt(Wrote(key, value), chain)] + Attempts(rest, chain)
    case AfterCommit(effect, rest) => [Attempt(Registered(effect), chain)] + Attempts(rest, chain)
    case Nested(child, caught, rest) =>
      Attempts(child, chain && !Fails(child)) + if Fails(child) && !caught then [] else Attempts(rest, chain)
  }

  function KeptWrites(attempts: seq<Attempt>, store: Store): Store {
    if attempts == [] then store
    else
      var a := attempts[0];
      KeptWrites(attempts[1..], if a.committed && a.leaf.Wrote? then store[a.leaf.key := a.leaf.value] else store)
  }

  function KeptEffects(attempts: seq<Attempt>): seq<Effect> {
    if attempts == [] then []
    else (if attempts[0].committed && attempts[0].leaf.Registered? then [attempts[0].leaf.effect] else []) + KeptEffects(attempts[1..])
  }

  lemma {:induction false} KeptConcat(a: seq<Attempt>, b: seq<Attempt>, store: Store)
    ensures KeptWrites(a + b, store) == KeptWrites(b, KeptWrites(a, store))
    ensures KeptEffects(a + b) == KeptEffects(a) + KeptEffects(b)
    decreases |a|
  {
    if a == [] {
      assert a + b == b;
    } else {
      assert (a + b)[1..] == a[1..] + b;
      KeptConcat(a[1..], b, if a[0].committed && a[0].leaf.Wrote? then store[a[0].leaf.key := a[0].leaf.value] else store);
    }
  }

  lemma {:induction false} NothingKept(b: Body, store: Store)
    ensures KeptWrites(Attempts(b, false), store) == store && KeptEffects(Attempts(b, false)) == []
  {
    match b
    case Return =>
    case Throw =>
    case Write(key, value, rest) =>
      KeptConcat([Attempt(Wrote(key, value), false)], Attempts(rest, false), store);
      NothingKept(rest, store);
    case AfterCommit(effect, rest) =>
      KeptConcat([Attempt(Registered(effect), false)], Attempts(rest, false), store);
      NothingKept(rest, store);
    case Nested(child, caught, rest) =>
      NothingKept(child, store);
      NothingKept(rest, store);
      KeptConcat(Attempts(child, false), if Fails(child) && !caught then [] else Attempts(rest, false), store);
  }

  lemma KeptOne(leaf: Leaf, rest: seq<Attempt>, store: Store)
    ensures KeptWrites([Attempt(leaf, true)] + rest, store) == KeptWrites(rest, if leaf.Wrote? then store[leaf.key := leaf.value] else store)
    ensures KeptEffects([Attempt(leaf, true)] + rest) == (if leaf.Registered? then [leaf.effect] else []) + KeptEffects(rest)
  {
    assert ([Attempt(leaf, true)] + rest)[1..] == rest;
  }

  ghost predicate RunsAs(b: Body, store: Store, effects: seq<Effect>) {
    && Run(b, store, effects).ok == !Fails(b)
    && (!Fails(b) ==> Run(b, store, effects).store == KeptWrites(Attempts(b, true), store))
    && (!Fails(b) ==> Run(b, store, effects).effects == effects + KeptEffects(Attempts(b, true)))
  }

  lemma NestedRunsAs(child: Body, caught: bool, rest: Body, store: Store, effects: seq<Effect>)
    requires RunsAs(child, store, [])
    requires Fails(child) ==> RunsAs(rest, store, effects)
    requires !Fails(child) ==> RunsAs(rest, Run(child, store, []).store, effects + Run(child, store, []).effects)
    ensures RunsAs(Nested(child, caught, rest), store, effects)
  {
    if Fails(child) {
      if caught { FailedChildDrops(child, rest, store); }
    } else {
      var kept := KeptEffects(Attempts(child, true));
      KeptConcat(Attempts(child, true), Attempts(rest, true), store);
      assert [] + kept == kept;
      assert (effects + kept) + KeptEffects(Attempts(rest, true)) == effects + (kept + KeptEffects(Attempts(rest, true)));
    }
  }

  lemma WriteRunsAs(key: nat, value: int, rest: Body, store: Store, effects: seq<Effect>)
    requires RunsAs(rest, store[key := value], effects)
    ensures RunsAs(Write(key, value, rest), store, effects)
  {
    KeptOne(Wrote(key, value), Attempts(rest, true), store);
    assert [] + KeptEffects(Attempts(rest, true)) == KeptEffects(Attempts(rest, true));
    hide KeptWrites, KeptEffects;
  }

  lemma EffectRunsAs(effect: Effect, rest: Body, store: Store, effects: seq<Effect>)
    requires RunsAs(rest, store, effects + [effect])
    ensures RunsAs(AfterCommit(effect, rest), store, effects)
  {
    var kept := KeptEffects(Attempts(rest, true));
    KeptOne(Registered(effect), Attempts(rest, true), store);
    assert (effects + [effect]) + kept == effects + ([effect] + kept);
    hide KeptWrites, KeptEffects;
  }

  lemma {:induction false} RunKeeps(b: Body, store: Store, effects: seq<Effect>)
    ensures RunsAs(b, store, effects)
  {
    match b
    case Return => assert effects + [] == effects;
    case Throw =>
    case Write(key, value, rest) =>
      hide *;
      RunKeeps(rest, store[key := value], effects);
      WriteRunsAs(key, value, rest, store, effects);
    case AfterCommit(effect, rest) =>
      hide *;
      RunKeeps(rest, store, effects + [effect]);
      EffectRunsAs(effect, rest, store, effects);
    case Nested(child, caught, rest) =>
      hide *;
      RunKeeps(child, store, []);
      if Fails(child) { RunKeeps(rest, store, effects); }
      else { RunKeeps(rest, Run(child, store, []).store, effects + Run(child, store, []).effects); }
      NestedRunsAs(child, caught, rest, store, effects);
  }

  lemma FailedChildDrops(child: Body, rest: Body, store: Store)
    ensures KeptWrites(Attempts(child, false) + Attempts(rest, true), store) == KeptWrites(Attempts(rest, true), store)
    ensures KeptEffects(Attempts(child, false) + Attempts(rest, true)) == KeptEffects(Attempts(rest, true))
  {
    NothingKept(child, store);
    KeptConcat(Attempts(child, false), Attempts(rest, true), store);
  }

  /** A tree commits unless it fails. Then exactly the writes whose whole chain of
      transactions commits are in the store, in the order they were made, and exactly the
      effects whose whole chain commits are released, in the order they were registered. */
  lemma OnlyCommittedChainsSurvive(b: Body, store: Store)
    ensures Transact(b, store).ok == !Fails(b)
    ensures Transact(b, store).store == KeptWrites(Attempts(b, !Fails(b)), store)
    ensures Transact(b, store).effects == KeptEffects(Attempts(b, !Fails(b)))
  {
    RunKeeps(b, store, []);
    NothingKept(b, store);
  }

  // ---------- the database connection ----------

  datatype Savepoint = Savepoint(name: nat, store: Store)

  predicate Named(saved: seq<Savepoint>, name: nat) {
    exists k :: 0 <= k < |saved| && saved[k].name == name
  }

  /** The most recent savepoint of a name. */
  function Latest(saved: seq<Savepoint>, name: nat): (i: nat)
    requires Named(saved, name)
    ensures i < |saved| && saved[i].name == name
    ensures forall k :: i < k < |saved| ==> saved[k].name != name
  {
    if saved[|saved| - 1].name == name then |saved| - 1 else Latest(saved[..|saved| - 1], name)
  }

  /** Savepoints as SQL has them: RELEASE and ROLLBACK TO act on the most recent savepoint of
      that name, and both drop the ones above it. BEGIN is the savepoint named 0. */
  class Connection {
    var current: Store
    var saved: seq<Savepoint>

    constructor (store: Store)
      ensures current == store && saved == []
    {
      current, saved := store, [];
    }

    method Mark(name: nat)
      modifies this
      ensures saved == old(saved) + [Savepoint(name, current)] && current == old(current)
    {
      saved := saved + [Savepoint(name, current)];
    }

    method Find(name: nat) returns (i: nat)
      requires Named(saved, name)
      ensures i == Latest(saved, name)
    {
      i := |saved| - 1;
      while saved[i].name != name
        invariant 0 <= i < |saved| && Named(saved[..i + 1], name) && Latest(saved, name) == Latest(saved[..i + 1], name)
        decreases i
      {
        assert saved[..i + 1][..i] == saved[..i];
        i := i - 1;
      }
    }

    method Release(name: nat)
      requires Named(saved, name)
      modifies this`saved
      ensures saved == old(saved)[..Latest(old(saved), name)]
    {
      var i := Find(name);
      saved := saved[..i];
    }

    method RollbackTo(name: nat)
      requires Named(saved, name)
      modifies this
      ensures saved == old(saved)[..Latest(old(saved), name) + 1]
      ensures current == old(saved)[Latest(old(saved), name)].store
    {
      var i := Find(name);
      current, saved := saved[i].store, saved[..i + 1];
    }

    method Put(key: nat, value: int)
      modifies this`current
      ensures current == old(current)[key := value]
    {
      current := current[key := value];
    }
  }

  // ---------- the adapter ----------

  class Context {
    var active: bool
    var effects: seq<Effect>

    constructor ()
      ensures active && effects == []
    {
      active, effects := true, [];
    }
  }

  /** Names of open savepoints were drawn from the counter and never twice, so each name
      means one savepoint. */
  ghost predicate Drawn(saved: seq<Savepoint>, counter: nat) {
    && (forall i :: 0 <= i < |saved| ==> saved[i].name <= counter)
    && (forall i, k :: 0 <= i < k < |saved| ==> saved[i].name < saved[k].name)
  }

  class Adapter {
    const raw: Connection
    var savepointId: nat
    var ran: seq<Effect>
    var failures: seq<Effect>

    constructor (raw: Connection)
      ensures this.raw == raw && savepointId == 0 && ran == [] && failures == []
    {
      this.raw := raw;
      savepointId, ran, failures := 0, [], [];
    }

    /** Every effect runs; a failing one is logged and the next still runs. */
    method RunCommitEffects(effects: seq<Effect>)
      modifies this`ran, this`failures
      ensures ran == old(ran) + effects
      ensures failures == old(failures) + Throwing(effects)
    {
      var i := 0;
      while i < |effects|
        invariant 0 <= i <= |effects|
        invariant ran == old(ran) + effects[..i] && failures == old(failures) + Throwing(effects[..i])
      {
        assert effects[..i + 1] == effects[..i] + [effects[i]];
        ran := ran + [effects[i]];
        if effects[i].throws { failures := failures + [effects[i]]; }
        i := i + 1;
      }
      assert effects[..i] == effects;
    }

    /** afterCommit: refused for an ended transaction, queued in an open one, else run now. */
    method Register(effect: Effect, context: Context?) returns (ok: bool)
      modifies this`ran, this`failures, context
      ensures ok == (context == null || old(context.active))
      ensures !ok ==> ran == old(ran) && failures == old(failures) && context.effects == old(context.effects)
      ensures context != null ==> context.active == old(context.active) && ran == old(ran) && failures == old(failures)
      ensures context != null && ok ==> context.effects == old(context.effects) + [effect]
      ensures context == null ==> ran == old(ran) + [effect]
    {
      if context != null && !context.active { return false; }
      if context != null { context.effects := context.effects + [effect]; } else { RunCommitEffects([effect]); }
      ok := true;
    }

    /** The catch block: back to the savepoint, then forget it. */
    method Abandon(savepoint: nat, ghost before: seq<Savepoint>, ghost start: Store)
      requires raw.saved == before + [Savepoint(savepoint, start)]
      modifies raw
      ensures raw.saved == before && raw.current == start
    {
      assert raw.saved[|before|].name == savepoint;
      raw.RollbackTo(savepoint);
      assert raw.saved == before + [Savepoint(savepoint, start)];
      assert raw.saved[|before|].name == savepoint;
      raw.Release(savepoint);
    }

    /** The end of a committed transaction: to the parent, or to the caller. */
    method Keep(savepoint: nat, ghost before: seq<Savepoint>, ghost start: Store, context: Context, parent: Context?)
      returns (effects: seq<Effect>)
      requires raw.saved == before + [Savepoint(savepoint, start)]
      modifies raw`saved, parent
      ensures raw.saved == before
      ensures parent == null ==> effects == context.effects
      ensures parent != null ==> parent.effects == old(parent.effects) + old(context.effects) && parent.active == old(parent.active)
    {
      effects := [];
      assert raw.saved[|before|].name == savepoint;
      raw.Release(savepoint);
      if parent != null { parent.effects := parent.effects + context.effects; } else { effects := context.effects; }
    }

    /** The savepoint machine refines Transact. With no parent, the effects of a committed
        tree have run, each once and in order, when the call returns; a failed tree runs none.
        Under a parent they are handed to it. The stack of savepoints is as it was. */
    method WithTransaction(work: Body, parent: Context?) returns (ok: bool)
      requires Drawn(raw.saved, savepointId)
      requires if parent == null then raw.saved == [] else parent.active && raw.saved != []
      modifies raw, this, parent
      ensures Drawn(raw.saved, savepointId) && raw.saved == old(raw.saved) && savepointId >= old(savepointId)
      ensures ok == Transact(work, old(raw.current)).ok && raw.current == Transact(work, old(raw.current)).store
      ensures parent == null ==> ran == old(ran) + Transact(work, old(raw.current)).effects
      ensures parent == null ==> failures == old(failures) + Throwing(Transact(work, old(raw.current)).effects)
      ensures parent != null ==> ran == old(ran) && failures == old(failures)
      ensures parent != null ==> parent.active && parent.effects == old(parent.effects) + Transact(work, old(raw.current)).effects
      decreases work, 1
    {
      savepointId := savepointId + 1;
      var savepoint := if parent == null then 0 else savepointId;
      var context := new Context();
      ghost var before, start := raw.saved, raw.current;
      raw.Mark(savepoint);
      ok := Perform(work, context);
      if !ok {
        Abandon(savepoint, before, start);
        context.active := false;
        return;
      }
      var effects := Keep(savepoint, before, start, context, parent);
      context.active := false;
      if parent == null { RunCommitEffects(effects); }
    }

    /** The body, statement by statement, inside its own context. */
    method Perform(work: Body, context: Context) returns (ok: bool)
      requires context.active && Drawn(raw.saved, savepointId) && raw.saved != []
      modifies raw, this, context
      ensures context.active && Drawn(raw.saved, savepointId) && raw.saved == old(raw.saved) && savepointId >= old(savepointId)
      ensures Outcome(ok, raw.current, context.effects) == Run(work, old(raw.current), old(context.effects))
      ensures ran == old(ran) && failures == old(failures)
      decreases work, 0
    {
      match work
      case Return => ok := true;
      case Throw => ok := false;
      case Write(key, value, rest) =>
        raw.Put(key, value);
        ok := Perform(rest, context);
      case AfterCommit(effect, rest) =>
        var registered := Register(effect, context);
        ok := Perform(rest, context);
      case Nested(child, caught, rest) =>
        ghost var effects := context.effects;
        var inner := WithTransaction(child, context);
        assert effects + [] == effects;
        if !inner && !caught { return false; }
        ok := Perform(rest, context);
    }
  }

  function Throwing(effects: seq<Effect>): seq<Effect> {
    if effects == [] then []
    else Throwing(effects[..|effects| - 1]) + if effects[|effects| - 1].throws then [effects[|effects| - 1]] else []
  }

  /** The failures logged are those of the effects that throw, in order, and no others. */
  lemma {:induction false} FailuresAreThoseThatThrow(a: seq<Effect>, b: seq<Effect>, e: Effect)
    ensures Throwing([]) == [] && Throwing([e]) == if e.throws then [e] else []
    ensures Throwing(a + b) == Throwing(a) + Throwing(b)
    decreases |b|
  {
    assert [e][..0] == [];
    if b == [] {
      assert a + b == a;
    } else {
      assert (a + b)[..|a + b| - 1] == a + b[..|b| - 1];
      FailuresAreThoseThatThrow(a, b[..|b| - 1], e);
    }
  }
}
