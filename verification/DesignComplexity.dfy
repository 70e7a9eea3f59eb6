/** Measuring a JSON value with an explicit stack before anything recursive touches it. */
module DesignComplexity {
  import opened Numbers

  const MAX_NODES := 100_000
  const MAX_DEPTH := 64

  /** A value: a primitive, or an array or object with its member values. */
  datatype Json = Leaf | Node(children: seq<Json>)

  function Size(v: Json): (n: nat)
    ensures n >= 1
  {
    match v
    case Leaf => 1
    case Node(children) => 1 + Sizes(children)
  }

  function Sizes(vs: seq<Json>): nat {
    if vs == [] then 0 else Size(vs[0]) + Sizes(vs[1..])
  }

  /** Depth of the deepest value below v, v itself at depth 0. */
  function Depth(v: Json): nat {
    match v
    case Leaf => 0
    case Node(children) => if children == [] then 0 else 1 + Deepest(children)
  }

  function Deepest(vs: seq<Json>): nat {
    if vs == [] then 0 else Larger(Depth(vs[0]), Deepest(vs[1..]))
  }

  datatype Pending = Pending(value: Json, depth: nat)

  /** The sizes of all subtrees still on the stack. */
  function Remaining(pending: seq<Pending>): nat {
    if pending == [] then 0 else Remaining(pending[..|pending| - 1]) + Size(pending[|pending| - 1].value)
  }

  predicate Shallow(pending: seq<Pending>) {
    forall i :: 0 <= i < |pending| ==> pending[i].depth + Depth(pending[i].value) <= MAX_DEPTH
  }

  lemma {:induction false} RemainingAtLeast(pending: seq<Pending>)
    ensures Remaining(pending) >= |pending|
    decreases |pending|
  {
    if pending != [] { RemainingAtLeast(pending[..|pending| - 1]); }
  }

  lemma RemainingPush(pending: seq<Pending>, p: Pending)
    ensures Remaining(pending + [p]) == Remaining(pending) + Size(p.value)
  {
    assert (pending + [p])[..|pending|] == pending;
  }

  lemma {:induction false} SizesAppend(vs: seq<Json>, i: nat)
    requires i < |vs|
    ensures Sizes(vs[..i + 1]) == Sizes(vs[..i]) + Size(vs[i])
    decreases i
  {
    if i == 0 {
      assert vs[..1][1..] == [] && vs[..0] == [];
    } else {
      assert vs[..i + 1][1..] == vs[1..][..i] && vs[..i][1..] == vs[1..][..i - 1];
      SizesAppend(vs[1..], i - 1);
    }
  }

  lemma {:induction false} DeepestIsDepth(vs: seq<Json>, bound: int)
    requires bound >= 0
    ensures Deepest(vs) <= bound <==> forall i :: 0 <= i < |vs| ==> Depth(vs[i]) <= bound
    decreases |vs|
  {
    if vs != [] {
      DeepestIsDepth(vs[1..], bound);
      assert forall i :: 0 < i < |vs| ==> vs[i] == vs[1..][i - 1];
      assert forall i :: 0 <= i < |vs| - 1 ==> vs[1..][i] == vs[i + 1];
    }
  }

  /** Pushing the children of a value at depth d. */
  method PushChildren(pending: seq<Pending>, children: seq<Json>, depth: nat) returns (r: seq<Pending>)
    ensures r == pending + seq(|children|, i requires 0 <= i < |children| => Pending(children[i], depth + 1))
    ensures Remaining(r) == Remaining(pending) + Sizes(children)
  {
    r := pending;
    for i := 0 to |children|
      invariant r == pending + seq(i, k requires 0 <= k < i => Pending(children[k], depth + 1))
      invariant Remaining(r) == Remaining(pending) + Sizes(children[..i])
    {
      SizesAppend(children, i);
      RemainingPush(r, Pending(children[i], depth + 1));
      r := r + [Pending(children[i], depth + 1)];
    }
    assert children[..|children|] == children;
  }

  /** Taking a node off and pushing its children keeps the depths of what lies below it. */
  lemma ShallowStep(rest: seq<Pending>, current: Pending, pushed: seq<Pending>)
    requires current.value.Node? && current.depth <= MAX_DEPTH
    requires |pushed| == |rest| + |current.value.children|
    requires forall i :: 0 <= i < |rest| ==> pushed[i] == rest[i]
    requires forall i :: 0 <= i < |current.value.children| ==> pushed[|rest| + i] == Pending(current.value.children[i], current.depth + 1)
    ensures Shallow(pushed) <==> Shallow(rest + [current])
  {
    var (children, before) := (current.value.children, rest + [current]);
    if Shallow(before) {
      assert before[|rest|] == current;
      if children != [] { DeepestIsDepth(children, MAX_DEPTH - 1 - current.depth); }
      forall i | 0 <= i < |pushed| ensures pushed[i].depth + Depth(pushed[i].value) <= MAX_DEPTH {
        if i < |rest| {
          assert before[i] == rest[i];
        } else {
          assert pushed[i] == pushed[|rest| + (i - |rest|)] == Pending(children[i - |rest|], current.depth + 1);
          assert Depth(children[i - |rest|]) <= MAX_DEPTH - 1 - current.depth;
        }
      }
    }
    if Shallow(pushed) {
      forall i | 0 <= i < |children| ensures Depth(children[i]) <= MAX_DEPTH - 1 - current.depth {
        assert pushed[|rest| + i].depth + Depth(children[i]) <= MAX_DEPTH;
      }
      if children != [] {
        assert pushed[|rest| + 0] == Pending(children[0], current.depth + 1);
        DeepestIsDepth(children, MAX_DEPTH - 1 - current.depth);
      }
      forall i | 0 <= i < |before| ensures before[i].depth + Depth(before[i].value) <= MAX_DEPTH {
        if i < |rest| { assert pushed[i] == before[i]; }
      }
    }
  }

  /** The traversal accepts exactly the values of at most 100000 nodes and depth at most 64.
      Nodes seen and nodes waiting never pass 100000 together, and nodes seen and the sizes of
      the waiting subtrees always make up the whole value. */
  method Validate(value: Json) returns (ok: bool)
    ensures ok <==> Size(value) <= MAX_NODES && Depth(value) <= MAX_DEPTH
  {
    var pending: seq<Pending> := [Pending(value, 0)];
    var nodes := 0;
    assert pending[..0] == [];
    while |pending| > 0
      invariant nodes + Remaining(pending) == Size(value)
      invariant nodes + |pending| <= MAX_NODES
      invariant Shallow(pending) <==> Depth(value) <= MAX_DEPTH
      decreases Remaining(pending)
    {
      var (current, rest) := (pending[|pending| - 1], pending[..|pending| - 1]);
      assert pending == rest + [current];
      RemainingPush(rest, current);
      RemainingAtLeast(rest);
      nodes := nodes + 1;
      if nodes > MAX_NODES || current.depth > MAX_DEPTH {
        assert pending[|pending| - 1].depth + Depth(current.value) > MAX_DEPTH;
        return false;
      }
      var children := if current.value.Node? then current.value.children else [];
      if current.value.Node? {
        if nodes + |rest| + |children| > MAX_NODES {
          SizesAtLeast(children);
          return false;
        }
        pending := PushChildren(rest, children, current.depth);
        ShallowStep(rest, current, pending);
      } else {
        pending := rest;
        assert Shallow(rest) <==> Shallow(rest + [current]) by {
          assert forall i :: 0 <= i < |rest| ==> (rest + [current])[i] == rest[i];
        }
      }
    }
    ok := true;
  }

  lemma {:induction false} SizesAtLeast(vs: seq<Json>)
    ensures Sizes(vs) >= |vs|
    decreases |vs|
  {
    if vs != [] { SizesAtLeast(vs[1..]); }
  }
}
