/** Ordering tables so that every table comes after the tables its foreign keys point to. */
module ForeignKeys {
  type Table = string

  /** For each table the parents of its foreign keys, self-references removed. */
  type Graph = map<Table, seq<Table>>

  function Others(t: Table, parents: seq<Table>): (r: seq<Table>)
    ensures forall p :: p in r <==> p in parents && p != t
  {
    if parents == [] then []
    else if parents[0] != t then [parents[0]] + Others(t, parents[1..])
    else Others(t, parents[1..])
  }

  function Dependencies(keys: map<Table, seq<Table>>): (g: Graph)
    ensures g.Keys == keys.Keys
    ensures forall t :: t in g ==> forall p :: p in g[t] <==> p in keys[t] && p != t
  {
    map t | t in keys :: Others(t, keys[t])
  }

  // ---------- what can go wrong ----------

  predicate Edge(g: Graph, child: Table, parent: Table) {
    child in g && parent in g[child]
  }

  predicate Path(g: Graph, p: seq<Table>) {
    forall i :: 0 <= i < |p| - 1 ==> Edge(g, p[i], p[i + 1])
  }

  predicate Cycle(g: Graph, p: seq<Table>) {
    |p| >= 2 && p[0] == p[|p| - 1] && Path(g, p)
  }

  ghost predicate Cyclic(g: Graph) {
    exists p :: Cycle(g, p)
  }

  predicate MissingParent(g: Graph) {
    exists t :: t in g && exists p :: p in g[t] && p !in g
  }

  // ---------- what is wanted ----------

  predicate Distinct(s: seq<Table>) {
    forall i, j :: 0 <= i < j < |s| ==> s[i] != s[j]
  }

  predicate ParentsFirst(g: Graph, s: seq<Table>) {
    forall i :: 0 <= i < |s| ==> s[i] in g && forall p :: p in g[s[i]] ==> p in s[..i]
  }

  predicate Sorted(g: Graph, s: seq<Table>) {
    Distinct(s) && ParentsFirst(g, s)
  }

  /** A full order of the tables leaves no room for a cycle or a missing parent. */
  lemma OrderExcludesFaults(g: Graph, s: seq<Table>)
    requires Sorted(g, s) && forall t :: t in g ==> t in s
    ensures !Cyclic(g) && !MissingParent(g)
  {
    forall p ensures !Cycle(g, p) {
      if |p| >= 2 && Path(g, p) {
        assert Edge(g, p[0], p[1]);
        var i :| 0 <= i < |s| && s[i] == p[0];
        Descends(g, s, p, |p| - 1, i);
      }
    }
    forall t, p | t in g && p in g[t] ensures p in g {
      var i :| 0 <= i < |s| && s[i] == t;
      assert p in s[..i];
    }
  }

  /** Along a path the positions fall. */
  lemma {:induction false} Descends(g: Graph, s: seq<Table>, p: seq<Table>, k: nat, first: nat)
    requires Sorted(g, s) && Path(g, p) && 0 < k < |p| && first < |s| && s[first] == p[0]
    ensures p[k] in s[..first]
    decreases k
  {
    assert Edge(g, p[k - 1], p[k]);
    if k == 1 {
    } else {
      Descends(g, s, p, k - 1, first);
      var i :| 0 <= i < first && s[i] == p[k - 1];
      assert p[k] in s[..i];
    }
  }

  lemma AppendParent(g: Graph, s: seq<Table>, t: Table)
    requires Sorted(g, s) && t in g && t !in s && forall p :: p in g[t] ==> p in s
    ensures Sorted(g, s + [t])
  {
    var r := s + [t];
    forall i | 0 <= i < |r| ensures r[i] in g && forall p :: p in g[r[i]] ==> p in r[..i] {
      if i < |s| { assert r[..i] == s[..i]; } else { assert r[..i] == s; }
    }
  }

  // ---------- the depth-first search ----------

  class Sorter {
    const graph: Graph
    var sorted: seq<Table>
    var visiting: set<Table>

    constructor (graph: Graph)
      ensures this.graph == graph && sorted == [] && visiting == {}
    {
      this.graph := graph;
      sorted, visiting := [], {};
    }

    /** `stack` is the chain of tables whose visit is under way. */
    ghost predicate Valid(stack: seq<Table>)
      reads this
    {
      && Sorted(graph, sorted) && Path(graph, stack)
      && visiting == (set t | t in stack) && visiting <= graph.Keys
      && forall t :: t in visiting ==> t !in sorted
    }

    ghost predicate Faulty() {
      Cyclic(graph) || MissingParent(graph)
    }

    lemma ClosesCycle(stack: seq<Table>, table: Table)
      requires Path(graph, stack) && table in stack && Edge(graph, stack[|stack| - 1], table)
      ensures Cyclic(graph)
    {
      var i :| 0 <= i < |stack| && stack[i] == table;
      var p := stack[i..] + [table];
      forall k | 0 <= k < |p| - 1 ensures Edge(graph, p[k], p[k + 1]) {
        if i + k + 1 < |stack| { assert Edge(graph, stack[i + k], stack[i + k + 1]); }
      }
      assert Cycle(graph, p);
    }

    method Visit(table: Table, ghost stack: seq<Table>) returns (ok: bool)
      requires Valid(stack)
      requires if stack == [] then table in graph else Edge(graph, stack[|stack| - 1], table)
      modifies this
      ensures ok ==> Valid(stack) && visiting == old(visiting) && old(sorted) <= sorted && table in sorted
      ensures !ok ==> Faulty()
      decreases graph.Keys - visiting
    {
      if table in sorted { return true; }
      if table in visiting || table !in graph {
        if table in visiting { ClosesCycle(stack, table); }
        return false;
      }
      visiting := visiting + {table};
      ghost var deeper := stack + [table];
      assert Path(graph, deeper) by {
        forall i | 0 <= i < |deeper| - 1 ensures Edge(graph, deeper[i], deeper[i + 1]) {
          if i < |stack| - 1 { assert Edge(graph, stack[i], stack[i + 1]); }
        }
      }
      var parents := graph[table];
      var i := 0;
      while i < |parents|
        invariant 0 <= i <= |parents| && Valid(deeper) && visiting == old(visiting) + {table} && old(sorted) <= sorted
        invariant forall k :: 0 <= k < i ==> parents[k] in sorted
      {
        assert Edge(graph, deeper[|deeper| - 1], parents[i]);
        var found := Visit(parents[i], deeper);
        if !found { return false; }
        i := i + 1;
      }
      assert table in deeper && table !in sorted;
      AppendParent(graph, sorted, table);
      visiting := visiting - {table};
      sorted := sorted + [table];
      ok := true;
    }
  }

  /** Lists without repetition that hold the same tables are rearrangements of each other. */
  lemma SamePermutation(a: seq<Table>, b: seq<Table>)
    requires Distinct(a) && Distinct(b) && forall t :: t in a <==> t in b
    ensures multiset(a) == multiset(b)
  {
    forall t ensures multiset(a)[t] == multiset(b)[t] {
      Once(a, t);
      Once(b, t);
    }
  }

  lemma {:induction false} Once(s: seq<Table>, t: Table)
    requires Distinct(s)
    ensures multiset(s)[t] == if t in s then 1 else 0
    decreases |s|
  {
    if s != [] {
      assert s == s[..|s| - 1] + [s[|s| - 1]];
      Once(s[..|s| - 1], t);
    }
  }

  /** The sort succeeds exactly when the foreign keys, self-references aside, have no cycle and
      no missing parent; its result is then a permutation of the tables, parents first. */
  method SortTables(tables: seq<Table>, keys: map<Table, seq<Table>>) returns (ok: bool, sorted: seq<Table>)
    requires Distinct(tables) && forall t :: t in tables <==> t in keys
    ensures var g := Dependencies(keys); ok <==> !Cyclic(g) && !MissingParent(g)
    ensures ok ==> Sorted(Dependencies(keys), sorted) && multiset(sorted) == multiset(tables)
  {
    var sorter := new Sorter(Dependencies(keys));
    var i := 0;
    while i < |tables|
      invariant 0 <= i <= |tables| && sorter.Valid([]) && sorter.graph == Dependencies(keys)
      invariant forall k :: 0 <= k < i ==> tables[k] in sorter.sorted
    {
      var found := sorter.Visit(tables[i], []);
      if !found { return false, []; }
      i := i + 1;
    }
    sorted := sorter.sorted;
    OrderExcludesFaults(sorter.graph, sorted);
    SamePermutation(sorted, tables);
    ok := true;
  }
}
