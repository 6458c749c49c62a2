/** Expanding a model group into its plan: a tree of groups with provider models as leaves. */
module Plans {
  import opened Collections
  import opened Wire
  import opened ModelConfig

  datatype PlanLeaf = PlanLeaf(key: LeafKey, weight: int)

  datatype OrderEntry = OrderEntry(isLeaf: bool, index: nat)

  datatype PlanNode = PlanNode(group: string, mode: string, weight: int,
                               leaves: seq<PlanLeaf>, children: seq<PlanNode>, order: seq<OrderEntry>)

  /** An accepted configuration: references lead to groups and there is no cycle. */
  ghost predicate Accepted(t: Tables, rank: map<string, nat>) {
    Closed(t) && Ranked(t, rank)
  }

  lemma RefFalls(t: Tables, rank: map<string, nat>, name: string, i: nat)
    requires Accepted(t, rank) && name in t.groups && i < |t.groups[name].models|
    ensures name in rank
    ensures var v := Target(t, t.groups[name].models[i]);
            v != "" ==> v in t.groups && Edge(t, name, v) && v in rank && rank[v] < rank[name]
  {
    TargetIsGroup(t, t.groups[name].models[i]);
    var v := Target(t, t.groups[name].models[i]);
    assert v != "" ==> Edge(t, name, v);
  }

  /** The plan of a group from its first `n` entries. Leaves of unknown providers and unknown
      references are skipped. */
  ghost function PlanTo(t: Tables, providers: set<string>, rank: map<string, nat>, name: string, n: nat): PlanNode
    requires Accepted(t, rank) && name in t.groups && n <= |t.groups[name].models|
    decreases (assert name in rank; rank[name]), n
  {
    if n == 0 then PlanNode(name, t.groups[name].mode, 0, [], [], [])
    else
      var p := PlanTo(t, providers, rank, name, n - 1);
      var e := t.groups[name].models[n - 1];
      if IsLeaf(e) then
        if KeyOf(e).provider in providers
        then p.(leaves := p.leaves + [PlanLeaf(KeyOf(e), e.weight)], order := p.order + [OrderEntry(true, |p.leaves|)])
        else p
      else if Target(t, e) == "" then p
      else
        RefFalls(t, rank, name, n - 1);
        var child := PlanTo(t, providers, rank, Target(t, e), |t.groups[Target(t, e)].models|);
        p.(children := p.children + [child.(weight := e.weight)], order := p.order + [OrderEntry(false, |p.children|)])
  }

  ghost function PlanOf(t: Tables, providers: set<string>, rank: map<string, nat>, name: string): PlanNode
    requires Accepted(t, rank) && name in t.groups
  {
    PlanTo(t, providers, rank, name, |t.groups[name].models|)
  }

  // ---- what can be reached ----

  /** A provider model that some group reachable from `name` lists. */
  ghost predicate ReachesLeaf(t: Tables, name: string, key: LeafKey) {
    exists u :: Reaches(t, name, u) && Lists(t, u, key)
  }

  predicate Lists(t: Tables, u: string, key: LeafKey) {
    u in t.groups && exists i :: 0 <= i < |t.groups[u].models| && IsLeaf(t.groups[u].models[i]) && KeyOf(t.groups[u].models[i]) == key
  }

  /** ... by way of the entry itself. */
  ghost predicate EntryReaches(t: Tables, e: Entry, key: LeafKey) {
    if IsLeaf(e) then KeyOf(e) == key else Target(t, e) != "" && ReachesLeaf(t, Target(t, e), key)
  }

  ghost predicate FirstReach(t: Tables, name: string, n: nat, key: LeafKey)
    requires name in t.groups && n <= |t.groups[name].models|
  {
    exists i :: 0 <= i < n && EntryReaches(t, t.groups[name].models[i], key)
  }

  lemma ReachByEntries(t: Tables, name: string, key: LeafKey)
    requires name in t.groups
    ensures ReachesLeaf(t, name, key) <==> FirstReach(t, name, |t.groups[name].models|, key)
  {
    hide Reaches;
    var models := t.groups[name].models;
    if ReachesLeaf(t, name, key) {
      var u :| Reaches(t, name, u) && Lists(t, u, key);
      ReachesSplit(t, name, u);
      if u == name {
        var i :| 0 <= i < |models| && IsLeaf(models[i]) && KeyOf(models[i]) == key;
        assert EntryReaches(t, models[i], key);
      } else {
        var v :| Edge(t, name, v) && Reaches(t, v, u);
        var i :| 0 <= i < |models| && Target(t, models[i]) == v;
        assert ReachesLeaf(t, v, key);
        assert EntryReaches(t, models[i], key);
      }
    }
    if FirstReach(t, name, |models|, key) {
      var i :| 0 <= i < |models| && EntryReaches(t, models[i], key);
      if IsLeaf(models[i]) {
        WalkOne(t, name);
        assert Lists(t, name, key);
      } else {
        var v := Target(t, models[i]);
        assert Edge(t, name, v);
        var u :| Reaches(t, v, u) && Lists(t, u, key);
        WalkStep(t, name, v, u);
      }
    }
  }

  lemma FirstReachStep(t: Tables, name: string, n: nat, key: LeafKey)
    requires name in t.groups && n < |t.groups[name].models|
    ensures FirstReach(t, name, n + 1, key) <==> FirstReach(t, name, n, key) || EntryReaches(t, t.groups[name].models[n], key)
    ensures !FirstReach(t, name, 0, key)
  {
    hide EntryReaches;
  }

  // ---- the leaves of a plan ----

  function AllLeaves(p: PlanNode): seq<PlanLeaf> {
    p.leaves + LeavesOf(p.children)
  }

  function LeavesOf(ps: seq<PlanNode>): seq<PlanLeaf> {
    if ps == [] then [] else AllLeaves(ps[0]) + LeavesOf(ps[1..])
  }

  lemma {:induction false} LeavesSnoc(ps: seq<PlanNode>, p: PlanNode)
    ensures LeavesOf(ps + [p]) == LeavesOf(ps) + AllLeaves(p)
  {
    hide AllLeaves;
    if ps == [] {
      assert [] + [p] == [p] && [p][1..] == [];
      assert AllLeaves(p) + [] == AllLeaves(p) && [] + AllLeaves(p) == AllLeaves(p);
    } else {
      assert (ps + [p])[1..] == ps[1..] + [p];
      LeavesSnoc(ps[1..], p);
      assert AllLeaves(ps[0]) + (LeavesOf(ps[1..]) + AllLeaves(p)) == AllLeaves(ps[0]) + LeavesOf(ps[1..]) + AllLeaves(p);
    }
  }

  ghost predicate HasKey(ls: seq<PlanLeaf>, key: LeafKey) {
    exists i :: 0 <= i < |ls| && ls[i].key == key
  }

  lemma HasKeyConcat(a: seq<PlanLeaf>, b: seq<PlanLeaf>, key: LeafKey)
    ensures HasKey(a + b, key) <==> HasKey(a, key) || HasKey(b, key)
  {
    var c := a + b;
    if HasKey(a, key) {
      var i :| 0 <= i < |a| && a[i].key == key;
      assert c[i].key == key;
    }
    if HasKey(b, key) {
      var i :| 0 <= i < |b| && b[i].key == key;
      assert c[|a| + i].key == key;
    }
    if HasKey(c, key) {
      var i :| 0 <= i < |c| && c[i].key == key;
      assert if i < |a| then a[i].key == key else b[i - |a|].key == key;
    }
  }

  lemma {:induction false} PlanLeavesTo(t: Tables, providers: set<string>, rank: map<string, nat>, name: string, n: nat, key: LeafKey)
    requires Accepted(t, rank) && name in t.groups && n <= |t.groups[name].models|
    ensures HasKey(AllLeaves(PlanTo(t, providers, rank, name, n)), key) <==> key.provider in providers && FirstReach(t, name, n, key)
    decreases (assert name in rank; rank[name]), n
  {
    hide FirstReach, EntryReaches, HasKey, LeavesOf;
    var p := PlanTo(t, providers, rank, name, n);
    if n == 0 {
      NoLeaves(key);
      NoneReached(t, name, key);
      assert AllLeaves(p) == [];
    } else {
      var q := PlanTo(t, providers, rank, name, n - 1);
      var e := t.groups[name].models[n - 1];
      PlanLeavesTo(t, providers, rank, name, n - 1, key);
      FirstReachStep(t, name, n - 1, key);
      EntryCases(t, e, key);
      HasKeyConcat(q.leaves, LeavesOf(q.children), key);
      if IsLeaf(e) {
        if KeyOf(e).provider in providers {
          var l := PlanLeaf(KeyOf(e), e.weight);
          HasKeyConcat(q.leaves + [l], LeavesOf(q.children), key);
          HasKeyConcat(q.leaves, [l], key);
          OneLeaf(l, key);
        }
      } else if Target(t, e) != "" {
        RefFalls(t, rank, name, n - 1);
        var v := Target(t, e);
        var child := PlanOf(t, providers, rank, v).(weight := e.weight);
        PlanLeavesTo(t, providers, rank, v, |t.groups[v].models|, key);
        ReachByEntries(t, v, key);
        LeavesSnoc(q.children, child);
        assert AllLeaves(child) == AllLeaves(PlanOf(t, providers, rank, v));
        HasKeyConcat(q.leaves, LeavesOf(q.children) + AllLeaves(child), key);
        HasKeyConcat(LeavesOf(q.children), AllLeaves(child), key);
      }
    }
  }

  lemma NoLeaves(key: LeafKey)
    ensures LeavesOf([]) == [] && !HasKey([], key)
  {
  }

  lemma NoneReached(t: Tables, name: string, key: LeafKey)
    requires name in t.groups
    ensures !FirstReach(t, name, 0, key)
  {
  }

  lemma EntryCases(t: Tables, e: Entry, key: LeafKey)
    ensures EntryReaches(t, e, key) <==> if IsLeaf(e) then KeyOf(e) == key else Target(t, e) != "" && ReachesLeaf(t, Target(t, e), key)
  {
  }

  lemma OneLeaf(l: PlanLeaf, key: LeafKey)
    ensures HasKey([l], key) <==> l.key == key
  {
    assert [l][0] == l;
  }

  /** The leaves of a plan are exactly the provider models reachable from its group whose
      provider is known. */
  lemma PlanLeaves(t: Tables, providers: set<string>, rank: map<string, nat>, name: string, key: LeafKey)
    requires Accepted(t, rank) && name in t.groups
    ensures HasKey(AllLeaves(PlanOf(t, providers, rank, name)), key) <==> key.provider in providers && ReachesLeaf(t, name, key)
  {
    hide FirstReach, ReachesLeaf, HasKey, AllLeaves;
    PlanLeavesTo(t, providers, rank, name, |t.groups[name].models|, key);
    ReachByEntries(t, name, key);
  }

  ghost predicate AllKnown(t: Tables, providers: set<string>, name: string) {
    forall key :: ReachesLeaf(t, name, key) ==> key.provider in providers
  }

  function KeySet(ls: seq<PlanLeaf>): (r: set<LeafKey>)
    ensures forall key :: key in r <==> HasKey(ls, key)
  {
    set i | 0 <= i < |ls| :: ls[i].key
  }

  /** The provider models of the plan are all those reachable from its group exactly when every
      provider among these is known. */
  lemma PlanIsAllVisible(t: Tables, providers: set<string>, rank: map<string, nat>, name: string, visible: seq<LeafKey>)
    requires Accepted(t, rank) && name in t.groups
    requires forall key :: key in visible <==> ReachesLeaf(t, name, key)
    ensures KeySet(AllLeaves(PlanOf(t, providers, rank, name))) == Members(visible) <==> AllKnown(t, providers, name)
  {
    hide ReachesLeaf, HasKey, AllLeaves, PlanTo, Accepted;
    var ls := AllLeaves(PlanOf(t, providers, rank, name));
    forall key ensures key in KeySet(ls) <==> key in visible && key.provider in providers {
      PlanLeaves(t, providers, rank, name, key);
    }
  }

  // ---- running a plan ----

  /** A node as the scheduler runs it. */
  datatype RunNode =
    | RunLeaf(key: LeafKey, weight: int)
    | RunGroup(name: string, mode: string, weight: int, children: seq<RunNode>)

  function MergedAt(e: OrderEntry, leaves: seq<RunNode>, children: seq<RunNode>): seq<RunNode> {
    if e.isLeaf then if e.index < |leaves| then [leaves[e.index]] else []
    else if e.index < |children| then [children[e.index]] else []
  }

  function Merged(order: seq<OrderEntry>, leaves: seq<RunNode>, children: seq<RunNode>): seq<RunNode> {
    if order == [] then []
    else Merged(order[..|order| - 1], leaves, children) + MergedAt(order[|order| - 1], leaves, children)
  }

  /** Leaves and children put back into one list by the order noted when they were split. */
  method MergeByOrder(order: seq<OrderEntry>, leaves: seq<RunNode>, children: seq<RunNode>) returns (result: seq<RunNode>)
    ensures result == if order == [] then leaves + children else Merged(order, leaves, children)
  {
    if order == [] {
      return leaves + children;
    }
    result := [];
    for i := 0 to |order|
      invariant result == Merged(order[..i], leaves, children)
    {
      assert order[..i + 1][..i] == order[..i];
      if order[i].isLeaf {
        if order[i].index < |leaves| {
          result := result + [leaves[order[i].index]];
        }
      } else {
        if order[i].index < |children| {
          result := result + [children[order[i].index]];
        }
      }
    }
    assert order[..|order|] == order;
  }

  function RunLeaves(ls: seq<PlanLeaf>): (r: seq<RunNode>)
    ensures |r| == |ls| && forall i :: 0 <= i < |ls| ==> r[i] == RunLeaf(ls[i].key, ls[i].weight)
  {
    seq(|ls|, i requires 0 <= i < |ls| => RunLeaf(ls[i].key, ls[i].weight))
  }

  function RunAll(ps: seq<PlanNode>): (r: seq<RunNode>)
    ensures |r| == |ps|
  {
    if ps == [] then [] else RunAll(ps[..|ps| - 1]) + [Run(ps[|ps| - 1])]
  }

  function Run(p: PlanNode): RunNode {
    RunGroup(p.group, p.mode, p.weight,
             if p.order == [] then RunLeaves(p.leaves) + RunAll(p.children)
             else Merged(p.order, RunLeaves(p.leaves), RunAll(p.children)))
  }

  method MaterializeLeaves(ls: seq<PlanLeaf>) returns (r: seq<RunNode>)
    ensures r == RunLeaves(ls)
  {
    r := [];
    for i := 0 to |ls|
      invariant r == RunLeaves(ls[..i])
    {
      r := r + [RunLeaf(ls[i].key, ls[i].weight)];
    }
    assert ls[..|ls|] == ls;
  }

  method MaterializePlan(p: PlanNode) returns (r: RunNode)
    ensures r == Run(p)
    decreases p, 1
  {
    hide Merged, MergedAt;
    var leaves := MaterializeLeaves(p.leaves);
    var children := MaterializeChildren(p.children);
    var all := MergeByOrder(p.order, leaves, children);
    r := RunGroup(p.group, p.mode, p.weight, all);
  }

  method MaterializeChildren(ps: seq<PlanNode>) returns (r: seq<RunNode>)
    ensures r == RunAll(ps)
    decreases ps
  {
    hide Run;
    r := [];
    for i := 0 to |ps|
      invariant r == RunAll(ps[..i])
    {
      assert ps[..i + 1][..i] == ps[..i];
      var n := MaterializePlan(ps[i]);
      r := r + [n];
    }
    assert ps[..|ps|] == ps;
  }

  /** The tree as configured: the entries of a group in their order, leaves of unknown providers
      and unknown references left out, each reference replaced by its group's tree. */
  ghost function Configured(t: Tables, providers: set<string>, rank: map<string, nat>, name: string, n: nat): seq<RunNode>
    requires Accepted(t, rank) && name in t.groups && n <= |t.groups[name].models|
    decreases (assert name in rank; rank[name]), n
  {
    if n == 0 then []
    else
      var before := Configured(t, providers, rank, name, n - 1);
      var e := t.groups[name].models[n - 1];
      if IsLeaf(e) then before + (if KeyOf(e).provider in providers then [RunLeaf(KeyOf(e), e.weight)] else [])
      else if Target(t, e) == "" then before
      else
        RefFalls(t, rank, name, n - 1);
        var v := Target(t, e);
        before + [RunGroup(v, t.groups[v].mode, e.weight, Configured(t, providers, rank, v, |t.groups[v].models|))]
  }

  lemma {:induction false} MergedIgnoresMore(order: seq<OrderEntry>, a: seq<RunNode>, b: seq<RunNode>, x: seq<RunNode>, y: seq<RunNode>)
    requires forall i :: 0 <= i < |order| ==> order[i].index < if order[i].isLeaf then |a| else |b|
    ensures Merged(order, a + x, b + y) == Merged(order, a, b)
  {
    if order != [] {
      MergedIgnoresMore(order[..|order| - 1], a, b, x, y);
    }
  }

  lemma MergedSnoc(order: seq<OrderEntry>, e: OrderEntry, a: seq<RunNode>, b: seq<RunNode>)
    ensures Merged(order + [e], a, b) == Merged(order, a, b) + MergedAt(e, a, b)
  {
    assert (order + [e])[..|order|] == order && (order + [e])[|order|] == e;
  }

  lemma RunAllSnoc(ps: seq<PlanNode>, p: PlanNode)
    ensures RunAll(ps + [p]) == RunAll(ps) + [Run(p)]
  {
    hide Run;
    assert (ps + [p])[..|ps|] == ps && (ps + [p])[|ps|] == p;
  }

  predicate OrderFits(p: PlanNode) {
    && (forall i :: 0 <= i < |p.order| ==> p.order[i].index < if p.order[i].isLeaf then |p.leaves| else |p.children|)
    && (p.order == [] ==> p.leaves == [] && p.children == [])
  }

  function RunChildren(p: PlanNode): seq<RunNode> {
    Merged(p.order, RunLeaves(p.leaves), RunAll(p.children))
  }

  lemma AddLeaf(p: PlanNode, l: PlanLeaf)
    requires OrderFits(p)
    ensures var q := p.(leaves := p.leaves + [l], order := p.order + [OrderEntry(true, |p.leaves|)]);
            OrderFits(q) && RunChildren(q) == RunChildren(p) + [RunLeaf(l.key, l.weight)]
  {
    hide Merged, RunAll;
    var a, b := RunLeaves(p.leaves), RunAll(p.children);
    var x := [RunLeaf(l.key, l.weight)];
    assert RunLeaves(p.leaves + [l]) == a + x;
    MergedIgnoresMore(p.order, a, b, x, []);
    assert b + [] == b;
    MergedSnoc(p.order, OrderEntry(true, |p.leaves|), a + x, b);
  }

  lemma AddChild(p: PlanNode, c: PlanNode)
    requires OrderFits(p)
    ensures var q := p.(children := p.children + [c], order := p.order + [OrderEntry(false, |p.children|)]);
            OrderFits(q) && RunChildren(q) == RunChildren(p) + [Run(c)]
  {
    hide Merged, RunAll, Run;
    var a, b := RunLeaves(p.leaves), RunAll(p.children);
    RunAllSnoc(p.children, c);
    MergedIgnoresMore(p.order, a, b, [], [Run(c)]);
    assert a + [] == a;
    MergedSnoc(p.order, OrderEntry(false, |p.children|), a, b + [Run(c)]);
  }

  lemma RunOfFitting(p: PlanNode)
    requires OrderFits(p)
    ensures Run(p) == RunGroup(p.group, p.mode, p.weight, RunChildren(p))
  {
    hide RunAll;
    if p.order == [] {
      assert RunLeaves(p.leaves) + RunAll(p.children) == [];
    }
  }

  lemma {:induction false} PlanRunsTo(t: Tables, providers: set<string>, rank: map<string, nat>, name: string, n: nat)
    requires Accepted(t, rank) && name in t.groups && n <= |t.groups[name].models|
    ensures var p := PlanTo(t, providers, rank, name, n);
            && OrderFits(p) && RunChildren(p) == Configured(t, providers, rank, name, n)
            && p.group == name && p.mode == t.groups[name].mode && p.weight == 0
    decreases (assert name in rank; rank[name]), n
  {
    hide OrderFits, RunChildren, Run;
    if n == 0 {
      EmptyRuns(name, t.groups[name].mode);
    } else {
      var q := PlanTo(t, providers, rank, name, n - 1);
      var e := t.groups[name].models[n - 1];
      PlanRunsTo(t, providers, rank, name, n - 1);
      if IsLeaf(e) {
        AddLeaf(q, PlanLeaf(KeyOf(e), e.weight));
        assert RunChildren(q) + [] == RunChildren(q);
      } else if Target(t, e) != "" {
        RefFalls(t, rank, name, n - 1);
        var v := Target(t, e);
        PlanRunsTo(t, providers, rank, v, |t.groups[v].models|);
        var child := PlanOf(t, providers, rank, v);
        SameButWeight(child, e.weight);
        RunOfFitting(child.(weight := e.weight));
        AddChild(q, child.(weight := e.weight));
      }
    }
  }

  lemma EmptyRuns(name: string, mode: string)
    ensures var p := PlanNode(name, mode, 0, [], [], []); OrderFits(p) && RunChildren(p) == []
  {
  }

  lemma SameButWeight(p: PlanNode, w: int)
    ensures OrderFits(p) ==> OrderFits(p.(weight := w))
    ensures RunChildren(p.(weight := w)) == RunChildren(p)
  {
  }

  /** Splitting a group's entries into leaves and children and merging them again gives the tree
      as configured, each entry once and in its place. */
  lemma PlanRunsAsConfigured(t: Tables, providers: set<string>, rank: map<string, nat>, name: string)
    requires Accepted(t, rank) && name in t.groups
    ensures Run(PlanOf(t, providers, rank, name))
         == RunGroup(name, t.groups[name].mode, 0, Configured(t, providers, rank, name, |t.groups[name].models|))
  {
    hide Run, PlanTo, Configured, RunChildren, OrderFits;
    PlanRunsTo(t, providers, rank, name, |t.groups[name].models|);
    RunOfFitting(PlanOf(t, providers, rank, name));
  }
}
