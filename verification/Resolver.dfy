/** The model resolver: built from a configuration that passes all checks, it then answers every
    question about it without failing. */
module Resolver {
  import opened Collections
  import opened Wire
  import opened ModelConfig
  import opened Aliases
  import opened Plans
  import Cycles

  /** `stickyOk`: the sticky setting, if there is one, parses. */
  datatype GroupConfig = GroupConfig(name: string, mode: string, exposure: Option<Exposure>, models: seq<Entry>, contextLength: Option<int>,
                                     stickyOk: bool)

  /** `smart`: the names smart_route refers to, if it is configured. */
  datatype Config = Config(groups: seq<GroupConfig>, redirects: seq<Redirect>, providers: set<string>, smart: seq<string>)

  function DefOf(g: GroupConfig): GroupDef {
    GroupDef(g.name,
             if g.mode == "" then "failover" else if g.mode == "loadbalance" then "load-balance" else g.mode,
             if g.exposure.Some? then g.exposure.value else Public,
             g.models, g.contextLength)
  }

  /** The group table; of two groups with one name the later counts. */
  function GroupTable(gs: seq<GroupConfig>): map<string, GroupDef> {
    if gs == [] then map[]
    else
      var last := gs[|gs| - 1];
      GroupTable(gs[..|gs| - 1])[last.name := DefOf(last)]
  }

  predicate GroupNamesOk(gs: seq<GroupConfig>) {
    forall i :: 0 <= i < |gs| ==> '/' !in gs[i].name
  }

  predicate StickyOk(gs: seq<GroupConfig>) {
    forall i :: 0 <= i < |gs| ==> gs[i].stickyOk
  }

  /** Every reference without a slash is to a known group or redirect. */
  predicate RefsOk(t: Tables) {
    forall u :: u in t.groups ==> GroupRefsOk(t, u)
  }

  predicate GroupRefsOk(t: Tables, u: string)
    requires u in t.groups
  {
    forall i :: 0 <= i < |t.groups[u].models| && !IsLeaf(t.groups[u].models[i]) ==> ResolveName(t, t.groups[u].models[i].model) != ""
  }

  /** `t` is what the configuration stands for. */
  ghost predicate TablesFor(cfg: Config, t: Tables) {
    t.groups == GroupTable(cfg.groups) && TableFor(t.groups.Keys, cfg.redirects, t.redirects)
  }

  /** Groups and redirects are in order. */
  ghost predicate Valid(cfg: Config) {
    && GroupNamesOk(cfg.groups)
    && Buildable(GroupTable(cfg.groups).Keys, cfg.redirects)
    && forall t :: TablesFor(cfg, t) ==> RefsOk(t) && !Cyclic(t)
  }

  /** Each name is a known group or redirect. */
  predicate AllResolve(t: Tables, names: seq<string>) {
    forall i :: 0 <= i < |names| ==> ResolveName(t, names[i]) != ""
  }

  ghost predicate SmartOk(cfg: Config) {
    forall t :: TablesFor(cfg, t) ==> AllResolve(t, cfg.smart)
  }

  /** A configuration the resolver accepts. */
  ghost predicate Accepts(cfg: Config) {
    Valid(cfg) && StickyOk(cfg.groups) && SmartOk(cfg)
  }

  lemma EntryOnce(groups: set<string>, cfg: seq<Redirect>, s: string, d: RedirectDef, e: RedirectDef)
    requires EntryFor(groups, cfg, cfg, s, d) && EntryFor(groups, cfg, cfg, s, e)
    ensures d == e
  {
    hide Leads;
    var i :| 0 <= i < |cfg| && LastIn(cfg, i, s) && FromRedirect(groups, cfg, cfg[i], d);
    var j :| 0 <= j < |cfg| && LastIn(cfg, j, s) && FromRedirect(groups, cfg, cfg[j], e);
    assert i == j;
    LeadsOnce(groups, cfg, cfg[i].target, d.finalGroup, e.finalGroup);
  }

  /** A configuration stands for one pair of tables only. */
  lemma TablesOnce(cfg: Config, t: Tables, u: Tables)
    requires TablesFor(cfg, t) && TablesFor(cfg, u)
    ensures t == u
  {
    hide EntryFor;
    forall s | s in t.redirects ensures t.redirects[s] == u.redirects[s] {
      EntryOnce(t.groups.Keys, cfg.redirects, s, t.redirects[s], u.redirects[s]);
    }
    assert t.redirects == u.redirects;
  }

  method Normalize(g: GroupConfig) returns (d: GroupDef)
    ensures d == DefOf(g)
  {
    var exposure := Public;
    if g.exposure.Some? {
      exposure := g.exposure.value;
    }
    var mode := g.mode;
    if mode == "" {
      mode := "failover";
    }
    if mode == "loadbalance" {
      mode := "load-balance";
    }
    d := GroupDef(g.name, mode, exposure, g.models, g.contextLength);
  }

  method BuildGroups(gs: seq<GroupConfig>) returns (r: Option<map<string, GroupDef>>)
    ensures r == if GroupNamesOk(gs) && StickyOk(gs) then Some(GroupTable(gs)) else None
  {
    hide DefOf;
    var groups: map<string, GroupDef> := map[];
    for i := 0 to |gs|
      invariant GroupNamesOk(gs[..i]) && StickyOk(gs[..i]) && groups == GroupTable(gs[..i])
    {
      assert gs[..i + 1][..i] == gs[..i];
      if '/' in gs[i].name {
        assert !GroupNamesOk(gs);
        return None;
      }
      if !gs[i].stickyOk {
        assert !StickyOk(gs);
        return None;
      }
      var d := Normalize(gs[i]);
      groups := groups[gs[i].name := d];
    }
    assert gs[..|gs|] == gs;
    r := Some(groups);
  }

  /** Visits the groups in any order. */
  method ValidateGroupRefs(t: Tables) returns (ok: bool)
    ensures ok <==> RefsOk(t)
  {
    hide ResolveName;
    var names := t.groups.Keys;
    while names != {}
      invariant names <= t.groups.Keys
      invariant forall u :: u in t.groups && u !in names ==> GroupRefsOk(t, u)
      decreases names
    {
      var _ := Inhabited(names);
      var name :| name in names;
      var models := t.groups[name].models;
      for i := 0 to |models|
        invariant forall j :: 0 <= j < i && !IsLeaf(models[j]) ==> ResolveName(t, models[j].model) != ""
      {
        if !IsLeaf(models[i]) {
          if ResolveName(t, models[i].model) == "" {
            assert !GroupRefsOk(t, name);
            return false;
          }
        }
      }
      names := names - {name};
    }
    return true;
  }

  method CheckSmartRoute(t: Tables, names: seq<string>) returns (ok: bool)
    ensures ok <==> AllResolve(t, names)
  {
    hide ResolveName;
    for i := 0 to |names|
      invariant AllResolve(t, names[..i])
    {
      if ResolveName(t, names[i]) == "" {
        return false;
      }
    }
    assert names[..|names|] == names;
    ok := true;
  }

  /** Checks a configuration; succeeds exactly for an acceptable one. */
  method NewResolver(cfg: Config) returns (r: Resolver?)
    ensures r != null <==> Accepts(cfg)
    ensures r != null ==> fresh(r) && TablesFor(cfg, r.t) && r.providers == cfg.providers && r.Valid()
  {
    hide GroupTable, GroupNamesOk, StickyOk, AllResolve, Buildable, RefsOk, Cyclic, Closed, Ranked;
    r := null;
    var groups := BuildGroups(cfg.groups);
    if groups.None? {
      return;
    }
    var redirects := BuildRedirects(groups.value.Keys, cfg.redirects);
    if redirects.None? {
      return;
    }
    var t := Tables(groups.value, redirects.value);
    assert TablesFor(cfg, t);
    OnlyTables(cfg, t);
    var ok := ValidateGroupRefs(t);
    if !ok {
      return;
    }
    var search := new Cycles.Search(t);
    var err := search.Detect();
    if err.Some? {
      return;
    }
    var smart := CheckSmartRoute(t, cfg.smart);
    if !smart {
      return;
    }
    TableIsClosed(groups.value, cfg.redirects, redirects.value);
    r := new Resolver(t, cfg.providers, search.rank);
  }

  lemma OnlyTables(cfg: Config, t: Tables)
    requires TablesFor(cfg, t)
    ensures forall u :: TablesFor(cfg, u) ==> u == t
  {
    hide TablesFor;
    forall u | TablesFor(cfg, u) ensures u == t {
      TablesOnce(cfg, t, u);
    }
  }

  // ---- questions ----

  predicate DirectCallable(e: Exposure) {
    e == Public || e == Hidden
  }

  /** A name a caller may use: a group or redirect that is not internal. */
  predicate Callable(t: Tables, name: string, allowInternal: bool) {
    if name in t.groups then allowInternal || DirectCallable(t.groups[name].exposure)
    else name in t.redirects && (allowInternal || DirectCallable(t.redirects[name].exposure))
  }

  function FinalGroup(t: Tables, name: string): string {
    if name !in t.groups && name in t.redirects then t.redirects[name].finalGroup else name
  }

  datatype Resolution =
    | NotFound
    | NoValidProvider
    | Resolved(mode: string, group: string, plan: PlanNode, tasks: seq<PlanLeaf>)

  predicate HasAnyLeaf(p: PlanNode) {
    p.leaves != [] || exists i :: 0 <= i < |p.children| && HasAnyLeaf(p.children[i])
  }

  lemma {:induction false} AnyLeaf(p: PlanNode)
    ensures HasAnyLeaf(p) <==> AllLeaves(p) != []
    decreases p, 1
  {
    AnyOf(p.children);
  }

  lemma {:induction false} AnyOf(ps: seq<PlanNode>)
    ensures (exists i :: 0 <= i < |ps| && HasAnyLeaf(ps[i])) <==> LeavesOf(ps) != []
    decreases ps, 0
  {
    hide HasAnyLeaf, AllLeaves;
    if ps != [] {
      AnyLeaf(ps[0]);
      AnyOf(ps[1..]);
      assert forall i :: 0 <= i < |ps[1..]| ==> ps[1..][i] == ps[i + 1];
      if exists i :: 0 <= i < |ps| && HasAnyLeaf(ps[i]) {
        var i :| 0 <= i < |ps| && HasAnyLeaf(ps[i]);
        assert i > 0 ==> HasAnyLeaf(ps[1..][i - 1]);
      }
    }
  }

  method CollectLeaves(node: PlanNode, tasks: seq<PlanLeaf>) returns (r: seq<PlanLeaf>)
    ensures r == tasks + AllLeaves(node)
  {
    r := tasks + node.leaves;
    assert LeavesOf(node.children[..0]) == [];
    for i := 0 to |node.children|
      invariant r == tasks + node.leaves + LeavesOf(node.children[..i])
    {
      assert node.children[..i + 1] == node.children[..i] + [node.children[i]];
      LeavesSnoc(node.children[..i], node.children[i]);
      r := CollectLeaves(node.children[i], r);
    }
    assert node.children[..|node.children|] == node.children;
  }

  // ---- context lengths ----

  function Least(a: Option<int>, b: Option<int>): Option<int> {
    if a.None? then b else if b.None? then a
    else Some(if b.value < a.value then b.value else a.value)
  }

  function LeastOf(xs: seq<int>): Option<int> {
    if xs == [] then None else Least(LeastOf(xs[..|xs| - 1]), Some(xs[|xs| - 1]))
  }

  function Positive(n: Option<int>): Option<int> {
    if n.Some? && n.value > 0 then n else None
  }

  /** The smallest positive length below the first `n` entries of a group: what is known of a provider
      model, what is set for a group, and for a group without a setting the smallest below it. */
  ghost function Smallest(t: Tables, rank: map<string, nat>, lookup: LeafKey -> Option<int>, name: string, n: nat): Option<int>
    requires Accepted(t, rank) && name in t.groups && n <= |t.groups[name].models|
    decreases (assert name in rank; rank[name]), n
  {
    if n == 0 then None
    else
      var before := Smallest(t, rank, lookup, name, n - 1);
      var e := t.groups[name].models[n - 1];
      if IsLeaf(e) then Least(before, Positive(lookup(KeyOf(e))))
      else if Target(t, e) == "" then before
      else
        RefFalls(t, rank, name, n - 1);
        var v := Target(t, e);
        Least(before, if t.groups[v].contextLength.Some? then Positive(t.groups[v].contextLength)
                      else Smallest(t, rank, lookup, v, |t.groups[v].models|))
  }

  lemma LeastSnoc(xs: seq<int>, x: int)
    ensures LeastOf(xs + [x]) == Least(LeastOf(xs), Some(x))
  {
    assert (xs + [x])[..|xs|] == xs && (xs + [x])[|xs|] == x;
  }

  lemma {:induction false} LeastAlready(xs: seq<int>, x: int)
    requires x in xs
    ensures Least(LeastOf(xs), Some(x)) == LeastOf(xs)
  {
    var p, last := xs[..|xs| - 1], xs[|xs| - 1];
    assert xs == p + [last];
    if x in p {
      LeastAlready(p, x);
    }
  }

  lemma LeastGroups(a: Option<int>, b: Option<int>, c: Option<int>)
    ensures Least(Least(a, b), c) == Least(a, Least(b, c))
    ensures Least(a, None) == a
  {
  }

  class Resolver {
    const t: Tables
    const providers: set<string>
    ghost const rank: map<string, nat>

    ghost predicate Valid()
    {
      Accepted(t, rank)
    }

    constructor (tables: Tables, known: set<string>, ghost ranks: map<string, nat>)
      ensures t == tables && providers == known && rank == ranks
    {
      t, providers, rank := tables, known, ranks;
    }

    method BuildPlanNode(name: string) returns (r: Option<PlanNode>)
      requires Valid()
      ensures r == if name in t.groups then Some(PlanOf(t, providers, rank, name)) else None
      decreases if name in rank then rank[name] else 0
    {
      hide Accepted;
      if name !in t.groups {
        return None;
      }
      var models := t.groups[name].models;
      var node := PlanNode(name, t.groups[name].mode, 0, [], [], []);
      for i := 0 to |models|
        invariant node == PlanTo(t, providers, rank, name, i)
      {
        RefFalls(t, rank, name, i);
        if IsLeaf(models[i]) {
          var key := KeyOf(models[i]);
          if key.provider !in providers {
            continue;
          }
          node := node.(order := node.order + [OrderEntry(true, |node.leaves|)],
                        leaves := node.leaves + [PlanLeaf(key, models[i].weight)]);
        } else {
          var target := ResolveName(t, models[i].model);
          if target == "" {
            continue;
          }
          var child := BuildPlanNode(target);
          if child.None? {
            return None;
          }
          node := node.(order := node.order + [OrderEntry(false, |node.children|)],
                        children := node.children + [child.value.(weight := models[i].weight)]);
        }
      }
      r := Some(node);
    }

    /** Resolution never fails for a name that may be called, unless no known provider is reachable. */
    method ResolveByName(userModel: string, allowInternal: bool) returns (r: Resolution)
      requires Valid()
      ensures r == NotFound <==> !Callable(t, userModel, allowInternal)
      ensures r == NoValidProvider <==>
                Callable(t, userModel, allowInternal)
                && forall key :: ReachesLeaf(t, FinalGroup(t, userModel), key) ==> key.provider !in providers
      ensures r.Resolved? ==>
                && FinalGroup(t, userModel) in t.groups
                && r.group == FinalGroup(t, userModel) && r.mode == t.groups[r.group].mode
                && r.plan == PlanOf(t, providers, rank, r.group) && r.tasks == AllLeaves(r.plan)
    {
      hide ReachesLeaf, PlanTo, AllLeaves, HasAnyLeaf;
      var group := userModel;
      if userModel in t.groups {
        if !allowInternal && !DirectCallable(t.groups[userModel].exposure) {
          return NotFound;
        }
      } else {
        if userModel !in t.redirects {
          return NotFound;
        }
        if !allowInternal && !DirectCallable(t.redirects[userModel].exposure) {
          return NotFound;
        }
        group := t.redirects[userModel].finalGroup;
      }
      assert group in t.groups;
      var plan := BuildPlanNode(group);
      AnyLeaf(plan.value);
      LeavesKnown(group);
      if !HasAnyLeaf(plan.value) {
        return NoValidProvider;
      }
      var tasks := FlattenTasks(plan.value);
      r := Resolved(t.groups[group].mode, group, plan.value, tasks);
    }

    lemma LeavesKnown(group: string)
      requires Valid() && group in t.groups
      ensures AllLeaves(PlanOf(t, providers, rank, group)) == [] <==>
              forall key :: ReachesLeaf(t, group, key) ==> key.provider !in providers
    {
      hide ReachesLeaf, PlanTo, AllLeaves;
      var ls := AllLeaves(PlanOf(t, providers, rank, group));
      forall key ensures HasKey(ls, key) <==> key.provider in providers && ReachesLeaf(t, group, key) {
        PlanLeaves(t, providers, rank, group, key);
      }
      if ls != [] {
        assert HasKey(ls, ls[0].key);
      }
    }

    /** The root's own leaves, then those of its children. */
    method FlattenTasks(plan: PlanNode) returns (tasks: seq<PlanLeaf>)
      ensures tasks == AllLeaves(plan)
    {
      tasks := plan.leaves;
      assert LeavesOf(plan.children[..0]) == [];
      for i := 0 to |plan.children|
        invariant tasks == plan.leaves + LeavesOf(plan.children[..i])
      {
        assert plan.children[..i + 1] == plan.children[..i] + [plan.children[i]];
        LeavesSnoc(plan.children[..i], plan.children[i]);
        tasks := CollectLeaves(plan.children[i], tasks);
      }
      assert plan.children[..|plan.children|] == plan.children;
    }

    ghost predicate SameSet(seen: set<LeafKey>, result: seq<LeafKey>) {
      && (forall key :: key in seen <==> key in result)
      && (forall i, j :: 0 <= i < j < |result| ==> result[i] != result[j])
    }

    /** Adds every provider model reachable from the group that is not there yet. */
    method CollectGroupLeaves(name: string, seen0: set<LeafKey>, result0: seq<LeafKey>) returns (seen: set<LeafKey>, result: seq<LeafKey>)
      requires Valid() && SameSet(seen0, result0)
      ensures SameSet(seen, result)
      ensures forall key :: key in seen <==> key in seen0 || (name in t.groups && ReachesLeaf(t, name, key))
      decreases if name in rank then rank[name] else 0
    {
      hide Accepted, ReachesLeaf, FirstReach;
      seen, result := seen0, result0;
      if name !in t.groups {
        return;
      }
      var models := t.groups[name].models;
      forall key ensures !FirstReach(t, name, 0, key) {
        NoneReached(t, name, key);
      }
      for i := 0 to |models|
        invariant SameSet(seen, result)
        invariant forall key :: key in seen <==> key in seen0 || FirstReach(t, name, i, key)
      {
        RefFalls(t, rank, name, i);
        forall key ensures FirstReach(t, name, i + 1, key) <==> FirstReach(t, name, i, key) || EntryReaches(t, models[i], key) {
          FirstReachStep(t, name, i, key);
        }
        if IsLeaf(models[i]) {
          var key := KeyOf(models[i]);
          if key !in seen {
            seen := seen + {key};
            result := result + [key];
          }
        } else {
          var target := ResolveName(t, models[i].model);
          if target != "" {
            seen, result := CollectGroupLeaves(target, seen, result);
          }
        }
      }
      forall key ensures ReachesLeaf(t, name, key) <==> FirstReach(t, name, |models|, key) {
        ReachByEntries(t, name, key);
      }
    }

    /** The provider models behind a visible name, each once. */
    method VisibleModelLeaves(userModel: string) returns (r: Option<seq<LeafKey>>)
      requires Valid()
      ensures r.Some? <==> Callable(t, userModel, false)
      ensures r.Some? ==> forall i, j :: 0 <= i < j < |r.value| ==> r.value[i] != r.value[j]
      ensures r.Some? ==> forall key :: key in r.value <==> ReachesLeaf(t, FinalGroup(t, userModel), key)
      ensures r.Some? ==>
                var group := FinalGroup(t, userModel);
                && group in t.groups
                && (KeySet(AllLeaves(PlanOf(t, providers, rank, group))) == Members(r.value) <==> AllKnown(t, providers, group))
    {
      hide ReachesLeaf, Reaches, AllLeaves, PlanTo, KeySet, AllKnown;
      var group := userModel;
      if userModel in t.groups {
        if !DirectCallable(t.groups[userModel].exposure) {
          return None;
        }
      } else {
        if userModel !in t.redirects {
          return None;
        }
        if !DirectCallable(t.redirects[userModel].exposure) {
          return None;
        }
        group := t.redirects[userModel].finalGroup;
      }
      assert group in t.groups;
      var seen, result := CollectGroupLeaves(group, {}, []);
      PlanIsAllVisible(t, providers, rank, group, result);
      r := Some(result);
    }

    /** Adds the lengths below a group that are not there yet; only the least of them matters. */
    method CollectLengths(name: string, lookup: LeafKey -> Option<int>, seen0: set<int>, result0: seq<int>)
      returns (seen: set<int>, result: seq<int>)
      requires Valid() && forall x :: x in seen0 <==> x in result0
      ensures forall x :: x in seen <==> x in result
      ensures LeastOf(result) == if name in t.groups
                                 then Least(LeastOf(result0), Smallest(t, rank, lookup, name, |t.groups[name].models|))
                                 else LeastOf(result0)
      decreases if name in rank then rank[name] else 0
    {
      hide Accepted, Least, LeastOf;
      seen, result := seen0, result0;
      if name !in t.groups {
        return;
      }
      var models := t.groups[name].models;
      LeastGroups(LeastOf(result0), None, None);
      for i := 0 to |models|
        invariant forall x :: x in seen <==> x in result
        invariant LeastOf(result) == Least(LeastOf(result0), Smallest(t, rank, lookup, name, i))
      {
        RefFalls(t, rank, name, i);
        var before := LeastOf(result);
        if IsLeaf(models[i]) {
          var cl := lookup(KeyOf(models[i]));
          seen, result := AddLength(cl, seen, result);
          LeastGroups(LeastOf(result0), Smallest(t, rank, lookup, name, i), Positive(cl));
        } else {
          var target := ResolveName(t, models[i].model);
          if target == "" {
            continue;
          }
          if target !in t.groups {
            continue;
          }
          var setting := t.groups[target].contextLength;
          if setting.Some? {
            seen, result := AddLength(setting, seen, result);
            LeastGroups(LeastOf(result0), Smallest(t, rank, lookup, name, i), Positive(setting));
            continue;
          }
          seen, result := CollectLengths(target, lookup, seen, result);
          LeastGroups(LeastOf(result0), Smallest(t, rank, lookup, name, i), Smallest(t, rank, lookup, target, |t.groups[target].models|));
        }
      }
    }

    method AddLength(cl: Option<int>, seen0: set<int>, result0: seq<int>) returns (seen: set<int>, result: seq<int>)
      requires forall x :: x in seen0 <==> x in result0
      ensures forall x :: x in seen <==> x in result
      ensures LeastOf(result) == Least(LeastOf(result0), Positive(cl))
    {
      hide Least, LeastOf;
      seen, result := seen0, result0;
      LeastGroups(LeastOf(result0), None, None);
      if cl.Some? && cl.value > 0 {
        if cl.value !in seen {
          LeastSnoc(result, cl.value);
          seen := seen + {cl.value};
          result := result + [cl.value];
        } else {
          LeastAlready(result, cl.value);
        }
      }
    }

    /** The context length of a name: what is set for its group, or else the smallest below it. */
    method ResolveContextLength(userModel: string, lookup: LeafKey -> Option<int>) returns (r: Option<int>)
      requires Valid()
      ensures var g := FinalGroup(t, userModel);
              r == if g !in t.groups then None
                   else if t.groups[g].contextLength.Some? then t.groups[g].contextLength
                   else Smallest(t, rank, lookup, g, |t.groups[g].models|)
    {
      hide Accepted, Smallest;
      var group := FinalGroup(t, userModel);
      if group in t.groups && t.groups[group].contextLength.Some? {
        return t.groups[group].contextLength;
      }
      var seen, candidates := CollectLengths(group, lookup, {}, []);
      LeastNone();
      if candidates == [] {
        return None;
      }
      var least := candidates[0];
      LeastSnoc([], candidates[0]);
      assert [] + [candidates[0]] == candidates[..1];
      for i := 1 to |candidates|
        invariant LeastOf(candidates[..i]) == Some(least)
      {
        LeastSnoc(candidates[..i], candidates[i]);
        assert candidates[..i + 1] == candidates[..i] + [candidates[i]];
        if candidates[i] < least {
          least := candidates[i];
        }
      }
      assert candidates[..|candidates|] == candidates;
      r := Some(least);
    }

    lemma LeastNone()
      ensures LeastOf([]) == None
      ensures forall x :: Least(None, x) == x
    {
    }
  }
}
