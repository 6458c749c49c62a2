/** What editing groups does to resolution: a rename changes no answer but the name, and a group can be
    deleted exactly when the configuration stays valid without it. */
module RenameResolves {
  import opened Wire
  import opened ModelConfig
  import opened Aliases
  import opened R = Resolver
  import opened Plans
  import opened GroupEdits
  import Responses

  // ---- renaming tables ----

  /** `new_` is a name nothing has yet, and fit to be one. */
  predicate FreshName(cfg: R.Config, old_: string, new_: string) {
    && '/' !in new_ && new_ != "" && new_ != old_
    && !HasGroup(cfg.groups, new_) && !HasSource(cfg.redirects, new_)
  }

  lemma GroupInTable(gs: seq<GroupConfig>, n: string)
    ensures n in GroupTable(gs) <==> HasGroup(gs, n)
    decreases |gs|
  {
    hide DefOf;
    if gs != [] {
      var p, last := gs[..|gs| - 1], gs[|gs| - 1];
      assert gs == p + [last];
      GroupInTable(p, n);
      HasGroupSnoc(p, last, n);
    }
  }

  lemma {:induction false} TableAt(gs: seq<GroupConfig>, i: nat)
    requires i < |gs| && DistinctNames(gs)
    ensures gs[i].name in GroupTable(gs) && GroupTable(gs)[gs[i].name] == DefOf(gs[i])
  {
    hide DefOf;
    var p, last := gs[..|gs| - 1], gs[|gs| - 1];
    if i < |p| {
      assert forall j :: 0 <= j < |p| ==> p[j] == gs[j];
      TableAt(p, i);
      assert gs[i].name != gs[|gs| - 1].name;
    }
  }

  /** The tables of a configuration and of its edit, name for name: `f` carries a name over. */
  ghost predicate Carried(t: Tables, u: Tables, old_: string, new_: string) {
    && old_ in t.groups && new_ !in t.groups && new_ !in t.redirects && new_ != "" && '/' !in new_
    && (forall n :: n in u.groups <==> (n == new_ || (n in t.groups && n != old_)))
    && (forall n :: n in t.groups ==> u.groups[Renamed(n, old_, new_)].models == RenameEntries(t.groups[n].models, old_, new_))
    && u.redirects.Keys == t.redirects.Keys
    && (forall s :: s in t.redirects ==> u.redirects[s].finalGroup == Renamed(t.redirects[s].finalGroup, old_, new_))
    && old_ !in t.redirects && old_ != ""
  }

  lemma CarriedName(t: Tables, u: Tables, old_: string, new_: string, name: string)
    requires Carried(t, u, old_, new_) && ResolveName(t, name) != ""
    ensures ResolveName(u, Renamed(name, old_, new_)) == Renamed(ResolveName(t, name), old_, new_)
  {
  }

  lemma CarriedEntry(t: Tables, u: Tables, old_: string, new_: string, e: Entry)
    requires Carried(t, u, old_, new_) && (!IsLeaf(e) ==> ResolveName(t, e.model) != "")
    ensures IsLeaf(RenameEntry(e, old_, new_)) == IsLeaf(e)
    ensures IsLeaf(e) ==> RenameEntry(e, old_, new_) == e
    ensures Target(u, RenameEntry(e, old_, new_)) == Renamed(Target(t, e), old_, new_)
  {
    hide Carried;
    if !IsLeaf(e) {
      NewIsPlain(t, u, old_, new_);
      CarriedName(t, u, old_, new_, e.model);
    } else {
      NewIsPlain(t, u, old_, new_);
    }
  }

  lemma NewIsPlain(t: Tables, u: Tables, old_: string, new_: string)
    requires Carried(t, u, old_, new_)
    ensures '/' !in new_ && old_ != ""
  {
  }

  // ---- the graph of references is carried over ----

  function Inverse(name: string, old_: string, new_: string): string {
    if name == new_ then old_ else name
  }

  lemma EdgeCarried(t: Tables, u: Tables, old_: string, new_: string, a: string, b: string)
    requires Carried(t, u, old_, new_) && RefsOk(t) && a in t.groups
    ensures Edge(t, a, b) ==> Edge(u, Renamed(a, old_, new_), Renamed(b, old_, new_))
  {
    if Edge(t, a, b) {
      var i :| 0 <= i < |t.groups[a].models| && Target(t, t.groups[a].models[i]) == b;
      assert GroupRefsOk(t, a);
      EntryAt(t, u, old_, new_, a, i);
    }
  }

  lemma EntryAt(t: Tables, u: Tables, old_: string, new_: string, a: string, i: nat)
    requires Carried(t, u, old_, new_) && RefsOk(t) && a in t.groups && i < |t.groups[a].models|
    ensures var e := t.groups[a].models[i];
            && Renamed(a, old_, new_) in u.groups && |u.groups[Renamed(a, old_, new_)].models| == |t.groups[a].models|
            && var f := u.groups[Renamed(a, old_, new_)].models[i];
               IsLeaf(f) == IsLeaf(e) && (IsLeaf(e) ==> f == e) && Target(u, f) == Renamed(Target(t, e), old_, new_)
  {
    hide Target, ResolveName;
    assert GroupRefsOk(t, a);
    CarriedEntry(t, u, old_, new_, t.groups[a].models[i]);
  }

  /** Every edge of the edited graph comes from one of the original. */
  lemma EdgeComesFrom(t: Tables, u: Tables, old_: string, new_: string, a: string, y: string)
    requires Carried(t, u, old_, new_) && RefsOk(t) && Closed(t) && a in t.groups && Edge(u, Renamed(a, old_, new_), y)
    ensures Edge(t, a, Inverse(y, old_, new_)) && y == Renamed(Inverse(y, old_, new_), old_, new_) && Inverse(y, old_, new_) in t.groups
  {
    var x := Renamed(a, old_, new_);
    var i :| 0 <= i < |u.groups[x].models| && Target(u, u.groups[x].models[i]) == y;
    EntryAt(t, u, old_, new_, a, i);
    var b := Target(t, t.groups[a].models[i]);
    TargetIsGroup(t, t.groups[a].models[i]);
    assert b != "" ==> Inverse(Renamed(b, old_, new_), old_, new_) == b;
  }

  lemma ListsCarried(t: Tables, u: Tables, old_: string, new_: string, a: string, key: LeafKey)
    requires Carried(t, u, old_, new_) && RefsOk(t) && a in t.groups
    ensures Lists(t, a, key) <==> Lists(u, Renamed(a, old_, new_), key)
  {
    hide KeyOf, Target;
    var x := Renamed(a, old_, new_);
    if Lists(t, a, key) {
      var i :| 0 <= i < |t.groups[a].models| && IsLeaf(t.groups[a].models[i]) && KeyOf(t.groups[a].models[i]) == key;
      EntryAt(t, u, old_, new_, a, i);
    }
    if Lists(u, x, key) {
      var i :| 0 <= i < |u.groups[x].models| && IsLeaf(u.groups[x].models[i]) && KeyOf(u.groups[x].models[i]) == key;
      SameLength(t, u, old_, new_, a);
      EntryAt(t, u, old_, new_, a, i);
    }
  }

  lemma SameLength(t: Tables, u: Tables, old_: string, new_: string, a: string)
    requires Carried(t, u, old_, new_) && a in t.groups
    ensures Renamed(a, old_, new_) in u.groups && |u.groups[Renamed(a, old_, new_)].models| == |t.groups[a].models|
  {
  }

  lemma EdgeFromGroup(t: Tables, a: string, b: string)
    requires Edge(t, a, b) && Closed(t)
    ensures a in t.groups && b in t.groups
  {
    var i :| 0 <= i < |t.groups[a].models| && Target(t, t.groups[a].models[i]) == b;
    TargetIsGroup(t, t.groups[a].models[i]);
  }

  lemma {:induction false} WalkCarried(t: Tables, u: Tables, old_: string, new_: string, p: seq<string>)
    requires Carried(t, u, old_, new_) && RefsOk(t) && Closed(t) && Walk(t, p) && p[0] in t.groups
    ensures p[|p| - 1] in t.groups
    ensures Reaches(u, Renamed(p[0], old_, new_), Renamed(p[|p| - 1], old_, new_))
    decreases |p|
  {
    hide Edge, Carried, RefsOk, Closed;
    if |p| == 1 {
      WalkOne(u, Renamed(p[0], old_, new_));
    } else {
      assert Edge(t, p[0], p[0 + 1]);
      EdgeCarried(t, u, old_, new_, p[0], p[1]);
      EdgeFromGroup(t, p[0], p[1]);
      WalkTail(t, p);
      WalkCarried(t, u, old_, new_, p[1..]);
      WalkStep(u, Renamed(p[0], old_, new_), Renamed(p[1], old_, new_), Renamed(p[|p| - 1], old_, new_));
    }
  }

  lemma {:induction false} WalkComesFrom(t: Tables, u: Tables, old_: string, new_: string, a: string, p: seq<string>)
    requires Carried(t, u, old_, new_) && RefsOk(t) && Closed(t) && Walk(u, p) && a in t.groups && p[0] == Renamed(a, old_, new_)
    ensures var b := Inverse(p[|p| - 1], old_, new_);
            b in t.groups && p[|p| - 1] == Renamed(b, old_, new_) && Reaches(t, a, b)
    decreases |p|
  {
    hide Edge, RefsOk, Closed;
    if |p| == 1 {
      WalkOne(t, a);
    } else {
      assert Edge(u, p[0], p[0 + 1]);
      EdgeComesFrom(t, u, old_, new_, a, p[1]);
      WalkTail(u, p);
      WalkComesFrom(t, u, old_, new_, Inverse(p[1], old_, new_), p[1..]);
      WalkStep(t, a, Inverse(p[1], old_, new_), Inverse(p[|p| - 1], old_, new_));
    }
  }

  /** The same provider models are reachable, under the new name. */
  lemma LeavesCarried(t: Tables, u: Tables, old_: string, new_: string, a: string, key: LeafKey)
    requires Carried(t, u, old_, new_) && RefsOk(t) && Closed(t) && a in t.groups
    ensures ReachesLeaf(t, a, key) <==> ReachesLeaf(u, Renamed(a, old_, new_), key)
  {
    hide Edge, Carried, RefsOk, Closed, Lists;
    if ReachesLeaf(t, a, key) {
      var b :| Reaches(t, a, b) && Lists(t, b, key);
      var p :| Walk(t, p) && p[0] == a && p[|p| - 1] == b;
      WalkCarried(t, u, old_, new_, p);
      ListsCarried(t, u, old_, new_, b, key);
    }
    if ReachesLeaf(u, Renamed(a, old_, new_), key) {
      var y :| Reaches(u, Renamed(a, old_, new_), y) && Lists(u, y, key);
      var p :| Walk(u, p) && p[0] == Renamed(a, old_, new_) && p[|p| - 1] == y;
      WalkComesFrom(t, u, old_, new_, a, p);
      ListsCarried(t, u, old_, new_, Inverse(y, old_, new_), key);
    }
  }

  lemma LoopFromBack(t: Tables, a: string, b: string)
    requires Edge(t, a, b) && Reaches(t, b, a)
    ensures Cyclic(t)
  {
    hide Edge;
    var p :| Walk(t, p) && p[0] == b && p[|p| - 1] == a;
    var q := [a] + p;
    assert forall i :: 1 <= i < |q| ==> q[i] == p[i - 1];
    assert Loop(t, q);
  }

  lemma LoopGoesBack(t: Tables, p: seq<string>)
    requires Loop(t, p)
    ensures Edge(t, p[0], p[1]) && Reaches(t, p[1], p[0])
  {
    hide Edge;
    assert Edge(t, p[0], p[0 + 1]);
    WalkTail(t, p);
    assert p[1..][0] == p[1] && p[1..][|p| - 2] == p[0];
  }

  lemma StillAcyclic(t: Tables, u: Tables, old_: string, new_: string)
    requires Carried(t, u, old_, new_) && RefsOk(t) && Closed(t) && !Cyclic(t)
    ensures !Cyclic(u)
  {
    hide Edge, RefsOk, Closed;
    forall p ensures !Loop(u, p) {
      if Loop(u, p) {
        LoopGoesBack(u, p);
        SourceIsGroup(u, p[0], p[1]);
        var a := Inverse(p[0], old_, new_);
        assert a in t.groups && p[0] == Renamed(a, old_, new_);
        EdgeComesFrom(t, u, old_, new_, a, p[1]);
        var q :| Walk(u, q) && q[0] == p[1] && q[|q| - 1] == p[0];
        WalkComesFrom(t, u, old_, new_, Inverse(p[1], old_, new_), q);
        LoopFromBack(t, a, Inverse(p[1], old_, new_));
      }
    }
  }

  lemma SourceIsGroup(t: Tables, a: string, b: string)
    requires Edge(t, a, b)
    ensures a in t.groups
  {
  }

  lemma RefsStillOk(t: Tables, u: Tables, old_: string, new_: string)
    requires Carried(t, u, old_, new_) && RefsOk(t)
    ensures RefsOk(u)
  {
    hide ResolveName, Target;
    forall x | x in u.groups ensures GroupRefsOk(u, x) {
      var a := Inverse(x, old_, new_);
      assert a in t.groups && Renamed(a, old_, new_) == x;
      assert GroupRefsOk(t, a);
      SameLength(t, u, old_, new_, a);
      forall i | 0 <= i < |u.groups[x].models| && !IsLeaf(u.groups[x].models[i]) ensures ResolveName(u, u.groups[x].models[i].model) != "" {
        EntryAt(t, u, old_, new_, a, i);
        PlainTarget(t, t.groups[a].models[i]);
        PlainTarget(u, u.groups[x].models[i]);
      }
    }
  }

  lemma PlainTarget(t: Tables, e: Entry)
    ensures !IsLeaf(e) ==> Target(t, e) == ResolveName(t, e.model)
  {
  }

  // ---- from the edited configuration ----

  /** The configuration after a rename that keeps the group's models. */
  function Edited(cfg: R.Config, old_: string, g: GroupConfig): R.Config {
    cfg.(groups := RenameInGroups(Replace(cfg.groups, old_, g), old_, g.name),
         redirects := RenameRedirects(cfg.redirects, old_, g.name))
  }

  /** What is asked of a rename: distinct names, a fresh new one, and the group's models unchanged. */
  predicate Renames(cfg: R.Config, old_: string, g: GroupConfig, at: nat) {
    && DistinctNames(cfg.groups) && at < |cfg.groups| && cfg.groups[at].name == old_ && old_ != ""
    && FreshName(cfg, old_, g.name) && g.models == cfg.groups[at].models
  }

  lemma EditedGroups(cfg: R.Config, old_: string, g: GroupConfig, at: nat)
    requires Renames(cfg, old_, g, at)
    ensures var gs := Edited(cfg, old_, g).groups;
            && |gs| == |cfg.groups| && gs[at] == g
            && (forall i :: 0 <= i < |gs| && i != at ==>
                  gs[i].name == cfg.groups[i].name && gs[i].name != g.name && gs[i].models == RenameEntries(cfg.groups[i].models, old_, g.name)
                  && gs[i].stickyOk == cfg.groups[i].stickyOk)
            && DistinctNames(gs)
  {
    var gs := cfg.groups;
    forall j | 0 <= j < at ensures gs[j].name != old_ {
      assert gs[j].name != gs[at].name;
    }
    ReplaceAt(gs, old_, g, at);
    forall i | 0 <= i < |gs| && i != at ensures gs[i].name != old_ && gs[i].name != g.name {
      assert gs[if i < at then i else at].name != gs[if i < at then at else i].name;
      assert !HasGroup(gs, g.name);
    }
  }

  /** No group refers to itself by name: that would be a cycle. */
  lemma NoSelfReference(cfg: R.Config, t: Tables, old_: string, g: GroupConfig, at: nat)
    requires Renames(cfg, old_, g, at) && t.groups == GroupTable(cfg.groups) && !Cyclic(t)
    ensures RenameEntries(g.models, old_, g.name) == g.models
  {
    hide DefOf, IsLeaf;
    TableAt(cfg.groups, at);
    ModelsOf(cfg.groups[at]);
    forall i | 0 <= i < |g.models| ensures RenameEntry(g.models[i], old_, g.name) == g.models[i] {
      if !IsLeaf(g.models[i]) && g.models[i].model == old_ {
        assert Target(t, t.groups[old_].models[i]) == old_;
        assert Edge(t, old_, old_);
        SelfLoop(t, old_);
      }
    }
  }

  lemma ModelsOf(g: GroupConfig)
    ensures DefOf(g).models == g.models
  {
  }

  lemma SelfLoop(t: Tables, a: string)
    requires Edge(t, a, a)
    ensures Cyclic(t)
  {
    hide Edge;
    assert Loop(t, [a, a]);
  }

  lemma KeysCarried(cfg: R.Config, old_: string, g: GroupConfig, at: nat, n: string)
    requires Renames(cfg, old_, g, at)
    ensures n in GroupTable(Edited(cfg, old_, g).groups) <==> n == g.name || (n in GroupTable(cfg.groups) && n != old_)
  {
    hide GroupTable;
    var gs, hs := cfg.groups, Edited(cfg, old_, g).groups;
    EditedGroups(cfg, old_, g, at);
    GroupInTable(gs, n);
    GroupInTable(hs, n);
    assert hs[at].name == g.name;
    if HasGroup(hs, n) && n != g.name {
      var i :| 0 <= i < |hs| && hs[i].name == n;
      assert gs[i].name == n;
    }
    if HasGroup(gs, n) && n != old_ {
      var i :| 0 <= i < |gs| && gs[i].name == n;
      assert hs[i].name == n;
    }
    forall i | 0 <= i < |hs| ensures hs[i].name != old_ {
      if i != at {
        assert gs[if i < at then i else at].name != gs[if i < at then at else i].name;
      }
    }
  }

  lemma ModelsCarried(cfg: R.Config, t: Tables, old_: string, g: GroupConfig, at: nat, n: string)
    requires Renames(cfg, old_, g, at) && t.groups == GroupTable(cfg.groups) && !Cyclic(t) && n in t.groups
    ensures var hs := GroupTable(Edited(cfg, old_, g).groups);
            Renamed(n, old_, g.name) in hs && hs[Renamed(n, old_, g.name)].models == RenameEntries(t.groups[n].models, old_, g.name)
  {
    hide GroupTable, DefOf, RenameEntries, Cyclic;
    var gs, hs := cfg.groups, Edited(cfg, old_, g).groups;
    EditedGroups(cfg, old_, g, at);
    GroupInTable(gs, n);
    var i :| 0 <= i < |gs| && gs[i].name == n;
    TableAt(gs, i);
    TableAt(hs, i);
    ModelsOf(gs[i]);
    ModelsOf(hs[i]);
    if i == at {
      NoSelfReference(cfg, t, old_, g, at);
    } else {
      assert gs[if i < at then i else at].name != gs[if i < at then at else i].name;
    }
  }

  // ---- redirects are carried over ----

  function RenamedOption(x: Option<string>, old_: string, new_: string): Option<string> {
    if x.None? then None else Some(Renamed(x.value, old_, new_))
  }

  lemma {:induction false} NextCarried(rs: seq<Redirect>, old_: string, new_: string, x: string)
    requires !HasSource(rs, old_) && !HasSource(rs, new_)
    ensures Next(RenameRedirects(rs, old_, new_), Renamed(x, old_, new_)) == RenamedOption(Next(rs, x), old_, new_)
  {
    if rs != [] {
      assert rs[0].source != old_ && rs[0].source != new_;
      assert RenameRedirects(rs, old_, new_)[1..] == RenameRedirects(rs[1..], old_, new_);
      SourcesTail(rs, old_);
      SourcesTail(rs, new_);
      NextCarried(rs[1..], old_, new_, x);
    }
  }

  lemma SourcesTail(rs: seq<Redirect>, x: string)
    requires rs != [] && !HasSource(rs, x)
    ensures !HasSource(rs[1..], x)
  {
    forall i | 0 <= i < |rs[1..]| ensures rs[1..][i].source != x {
      assert rs[1..][i] == rs[i + 1];
    }
  }

  lemma {:induction false} AfterCarried(rs: seq<Redirect>, old_: string, new_: string, x: string, k: nat)
    requires !HasSource(rs, old_) && !HasSource(rs, new_)
    ensures After(RenameRedirects(rs, old_, new_), Renamed(x, old_, new_), k) == RenamedOption(After(rs, x, k), old_, new_)
    decreases k
  {
    hide Next;
    if k > 0 {
      AfterCarried(rs, old_, new_, x, k - 1);
      var m := After(rs, x, k - 1);
      if m.Some? { NextCarried(rs, old_, new_, m.value); }
    }
  }

  lemma LeadsCarried(groups: set<string>, more: set<string>, rs: seq<Redirect>, old_: string, new_: string, x: string, g: string)
    requires !HasSource(rs, old_) && !HasSource(rs, new_) && Leads(groups, rs, x, g)
    requires old_ in groups && new_ !in groups && forall n :: n in more <==> n == new_ || (n in groups && n != old_)
    ensures Leads(more, RenameRedirects(rs, old_, new_), Renamed(x, old_, new_), Renamed(g, old_, new_))
  {
    hide After, HasSource;
    var k: nat :| LeadsIn(groups, rs, x, g, k);
    var qs, y := RenameRedirects(rs, old_, new_), Renamed(x, old_, new_);
    AfterCarried(rs, old_, new_, x, k);
    forall j | 0 <= j < k ensures After(qs, y, j).Some? && After(qs, y, j).value !in more {
      AfterCarried(rs, old_, new_, x, j);
      NotLast(rs, x, j, k);
      NotNew(rs, After(rs, x, j).value, new_);
    }
    assert LeadsIn(more, qs, y, Renamed(g, old_, new_), k);
  }

  lemma NotLast(rs: seq<Redirect>, x: string, j: nat, k: nat)
    requires j < k && After(rs, x, k).Some?
    ensures After(rs, x, j).Some? && Next(rs, After(rs, x, j).value).Some?
  {
    assert After(rs, x, j + 1).None? ==> After(rs, x, k).None? by {
      if After(rs, x, j + 1).None? { NoneStays(rs, x, j + 1, k); }
    }
  }

  lemma NotNew(rs: seq<Redirect>, v: string, new_: string)
    requires Next(rs, v).Some? && !HasSource(rs, new_)
    ensures v != new_
  {
    NextIsSource(rs, v);
    if v in Sources(rs) {
      var i :| 0 <= i < |rs| && rs[i].source == v;
    }
  }

  function CarryDef(d: RedirectDef, old_: string, new_: string): RedirectDef {
    d.(target := Renamed(d.target, old_, new_), finalGroup := Renamed(d.finalGroup, old_, new_))
  }

  /** The tables of the edited configuration. */
  function CarriedTables(cfg: R.Config, t: Tables, old_: string, g: GroupConfig): Tables {
    Tables(GroupTable(Edited(cfg, old_, g).groups), map s | s in t.redirects :: CarryDef(t.redirects[s], old_, g.name))
  }

  lemma SourceNotGroup(cfg: R.Config, n: string)
    requires Valid(cfg) && n in GroupTable(cfg.groups)
    ensures !HasSource(cfg.redirects, n)
  {
    forall i | 0 <= i < |cfg.redirects| ensures cfg.redirects[i].source != n {
      assert WellNamed(GroupTable(cfg.groups).Keys, cfg.redirects[i]);
    }
  }

  lemma EntryCarried(groups: set<string>, more: set<string>, rs: seq<Redirect>, old_: string, new_: string, s: string, d: RedirectDef)
    requires !HasSource(rs, old_) && !HasSource(rs, new_) && EntryFor(groups, rs, rs, s, d)
    requires old_ in groups && new_ !in groups && forall n :: n in more <==> n == new_ || (n in groups && n != old_)
    ensures var qs := RenameRedirects(rs, old_, new_); EntryFor(more, qs, qs, s, CarryDef(d, old_, new_))
  {
    hide Leads, HasSource;
    var qs := RenameRedirects(rs, old_, new_);
    var i :| 0 <= i < |rs| && LastIn(rs, i, s) && FromRedirect(groups, rs, rs[i], d);
    LeadsCarried(groups, more, rs, old_, new_, rs[i].target, d.finalGroup);
    assert LastIn(qs, i, s) && FromRedirect(more, qs, qs[i], CarryDef(d, old_, new_));
  }

  lemma SourcesCarried(rs: seq<Redirect>, old_: string, new_: string)
    ensures Sources(RenameRedirects(rs, old_, new_)) == Sources(rs)
  {
    var qs := RenameRedirects(rs, old_, new_);
    forall x ensures x in Sources(qs) <==> x in Sources(rs) {
      if x in Sources(rs) {
        var i :| 0 <= i < |rs| && rs[i].source == x;
        assert qs[i].source == x;
      }
      if x in Sources(qs) {
        var i :| 0 <= i < |qs| && qs[i].source == x;
        assert rs[i].source == x;
      }
    }
  }

  lemma TablesCarried(cfg: R.Config, t: Tables, old_: string, g: GroupConfig, at: nat)
    requires Valid(cfg) && TablesFor(cfg, t) && Renames(cfg, old_, g, at)
    ensures TablesFor(Edited(cfg, old_, g), CarriedTables(cfg, t, old_, g))
    ensures Carried(t, CarriedTables(cfg, t, old_, g), old_, g.name)
  {
    hide GroupTable, EntryFor, RefsOk, Cyclic, Buildable, RenameEntries, Edited;
    var u := CarriedTables(cfg, t, old_, g);
    var rs := cfg.redirects;
    ValidFacts(cfg, t);
    OldIsGroup(cfg, old_, g, at);
    forall n ensures n in u.groups <==> n == g.name || (n in t.groups && n != old_) {
      KeysCarried(cfg, old_, g, at, n);
    }
    SourceNotGroup(cfg, old_);
    GroupInTable(cfg.groups, g.name);
    EditedRedirects(cfg, old_, g);
    SourcesCarried(rs, old_, g.name);
    assert u.redirects.Keys == t.redirects.Keys;
    forall s | s in u.redirects ensures EntryFor(u.groups.Keys, RenameRedirects(rs, old_, g.name), RenameRedirects(rs, old_, g.name), s, u.redirects[s]) {
      EntryCarried(t.groups.Keys, u.groups.Keys, rs, old_, g.name, s, t.redirects[s]);
    }
    forall n | n in t.groups ensures u.groups[Renamed(n, old_, g.name)].models == RenameEntries(t.groups[n].models, old_, g.name) {
      ModelsCarried(cfg, t, old_, g, at, n);
    }
    NotASource(rs, old_);
    NotASource(rs, g.name);
  }

  lemma NotASource(rs: seq<Redirect>, x: string)
    requires !HasSource(rs, x)
    ensures x !in Sources(rs)
  {
  }

  lemma EditedRedirects(cfg: R.Config, old_: string, g: GroupConfig)
    ensures Edited(cfg, old_, g).redirects == RenameRedirects(cfg.redirects, old_, g.name)
    ensures Edited(cfg, old_, g).groups == RenameInGroups(Replace(cfg.groups, old_, g), old_, g.name)
  {
  }

  lemma ValidFacts(cfg: R.Config, t: Tables)
    requires Valid(cfg) && TablesFor(cfg, t)
    ensures RefsOk(t) && !Cyclic(t) && Closed(t)
  {
    hide RefsOk, Cyclic, Closed, Buildable;
    TableIsClosed(t.groups, cfg.redirects, t.redirects);
  }

  lemma OldIsGroup(cfg: R.Config, old_: string, g: GroupConfig, at: nat)
    requires Renames(cfg, old_, g, at)
    ensures old_ in GroupTable(cfg.groups) && g.name !in GroupTable(cfg.groups)
  {
    hide GroupTable;
    GroupInTable(cfg.groups, old_);
    GroupInTable(cfg.groups, g.name);
    assert cfg.groups[at].name == old_;
  }

  lemma StillBuildable(cfg: R.Config, t: Tables, old_: string, g: GroupConfig, at: nat)
    requires Valid(cfg) && TablesFor(cfg, t) && Renames(cfg, old_, g, at)
    ensures GroupNamesOk(Edited(cfg, old_, g).groups)
    ensures Buildable(GroupTable(Edited(cfg, old_, g).groups).Keys, Edited(cfg, old_, g).redirects)
  {
    hide GroupTable, Leads, RefsOk, Cyclic, Edited, RenameRedirect;
    var more, rs, qs := GroupTable(Edited(cfg, old_, g).groups).Keys, cfg.redirects, RenameRedirects(cfg.redirects, old_, g.name);
    EditedGroups(cfg, old_, g, at);
    EditedRedirects(cfg, old_, g);
    OldIsGroup(cfg, old_, g, at);
    SourceNotGroup(cfg, old_);
    forall n ensures n in more <==> n == g.name || (n in t.groups && n != old_) {
      KeysCarried(cfg, old_, g, at, n);
    }
    forall i | 0 <= i < |qs| ensures WellNamed(more, qs[i]) && LeadsSomewhere(more, qs, qs[i].target) {
      assert WellNamed(t.groups.Keys, rs[i]) && LeadsSomewhere(t.groups.Keys, rs, rs[i].target);
      RedirectKeepsShape(rs[i], old_, g.name);
      assert rs[i].source != g.name;
      var x :| Leads(t.groups.Keys, rs, rs[i].target, x);
      LeadsCarried(t.groups.Keys, more, rs, old_, g.name, rs[i].target, x);
    }
  }

  lemma RedirectKeepsShape(r: Redirect, old_: string, new_: string)
    ensures var q := RenameRedirect(r, old_, new_); q.source == r.source && q.target == Renamed(r.target, old_, new_)
  {
  }

  /** Renaming a group to a fresh name, its models kept, leaves a valid configuration valid, and every name
      resolves as before: to the same group, under its new name if it is the renamed one, with the same
      provider models behind it. */
  lemma RenameKeepsResolution(cfg: R.Config, t: Tables, u: Tables, old_: string, g: GroupConfig, at: nat)
    requires Valid(cfg) && TablesFor(cfg, t) && Renames(cfg, old_, g, at) && TablesFor(Edited(cfg, old_, g), u)
    ensures Valid(Edited(cfg, old_, g))
    ensures forall n :: n in t.groups || n in t.redirects ==> FinalGroup(u, Renamed(n, old_, g.name)) == Renamed(FinalGroup(t, n), old_, g.name)
    ensures forall a, key :: a in t.groups ==> (ReachesLeaf(u, Renamed(a, old_, g.name), key) <==> ReachesLeaf(t, a, key))
    ensures Accepts(cfg) && g.stickyOk ==> (Accepts(Edited(cfg, old_, g)) <==> old_ !in cfg.smart)
  {
    hide StickyOk, AllResolve, TablesFor, RefsOk, Cyclic, Closed, Buildable, GroupNamesOk, ReachesLeaf, Edited, CarriedTables, Renames;
    var cfg' := Edited(cfg, old_, g);
    var v := CarriedTables(cfg, t, old_, g);
    ValidFacts(cfg, t);
    TablesCarried(cfg, t, old_, g, at);
    OnlyTables(cfg', v);
    assert u == v;
    RefsStillOk(t, v, old_, g.name);
    StillAcyclic(t, v, old_, g.name);
    StillBuildable(cfg, t, old_, g, at);
    SmartNamesCarried(cfg, t, v, old_, g, at);
    forall a, key | a in t.groups ensures ReachesLeaf(u, Renamed(a, old_, g.name), key) <==> ReachesLeaf(t, a, key) {
      LeavesCarried(t, v, old_, g.name, a, key);
    }
  }

  lemma SmartNamesCarried(cfg: R.Config, t: Tables, u: Tables, old_: string, g: GroupConfig, at: nat)
    requires Renames(cfg, old_, g, at) && Carried(t, u, old_, g.name)
    ensures Edited(cfg, old_, g).smart == cfg.smart
    ensures AllResolve(t, cfg.smart) ==> (AllResolve(u, cfg.smart) <==> old_ !in cfg.smart)
    ensures StickyOk(cfg.groups) && g.stickyOk ==> StickyOk(Edited(cfg, old_, g).groups)
  {
    EditedGroups(cfg, old_, g, at);
    if AllResolve(t, cfg.smart) {
      forall i | 0 <= i < |cfg.smart| ensures ResolveName(u, cfg.smart[i]) != "" <==> cfg.smart[i] != old_ {
        if cfg.smart[i] != old_ {
          CarriedName(t, u, old_, g.name, cfg.smart[i]);
        }
      }
    }
  }

  /** A new name with a slash passes the edit's own checks, but the configuration is then not valid:
      what is asked of the new name above is needed. */
  lemma SlashIsAccepted(cfg: R.Config, old_: string, g: GroupConfig, at: nat)
    requires DistinctNames(cfg.groups) && at < |cfg.groups| && cfg.groups[at].name == old_
    requires '/' in g.name && !HasGroup(cfg.groups, g.name) && !HasSource(cfg.redirects, g.name)
    ensures MayUpdate(cfg.groups, cfg.redirects, old_, g)
    ensures !Valid(Edited(cfg, old_, g))
  {
    hide TablesFor, RefsOk, Cyclic, Buildable;
    SlashIsNotBlank(g.name);
    forall j | 0 <= j < at ensures cfg.groups[j].name != old_ {
      assert cfg.groups[j].name != cfg.groups[at].name;
    }
    ReplaceAt(cfg.groups, old_, g, at);
    assert Edited(cfg, old_, g).groups[at].name == g.name;
  }

  /** A rename that the edit permits, the group's models kept, leaves groups and redirects valid exactly when
      the new name has no slash. */
  lemma RenameStaysValidIff(cfg: R.Config, t: Tables, old_: string, g: GroupConfig, at: nat)
    requires Valid(cfg) && TablesFor(cfg, t) && DistinctNames(cfg.groups)
    requires at < |cfg.groups| && cfg.groups[at].name == old_ && old_ != "" && g.models == cfg.groups[at].models
    requires MayUpdate(cfg.groups, cfg.redirects, old_, g) && g.name != old_
    ensures Valid(Edited(cfg, old_, g)) <==> '/' !in g.name
  {
    hide Valid, TablesFor, DistinctNames, HasGroup, HasSource, Edited;
    if '/' in g.name {
      SlashIsAccepted(cfg, old_, g, at);
    } else {
      assert g.name != "";
      TablesCarried(cfg, t, old_, g, at);
      RenameKeepsResolution(cfg, t, CarriedTables(cfg, t, old_, g), old_, g, at);
    }
  }

  lemma {:induction false} SlashLeft(s: string)
    requires '/' in s
    ensures '/' in Responses.TrimLeft(s)
  {
    if Responses.IsSpace(s[0]) {
      SlashLeft(s[1..]);
    }
  }

  lemma {:induction false} SlashRight(s: string)
    requires '/' in s
    ensures '/' in Responses.TrimRight(s)
  {
    if Responses.IsSpace(s[|s| - 1]) {
      SlashRight(s[..|s| - 1]);
    }
  }

  lemma SlashIsNotBlank(s: string)
    requires '/' in s
    ensures Responses.Trim(s) != ""
  {
    SlashLeft(s);
    SlashRight(Responses.TrimLeft(s));
  }

  // ---- deleting ----

  function Without(cfg: R.Config, name: string): R.Config {
    cfg.(groups := Remove(cfg.groups, name))
  }

  lemma RemovedGroups(gs: seq<GroupConfig>, name: string, at: nat)
    requires DistinctNames(gs) && at < |gs| && gs[at].name == name
    ensures var hs := Remove(gs, name);
            && hs == gs[..at] + gs[at + 1..] && DistinctNames(hs) && !HasGroup(hs, name)
  {
    forall j | 0 <= j < at ensures gs[j].name != name {
      assert gs[j].name != gs[at].name;
    }
    RemoveAt(gs, name, at);
    var hs := gs[..at] + gs[at + 1..];
    assert forall i :: 0 <= i < |hs| ==> hs[i] == gs[if i < at then i else i + 1];
    forall i | 0 <= i < |hs| ensures hs[i].name != name {
      var k := if i < at then i else i + 1;
      assert gs[if k < at then k else at].name != gs[if k < at then at else k].name;
    }
    forall i, j | 0 <= i < j < |hs| ensures hs[i].name != hs[j].name {
      assert gs[if i < at then i else i + 1].name != gs[if j < at then j else j + 1].name;
    }
  }

  lemma RemovedTable(gs: seq<GroupConfig>, name: string, at: nat)
    requires DistinctNames(gs) && at < |gs| && gs[at].name == name
    ensures GroupTable(Remove(gs, name)) == GroupTable(gs) - {name}
  {
    hide GroupTable, DefOf, HasGroup, Remove;
    var hs := Remove(gs, name);
    RemovedGroups(gs, name, at);
    forall n ensures n in GroupTable(hs) <==> n in GroupTable(gs) && n != name {
      GroupInTable(gs, n);
      GroupInTable(hs, n);
      KeptGroup(gs, name, at, n);
    }
    forall n | n in GroupTable(hs) ensures GroupTable(hs)[n] == GroupTable(gs)[n] {
      GroupInTable(hs, n);
      var i := GroupAt(hs, n);
      TableAt(hs, i);
      TableAt(gs, if i < at then i else i + 1);
    }
  }

  lemma GroupAt(gs: seq<GroupConfig>, n: string) returns (i: nat)
    requires HasGroup(gs, n)
    ensures i < |gs| && gs[i].name == n
  {
    i :| 0 <= i < |gs| && gs[i].name == n;
  }

  lemma KeptGroup(gs: seq<GroupConfig>, name: string, at: nat, n: string)
    requires DistinctNames(gs) && at < |gs| && gs[at].name == name
    ensures HasGroup(Remove(gs, name), n) <==> HasGroup(gs, n) && n != name
  {
    hide Remove, DistinctNames;
    RemovedGroups(gs, name, at);
    var hs := Remove(gs, name);
    assert forall i :: 0 <= i < |hs| ==> hs[i] == gs[if i < at then i else i + 1];
    if HasGroup(gs, n) && n != name {
      var i :| 0 <= i < |gs| && gs[i].name == n;
      assert hs[if i < at then i else i - 1].name == n;
    }
    if HasGroup(hs, n) {
      var i :| 0 <= i < |hs| && hs[i].name == n;
      assert gs[if i < at then i else i + 1].name == n;
    }
  }

  /** No redirect's target is `name`. */
  predicate NoTarget(rs: seq<Redirect>, name: string) {
    forall i :: 0 <= i < |rs| ==> rs[i].target != name
  }

  lemma {:induction false} NextNotTarget(rs: seq<Redirect>, x: string, name: string)
    requires NoTarget(rs, name)
    ensures Next(rs, x) != Some(name)
  {
    if rs != [] {
      assert forall i :: 0 <= i < |rs[1..]| ==> rs[1..][i] == rs[i + 1];
      NextNotTarget(rs[1..], x, name);
    }
  }

  lemma LeadsWithout(groups: set<string>, rs: seq<Redirect>, x: string, name: string, g: string)
    requires NoTarget(rs, name) && x != name
    ensures Leads(groups, rs, x, g) ==> g != name && Leads(groups - {name}, rs, x, g)
  {
    hide NoTarget, Next;
    if Leads(groups, rs, x, g) {
      var k: nat :| LeadsIn(groups, rs, x, g, k);
      if k > 0 {
        assert After(rs, x, k - 1).Some?;
        NextNotTarget(rs, After(rs, x, k - 1).value, name);
      }
      assert LeadsIn(groups - {name}, rs, x, g, k);
    }
  }

  lemma EntryWithout(groups: set<string>, rs: seq<Redirect>, name: string, s: string, d: RedirectDef)
    requires NoTarget(rs, name) && EntryFor(groups, rs, rs, s, d)
    ensures EntryFor(groups - {name}, rs, rs, s, d)
  {
    hide Leads;
    var i :| 0 <= i < |rs| && LastIn(rs, i, s) && FromRedirect(groups, rs, rs[i], d);
    LeadsWithout(groups, rs, rs[i].target, name, d.finalGroup);
    assert FromRedirect(groups - {name}, rs, rs[i], d);
  }

  lemma EdgeWithout(t: Tables, u: Tables, name: string, a: string, b: string)
    requires u.groups == t.groups - {name} && u.redirects == t.redirects && name !in t.redirects && Edge(u, a, b)
    ensures Edge(t, a, b)
  {
    var i :| 0 <= i < |u.groups[a].models| && Target(u, u.groups[a].models[i]) == b;
    assert Target(t, t.groups[a].models[i]) == b;
  }

  lemma LoopWithout(t: Tables, u: Tables, name: string, p: seq<string>)
    requires u.groups == t.groups - {name} && u.redirects == t.redirects && name !in t.redirects && Loop(u, p)
    ensures Loop(t, p)
  {
    hide Edge;
    forall i | 0 <= i < |p| - 1 ensures Edge(t, p[i], p[i + 1]) {
      EdgeWithout(t, u, name, p[i], p[i + 1]);
    }
  }

  lemma AcyclicWithout(t: Tables, u: Tables, name: string)
    requires u.groups == t.groups - {name} && u.redirects == t.redirects && name !in t.redirects && !Cyclic(t)
    ensures !Cyclic(u)
  {
    hide Edge, Loop;
    forall p ensures !Loop(u, p) {
      if Loop(u, p) {
        LoopWithout(t, u, name, p);
      }
    }
  }

  /** What a group refers to, in the table and in the list. */
  lemma RefersInTable(gs: seq<GroupConfig>, i: nat, name: string)
    requires DistinctNames(gs) && i < |gs|
    ensures gs[i].name in GroupTable(gs) && GroupTable(gs)[gs[i].name].models == gs[i].models
  {
    hide DefOf;
    TableAt(gs, i);
    ModelsOf(gs[i]);
  }

  /** Nothing refers to the group: without it everything still resolves. */
  lemma StillValid(cfg: R.Config, t: Tables, name: string, at: nat)
    requires Valid(cfg) && TablesFor(cfg, t) && DistinctNames(cfg.groups) && at < |cfg.groups| && cfg.groups[at].name == name
    requires MayDelete(cfg.groups, cfg.redirects, name)
    ensures Valid(Without(cfg, name)) && TablesFor(Without(cfg, name), t.(groups := t.groups - {name}))
  {
    hide GroupTable, EntryFor, Leads, Cyclic, Closed, Remove, DefOf;
    var u := t.(groups := t.groups - {name});
    var rs := cfg.redirects;
    ValidFacts(cfg, t);
    RemovedTable(cfg.groups, name, at);
    GroupInTable(cfg.groups, name);
    SourceNotGroup(cfg, name);
    NotASource(rs, name);
    forall s | s in u.redirects ensures EntryFor(u.groups.Keys, rs, rs, s, u.redirects[s]) {
      EntryWithout(t.groups.Keys, rs, name, s, t.redirects[s]);
      assert t.groups.Keys - {name} == u.groups.Keys;
    }
    assert TablesFor(Without(cfg, name), u);
    OnlyTables(Without(cfg, name), u);
    AcyclicWithout(t, u, name);
    RefsWithout(cfg, t, name, at);
    BuildableWithout(cfg, t, name, at);
    NamesWithout(cfg.groups, name, at);
  }

  lemma NamesWithout(gs: seq<GroupConfig>, name: string, at: nat)
    requires GroupNamesOk(gs) && DistinctNames(gs) && at < |gs| && gs[at].name == name
    ensures GroupNamesOk(Remove(gs, name))
  {
    RemovedGroups(gs, name, at);
  }

  lemma RefsWithout(cfg: R.Config, t: Tables, name: string, at: nat)
    requires TablesFor(cfg, t) && RefsOk(t) && Closed(t) && DistinctNames(cfg.groups) && MayDelete(cfg.groups, cfg.redirects, name)
    ensures RefsOk(t.(groups := t.groups - {name}))
  {
    hide TableFor, EntryFor, Leads;
    var u := t.(groups := t.groups - {name});
    forall x | x in u.groups ensures GroupRefsOk(u, x) {
      GroupInTable(cfg.groups, x);
      var k :| 0 <= k < |cfg.groups| && cfg.groups[k].name == x;
      RefersInTable(cfg.groups, k, name);
      assert GroupRefsOk(t, x) && !Refers(cfg.groups[k], name);
    }
  }

  lemma BuildableWithout(cfg: R.Config, t: Tables, name: string, at: nat)
    requires Valid(cfg) && TablesFor(cfg, t) && DistinctNames(cfg.groups) && at < |cfg.groups| && cfg.groups[at].name == name
    requires MayDelete(cfg.groups, cfg.redirects, name)
    ensures Buildable(GroupTable(Remove(cfg.groups, name)).Keys, cfg.redirects)
  {
    hide GroupTable, Leads, RefsOk, Cyclic, Remove;
    var rs := cfg.redirects;
    RemovedTable(cfg.groups, name, at);
    assert GroupTable(Remove(cfg.groups, name)).Keys == t.groups.Keys - {name};
    forall i | 0 <= i < |rs| ensures WellNamed(t.groups.Keys - {name}, rs[i]) && LeadsSomewhere(t.groups.Keys - {name}, rs, rs[i].target) {
      assert WellNamed(t.groups.Keys, rs[i]) && LeadsSomewhere(t.groups.Keys, rs, rs[i].target);
      var x :| Leads(t.groups.Keys, rs, rs[i].target, x);
      LeadsWithout(t.groups.Keys, rs, rs[i].target, name, x);
    }
  }

  /** Something refers to the group: without it that reference leads nowhere. */
  lemma NotValidWithout(cfg: R.Config, t: Tables, name: string, at: nat)
    requires Valid(cfg) && TablesFor(cfg, t) && DistinctNames(cfg.groups) && at < |cfg.groups| && cfg.groups[at].name == name
    requires !MayDelete(cfg.groups, cfg.redirects, name)
    ensures !Valid(Without(cfg, name))
  {
    hide GroupTable, Leads, TableFor, RefsOk, Cyclic, Remove;
    var rs, hs := cfg.redirects, Remove(cfg.groups, name);
    RemovedTable(cfg.groups, name, at);
    GroupInTable(cfg.groups, name);
    SourceNotGroup(cfg, name);
    if !NoTarget(rs, name) {
      var i :| 0 <= i < |rs| && rs[i].target == name;
      NextIsSource(rs, name);
      NotASource(rs, name);
      forall g ensures !Leads(GroupTable(hs).Keys, rs, name, g) {
        LeadsNowhere(GroupTable(hs).Keys, rs, name, g);
      }
      assert !LeadsSomewhere(GroupTable(hs).Keys, rs, rs[i].target);
    } else {
      var i :| 0 <= i < |cfg.groups| && cfg.groups[i].name != name && Refers(cfg.groups[i], name);
      if Valid(Without(cfg, name)) {
        var u := t.(groups := t.groups - {name});
        TablesWithout(cfg, t, name, at);
        DanglingRef(cfg, t, u, name, at, i);
      }
    }
  }

  lemma TablesWithout(cfg: R.Config, t: Tables, name: string, at: nat)
    requires TablesFor(cfg, t) && NoTarget(cfg.redirects, name)
    requires DistinctNames(cfg.groups) && at < |cfg.groups| && cfg.groups[at].name == name
    ensures TablesFor(Without(cfg, name), t.(groups := t.groups - {name}))
  {
    hide GroupTable, EntryFor, Remove, NoTarget;
    var rs := cfg.redirects;
    RemovedTable(cfg.groups, name, at);
    forall s | s in t.redirects ensures EntryFor(t.groups.Keys - {name}, rs, rs, s, t.redirects[s]) {
      EntryWithout(t.groups.Keys, rs, name, s, t.redirects[s]);
    }
    assert (t.groups - {name}).Keys == t.groups.Keys - {name};
  }

  lemma DanglingRef(cfg: R.Config, t: Tables, u: Tables, name: string, at: nat, i: nat)
    requires TablesFor(cfg, t) && u == t.(groups := t.groups - {name}) && DistinctNames(cfg.groups)
    requires i < |cfg.groups| && cfg.groups[i].name != name && Refers(cfg.groups[i], name) && !HasSource(cfg.redirects, name)
    ensures !RefsOk(u)
  {
    hide EntryFor;
    RefersInTable(cfg.groups, i, name);
    NotASource(cfg.redirects, name);
    var x := cfg.groups[i].name;
    var k :| 0 <= k < |cfg.groups[i].models| && !IsLeaf(cfg.groups[i].models[k]) && cfg.groups[i].models[k].model == name;
    assert u.groups[x].models[k].model == name && ResolveName(u, name) == "";
    assert !GroupRefsOk(u, x);
  }

  /** smart_route is not looked at: deleting a group it names is allowed, and what is left is not accepted. */
  lemma DeleteIgnoresSmartRoute(cfg: R.Config, t: Tables, name: string)
    requires Accepts(cfg) && TablesFor(cfg, t) && DistinctNames(cfg.groups) && MayDelete(cfg.groups, cfg.redirects, name)
    ensures Accepts(Without(cfg, name)) <==> name !in cfg.smart
  {
    hide Valid, TablesFor, Refers;
    var at := GroupAt(cfg.groups, name);
    var u := t.(groups := t.groups - {name});
    StillValid(cfg, t, name, at);
    OnlyTables(Without(cfg, name), u);
    NotARedirect(cfg, t, name);
    RemovedGroups(cfg.groups, name, at);
    assert AllResolve(t, cfg.smart);
    forall i | 0 <= i < |cfg.smart| ensures ResolveName(u, cfg.smart[i]) != "" <==> cfg.smart[i] != name {
    }
  }

  lemma NotARedirect(cfg: R.Config, t: Tables, name: string)
    requires Valid(cfg) && TablesFor(cfg, t) && HasGroup(cfg.groups, name)
    ensures name !in t.redirects
  {
    GroupInTable(cfg.groups, name);
    SourceNotGroup(cfg, name);
    NotASource(cfg.redirects, name);
  }

  /** A group of a valid configuration can be deleted exactly when the configuration is valid without it. */
  lemma DeleteIffStillValid(cfg: R.Config, t: Tables, name: string)
    requires Valid(cfg) && TablesFor(cfg, t) && DistinctNames(cfg.groups)
    ensures MayDelete(cfg.groups, cfg.redirects, name) <==> HasGroup(cfg.groups, name) && Valid(Without(cfg, name))
  {
    hide Valid, TablesFor, Refers;
    if HasGroup(cfg.groups, name) {
      var at := GroupAt(cfg.groups, name);
      if MayDelete(cfg.groups, cfg.redirects, name) {
        StillValid(cfg, t, name, at);
      } else {
        NotValidWithout(cfg, t, name, at);
      }
    }
  }
}
