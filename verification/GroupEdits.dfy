/** Editing the model groups of a draft configuration: renaming one with everything that refers to it,
    deleting one nothing refers to, putting them in another order. */
module GroupEdits {
  import opened Collections
  import opened Wire
  import opened ModelConfig
  import opened Aliases
  import opened R = Resolver
  import Responses

  function Renamed(name: string, old_: string, new_: string): string {
    if name == old_ then new_ else name
  }

  function RenameEntry(e: Entry, old_: string, new_: string): Entry {
    if !IsLeaf(e) && e.model == old_ then e.(model := new_) else e
  }

  function RenameEntries(es: seq<Entry>, old_: string, new_: string): (r: seq<Entry>)
    ensures |r| == |es| && forall i :: 0 <= i < |es| ==> r[i] == RenameEntry(es[i], old_, new_)
  {
    seq(|es|, i requires 0 <= i < |es| => RenameEntry(es[i], old_, new_))
  }

  function RenameRedirect(r: Redirect, old_: string, new_: string): Redirect {
    if r.target == old_ then r.(target := new_) else r
  }

  function RenameRedirects(rs: seq<Redirect>, old_: string, new_: string): (r: seq<Redirect>)
    ensures |r| == |rs| && forall i :: 0 <= i < |rs| ==> r[i] == RenameRedirect(rs[i], old_, new_)
  {
    seq(|rs|, i requires 0 <= i < |rs| => RenameRedirect(rs[i], old_, new_))
  }

  /** A group other than the renamed one. */
  function RenameInGroup(g: GroupConfig, old_: string, new_: string): GroupConfig {
    if g.name == new_ then g else g.(models := RenameEntries(g.models, old_, new_))
  }

  function RenameInGroups(gs: seq<GroupConfig>, old_: string, new_: string): (r: seq<GroupConfig>)
    ensures |r| == |gs| && forall i :: 0 <= i < |gs| ==> r[i] == RenameInGroup(gs[i], old_, new_)
  {
    seq(|gs|, i requires 0 <= i < |gs| => RenameInGroup(gs[i], old_, new_))
  }

  predicate HasGroup(gs: seq<GroupConfig>, name: string) {
    exists i :: 0 <= i < |gs| && gs[i].name == name
  }

  predicate HasSource(rs: seq<Redirect>, name: string) {
    exists i :: 0 <= i < |rs| && rs[i].source == name
  }

  /** The first group of this name is replaced. */
  function Replace(gs: seq<GroupConfig>, name: string, g: GroupConfig): seq<GroupConfig> {
    if gs == [] then [] else if gs[0].name == name then [g] + gs[1..] else [gs[0]] + Replace(gs[1..], name, g)
  }

  function Remove(gs: seq<GroupConfig>, name: string): seq<GroupConfig> {
    if gs == [] then [] else if gs[0].name == name then gs[1..] else [gs[0]] + Remove(gs[1..], name)
  }

  /** May the group `name` be updated to `g`? The other fields of the input are taken to be valid. */
  predicate MayUpdate(gs: seq<GroupConfig>, rs: seq<Redirect>, name: string, g: GroupConfig) {
    Responses.Trim(g.name) != "" && HasGroup(gs, name) && (g.name != name ==> !HasGroup(gs, g.name) && !HasSource(rs, g.name))
  }

  predicate Refers(g: GroupConfig, name: string) {
    exists i :: 0 <= i < |g.models| && !IsLeaf(g.models[i]) && g.models[i].model == name
  }

  predicate MayDelete(gs: seq<GroupConfig>, rs: seq<Redirect>, name: string) {
    && HasGroup(gs, name)
    && (forall i :: 0 <= i < |rs| ==> rs[i].target != name)
    && (forall i :: 0 <= i < |gs| && gs[i].name != name ==> !Refers(gs[i], name))
  }

  predicate DistinctNames(gs: seq<GroupConfig>) {
    forall i, j :: 0 <= i < j < |gs| ==> gs[i].name != gs[j].name
  }

  predicate MayReorder(gs: seq<GroupConfig>, names: seq<string>) {
    |names| == |gs| && Distinct(names) && forall i :: 0 <= i < |names| ==> names[i] != "" && HasGroup(gs, names[i])
  }

  function ByName(gs: seq<GroupConfig>): map<string, GroupConfig> {
    if gs == [] then map[] else ByName(gs[..|gs| - 1])[gs[|gs| - 1].name := gs[|gs| - 1]]
  }

  method IndexByName(gs: seq<GroupConfig>) returns (byName: map<string, GroupConfig>)
    ensures byName == ByName(gs)
  {
    byName := map[];
    for i := 0 to |gs|
      invariant byName == ByName(gs[..i])
    {
      assert gs[..i + 1][..i] == gs[..i];
      byName := byName[gs[i].name := gs[i]];
    }
    assert gs[..|gs|] == gs;
  }

  /** The groups of the given names, each name once and none blank or unknown. */
  method PickByName(byName: map<string, GroupConfig>, names: seq<string>) returns (ok: bool, next: seq<GroupConfig>)
    ensures ok <==> Distinct(names) && forall j :: 0 <= j < |names| ==> names[j] != "" && names[j] in byName
    ensures ok ==> |next| == |names| && forall j :: 0 <= j < |names| ==> next[j] == byName[names[j]]
  {
    var seen: set<string> := {};
    next := [];
    for i := 0 to |names|
      invariant |next| == i && Distinct(names[..i])
      invariant forall x :: x in seen <==> x in names[..i]
      invariant forall j :: 0 <= j < i ==> names[j] != "" && names[j] in byName && next[j] == byName[names[j]]
    {
      assert names[..i + 1] == names[..i] + [names[i]];
      if names[i] == "" {
        return false, [];
      }
      if names[i] in seen {
        RepeatedName(names, i);
        return false, [];
      }
      seen := seen + {names[i]};
      if names[i] !in byName {
        return false, [];
      }
      next := next + [byName[names[i]]];
    }
    assert names[..|names|] == names;
    ok := true;
  }

  class Draft {
    var groups: seq<GroupConfig>
    var redirects: seq<Redirect>

    method Find(name: string) returns (at: int)
      ensures at == -1 <==> !HasGroup(groups, name)
      ensures at != -1 ==> 0 <= at < |groups| && groups[at].name == name && forall j :: 0 <= j < at ==> groups[j].name != name
    {
      for i := 0 to |groups|
        invariant forall j :: 0 <= j < i ==> groups[j].name != name
      {
        if groups[i].name == name {
          return i;
        }
      }
      at := -1;
    }

    method SourceExists(name: string) returns (found: bool)
      ensures found <==> HasSource(redirects, name)
    {
      for i := 0 to |redirects|
        invariant forall j :: 0 <= j < i ==> redirects[j].source != name
      {
        if redirects[i].source == name {
          return true;
        }
      }
      found := false;
    }

    /** Replaces a group; a new name is carried into redirect targets and the entries of other groups. */
    method Update(name: string, g: GroupConfig) returns (ok: bool)
      modifies this
      ensures ok <==> MayUpdate(old(groups), old(redirects), name, g)
      ensures !ok ==> groups == old(groups) && redirects == old(redirects)
      ensures ok && g.name == name ==> groups == Replace(old(groups), name, g) && redirects == old(redirects)
      ensures ok && g.name != name ==>
                && groups == RenameInGroups(Replace(old(groups), name, g), name, g.name)
                && redirects == RenameRedirects(old(redirects), name, g.name)
    {
      hide Replace, RenameInGroup;
      if Responses.Trim(g.name) == "" {
        return false;
      }
      var at := Find(name);
      if at == -1 {
        return false;
      }
      if g.name != name {
        var other := Find(g.name);
        if other != -1 {
          return false;
        }
        var taken := SourceExists(g.name);
        if taken {
          return false;
        }
      }
      ReplaceAt(groups, name, g, at);
      groups := groups[at := g];
      if g.name != name {
        PropagateRename(name, g.name);
      }
      ok := true;
    }

    method PropagateRename(oldName: string, newName: string)
      modifies this
      ensures groups == RenameInGroups(old(groups), oldName, newName)
      ensures redirects == RenameRedirects(old(redirects), oldName, newName)
    {
      hide RenameInGroup, RenameRedirect;
      for i := 0 to |redirects|
        invariant groups == old(groups) && |redirects| == |old(redirects)|
        invariant forall j :: 0 <= j < i ==> redirects[j] == RenameRedirect(old(redirects)[j], oldName, newName)
        invariant forall j :: i <= j < |redirects| ==> redirects[j] == old(redirects)[j]
      {
        var r := RenamedTarget(redirects[i], oldName, newName);
        redirects := redirects[i := r];
      }
      for i := 0 to |groups|
        invariant redirects == RenameRedirects(old(redirects), oldName, newName) && |groups| == |old(groups)|
        invariant forall j :: 0 <= j < i ==> groups[j] == RenameInGroup(old(groups)[j], oldName, newName)
        invariant forall j :: i <= j < |groups| ==> groups[j] == old(groups)[j]
      {
        var g := RenamedEntries(groups[i], oldName, newName);
        groups := groups[i := g];
      }
    }

    method RenamedTarget(r: Redirect, oldName: string, newName: string) returns (q: Redirect)
      ensures q == RenameRedirect(r, oldName, newName)
    {
      q := r;
      if q.target == oldName {
        q := q.(target := newName);
      }
    }

    method RenamedEntries(g: GroupConfig, oldName: string, newName: string) returns (h: GroupConfig)
      ensures h == RenameInGroup(g, oldName, newName)
    {
      h := g;
      if g.name == newName {
        return;
      }
      var models := g.models;
      for j := 0 to |models|
        invariant |models| == |g.models|
        invariant forall k :: 0 <= k < j ==> models[k] == RenameEntry(g.models[k], oldName, newName)
        invariant forall k :: j <= k < |models| ==> models[k] == g.models[k]
      {
        if !IsLeaf(models[j]) && models[j].model == oldName {
          models := models[j := models[j].(model := newName)];
        }
      }
      h := g.(models := models);
    }

    method Delete(name: string) returns (ok: bool)
      modifies this`groups
      ensures ok <==> MayDelete(old(groups), redirects, name)
      ensures groups == if ok then Remove(old(groups), name) else old(groups)
    {
      hide Remove;
      var at := Find(name);
      if at == -1 {
        return false;
      }
      for i := 0 to |redirects|
        invariant groups == old(groups)
        invariant forall j :: 0 <= j < i ==> redirects[j].target != name
      {
        if redirects[i].target == name {
          return false;
        }
      }
      for i := 0 to |groups|
        invariant groups == old(groups)
        invariant forall j :: 0 <= j < i && groups[j].name != name ==> !Refers(groups[j], name)
      {
        if groups[i].name != name {
          var refers := RefersTo(groups[i], name);
          if refers {
            return false;
          }
        }
      }
      RemoveAt(groups, name, at);
      groups := groups[..at] + groups[at + 1..];
      ok := true;
    }

    method RefersTo(g: GroupConfig, name: string) returns (r: bool)
      ensures r <==> Refers(g, name)
    {
      for i := 0 to |g.models|
        invariant forall j :: 0 <= j < i ==> IsLeaf(g.models[j]) || g.models[j].model != name
      {
        if !IsLeaf(g.models[i]) && g.models[i].model == name {
          return true;
        }
      }
      r := false;
    }

    /** Puts the groups in the order of `names`, which must name each once. */
    method Reorder(names: seq<string>) returns (ok: bool)
      modifies this`groups
      ensures ok <==> MayReorder(old(groups), names)
      ensures !ok ==> groups == old(groups)
      ensures ok ==> multiset(groups) == multiset(old(groups)) && |groups| == |names| && forall i :: 0 <= i < |names| ==> groups[i].name == names[i]
    {
      hide HasGroup;
      if |names| != |groups| {
        return false;
      }
      var byName := IndexByName(groups);
      ByNameFinds(groups);
      hide ByName, Distinct;
      var next;
      ok, next := PickByName(byName, names);
      if !ok {
        return;
      }
      ReorderedIsPermutation(groups, names, next);
      groups := next;
    }
  }

  // ---- the lists behind the methods ----

  lemma {:induction false} ReplaceAt(gs: seq<GroupConfig>, name: string, g: GroupConfig, at: nat)
    requires at < |gs| && gs[at].name == name && forall j :: 0 <= j < at ==> gs[j].name != name
    ensures Replace(gs, name, g) == gs[at := g]
  {
    if at > 0 {
      assert forall j :: 0 <= j < at - 1 ==> gs[1..][j] == gs[j + 1];
      ReplaceAt(gs[1..], name, g, at - 1);
      assert [gs[0]] + gs[1..][at - 1 := g] == gs[at := g];
    } else {
      assert [g] + gs[1..] == gs[0 := g];
    }
  }

  lemma {:induction false} RemoveAt(gs: seq<GroupConfig>, name: string, at: nat)
    requires at < |gs| && gs[at].name == name && forall j :: 0 <= j < at ==> gs[j].name != name
    ensures Remove(gs, name) == gs[..at] + gs[at + 1..]
  {
    if at > 0 {
      assert forall j :: 0 <= j < at - 1 ==> gs[1..][j] == gs[j + 1];
      RemoveAt(gs[1..], name, at - 1);
      assert [gs[0]] + (gs[1..][..at - 1] + gs[1..][at..]) == gs[..at] + gs[at + 1..];
    } else {
      assert gs[..0] + gs[1..] == gs[1..];
    }
  }

  lemma {:induction false} ByNameFinds(gs: seq<GroupConfig>)
    ensures forall n :: n in ByName(gs) <==> HasGroup(gs, n)
    ensures forall n :: n in ByName(gs) ==> ByName(gs)[n].name == n && ByName(gs)[n] in gs
  {
    if gs != [] {
      var p, last := gs[..|gs| - 1], gs[|gs| - 1];
      assert gs == p + [last];
      ByNameFinds(p);
      forall n ensures n in ByName(gs) <==> HasGroup(gs, n) {
        HasGroupSnoc(p, last, n);
      }
    }
  }

  lemma HasGroupSnoc(p: seq<GroupConfig>, last: GroupConfig, n: string)
    ensures HasGroup(p + [last], n) <==> HasGroup(p, n) || last.name == n
  {
    var gs := p + [last];
    if HasGroup(p, n) {
      var i :| 0 <= i < |p| && p[i].name == n;
      assert gs[i].name == n;
    }
    assert gs[|p|] == last;
  }

  lemma RepeatedName(names: seq<string>, i: nat)
    requires i < |names| && names[i] in names[..i]
    ensures !Distinct(names)
  {
    var j :| 0 <= j < i && names[..i][j] == names[i];
    assert names[j] == names[i];
  }

  function NamesOf(gs: seq<GroupConfig>): (r: seq<string>)
    ensures |r| == |gs| && forall i :: 0 <= i < |gs| ==> r[i] == gs[i].name
  {
    seq(|gs|, i requires 0 <= i < |gs| => gs[i].name)
  }

  lemma {:induction false} MembersCount(names: seq<string>)
    ensures |Members(names)| <= |names|
    ensures |Members(names)| == |names| <==> Distinct(names)
  {
    if names != [] {
      var p, last := names[..|names| - 1], names[|names| - 1];
      assert names == p + [last];
      MembersCount(p);
      assert Members(names) == Members(p) + {last};
      assert Distinct(names) <==> Distinct(p) && last !in p by {
        DistinctSnoc(p, last);
      }
    }
  }

  /** As many distinct known names as there are groups: the groups' names are distinct, and these are all of them. */
  lemma AllNamed(gs: seq<GroupConfig>, names: seq<string>)
    requires |names| == |gs| && Distinct(names) && forall i :: 0 <= i < |names| ==> HasGroup(gs, names[i])
    ensures Distinct(NamesOf(gs)) && Members(names) == Members(NamesOf(gs))
  {
    MembersCount(names);
    MembersCount(NamesOf(gs));
    forall x | x in Members(names) ensures x in Members(NamesOf(gs)) {
      var i :| 0 <= i < |names| && names[i] == x;
      var j :| 0 <= j < |gs| && gs[j].name == names[i];
      assert NamesOf(gs)[j] == x;
    }
    SubsetCount(Members(names), Members(NamesOf(gs)));
  }

  lemma SubsetCount(a: set<string>, b: set<string>)
    requires a <= b
    ensures |a| <= |b| && (|a| == |b| ==> a == b)
  {
    var c := b - a;
    assert b == a + c && a !! c;
    assert |b| == |a| + |c|;
    if |a| == |b| { assert c == {}; }
  }

  /** A list of groups with distinct names holds each group once. */
  lemma {:induction false} GroupCount(gs: seq<GroupConfig>, g: GroupConfig)
    requires Distinct(NamesOf(gs))
    ensures multiset(gs)[g] == if g in gs then 1 else 0
  {
    if gs != [] {
      var p, last := gs[..|gs| - 1], gs[|gs| - 1];
      assert gs == p + [last];
      assert NamesOf(gs) == NamesOf(p) + [last.name];
      DistinctSnoc(NamesOf(p), last.name);
      GroupCount(p, g);
      forall i | 0 <= i < |p| ensures p[i] != last {
        assert NamesOf(p)[i] == p[i].name && NamesOf(p)[i] in NamesOf(p);
      }
    }
  }

  lemma ReorderedIsPermutation(gs: seq<GroupConfig>, names: seq<string>, next: seq<GroupConfig>)
    requires |names| == |gs| == |next| && Distinct(names)
    requires forall i :: 0 <= i < |names| ==> HasGroup(gs, names[i]) && names[i] in ByName(gs) && next[i] == ByName(gs)[names[i]]
    ensures multiset(next) == multiset(gs) && NamesOf(next) == names
  {
    hide HasGroup;
    AllNamed(gs, names);
    ByNameFinds(gs);
    hide ByName;
    assert NamesOf(next) == names;
    forall g ensures multiset(next)[g] == multiset(gs)[g] {
      GroupCount(next, g);
      GroupCount(gs, g);
      SameGroups(gs, names, next, g);
    }
  }

  lemma SameGroups(gs: seq<GroupConfig>, names: seq<string>, next: seq<GroupConfig>, g: GroupConfig)
    requires |names| == |next| && Distinct(NamesOf(gs)) && Members(names) == Members(NamesOf(gs))
    requires forall i :: 0 <= i < |next| ==> next[i] in gs && next[i].name == names[i]
    ensures g in next <==> g in gs
  {
    if g in gs {
      var j :| 0 <= j < |gs| && gs[j] == g;
      assert NamesOf(gs)[j] == g.name;
      assert g.name in Members(names);
      var i :| 0 <= i < |names| && names[i] == g.name;
      OnlyOne(gs, next[i], g);
      assert next[i] in next;
    }
  }

  lemma OnlyOne(gs: seq<GroupConfig>, a: GroupConfig, b: GroupConfig)
    requires Distinct(NamesOf(gs)) && a in gs && b in gs && a.name == b.name
    ensures a == b
  {
    var i :| 0 <= i < |gs| && gs[i] == a;
    var j :| 0 <= j < |gs| && gs[j] == b;
    assert NamesOf(gs)[i] == NamesOf(gs)[j];
  }

  /** An order is accepted exactly if it names every group once, no two groups have one name, and none has the empty one. */
  lemma MayReorderIff(gs: seq<GroupConfig>, names: seq<string>)
    ensures MayReorder(gs, names) <==> multiset(names) == multiset(NamesOf(gs)) && Distinct(NamesOf(gs)) && "" !in names
  {
    hide HasGroup;
    var ns := NamesOf(gs);
    if MayReorder(gs, names) {
      AllNamed(gs, names);
      forall x ensures multiset(names)[x] == multiset(ns)[x] {
        DistinctCount(names, x);
        DistinctCount(ns, x);
        assert x in Members(names) <==> x in Members(ns);
      }
    }
    if multiset(names) == multiset(ns) && Distinct(ns) && "" !in names {
      assert |multiset(names)| == |names| && |multiset(ns)| == |ns|;
      forall i, j | 0 <= i < j < |names| ensures names[i] != names[j] {
        if names[i] == names[j] {
          TwiceCounted(names, i, j);
          DistinctCount(ns, names[i]);
        }
      }
      forall i | 0 <= i < |names| ensures names[i] != "" && HasGroup(gs, names[i]) {
        assert names[i] in multiset(ns);
        var k :| 0 <= k < |ns| && ns[k] == names[i];
        NamedAt(gs, k);
      }
    }
  }

  lemma NamedAt(gs: seq<GroupConfig>, k: nat)
    requires k < |gs|
    ensures HasGroup(gs, gs[k].name)
  {
  }

  lemma {:induction false} DistinctCount(xs: seq<string>, x: string)
    requires Distinct(xs)
    ensures multiset(xs)[x] == if x in xs then 1 else 0
  {
    if xs != [] {
      var p, last := xs[..|xs| - 1], xs[|xs| - 1];
      assert xs == p + [last];
      DistinctSnoc(p, last);
      DistinctCount(p, x);
    }
  }

  lemma TwiceCounted(xs: seq<string>, i: nat, j: nat)
    requires i < j < |xs| && xs[i] == xs[j]
    ensures multiset(xs)[xs[i]] >= 2
  {
    assert xs == xs[..i] + [xs[i]] + xs[i + 1..j] + [xs[j]] + xs[j + 1..];
  }
}
