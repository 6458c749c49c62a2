/** Following redirects: from a name, along the first redirect for each, to a group. */
module Aliases {
  import opened Wire
  import opened ModelConfig

  /** A redirect as configured. */
  datatype Redirect = Redirect(source: string, target: string, exposure: Option<Exposure>)

  /** The first redirect for a name says where it leads. */
  function Next(cfg: seq<Redirect>, name: string): Option<string> {
    if cfg == [] then None
    else if cfg[0].source == name then Some(cfg[0].target)
    else Next(cfg[1..], name)
  }

  /** Where a name is after `k` redirects. */
  function After(cfg: seq<Redirect>, name: string, k: nat): Option<string> {
    if k == 0 then Some(name)
    else
      var m := After(cfg, name, k - 1);
      if m.None? then None else Next(cfg, m.value)
  }

  /** `g` is the first group met when following redirects from `name`. */
  ghost predicate Leads(groups: set<string>, cfg: seq<Redirect>, name: string, g: string) {
    exists k: nat :: LeadsIn(groups, cfg, name, g, k)
  }

  ghost predicate LeadsSomewhere(groups: set<string>, cfg: seq<Redirect>, name: string) {
    exists g :: Leads(groups, cfg, name, g)
  }

  ghost predicate LeadsIn(groups: set<string>, cfg: seq<Redirect>, name: string, g: string, k: nat) {
    && g in groups && After(cfg, name, k) == Some(g)
    && forall j :: 0 <= j < k ==> After(cfg, name, j).Some? && After(cfg, name, j).value !in groups
  }

  function Sources(cfg: seq<Redirect>): set<string> {
    set i | 0 <= i < |cfg| :: cfg[i].source
  }

  lemma {:induction false} NextIsSource(cfg: seq<Redirect>, name: string)
    ensures Next(cfg, name).Some? <==> name in Sources(cfg)
  {
    if cfg != [] {
      NextIsSource(cfg[1..], name);
      if name in Sources(cfg) && cfg[0].source != name {
        var i :| 0 <= i < |cfg| && cfg[i].source == name;
        assert cfg[1..][i - 1] == cfg[i];
      }
      if name in Sources(cfg[1..]) {
        var i :| 0 <= i < |cfg[1..]| && cfg[1..][i].source == name;
        assert cfg[i + 1].source == name;
      }
      if cfg[0].source == name { assert cfg[0].source in Sources(cfg); }
    }
  }

  lemma {:induction false} AfterAdds(cfg: seq<Redirect>, name: string, j: nat, k: nat)
    requires After(cfg, name, j).Some?
    ensures After(cfg, name, j + k) == After(cfg, After(cfg, name, j).value, k)
    decreases k
  {
    if k > 0 {
      AfterAdds(cfg, name, j, k - 1);
    }
  }

  /** A chain that comes back to a name never leaves the names in between. */
  lemma {:induction false} StaysInLoop(groups: set<string>, cfg: seq<Redirect>, name: string, n: nat, k: nat)
    requires n > 0 && After(cfg, name, n) == Some(name)
    requires forall j :: 0 <= j < n ==> After(cfg, name, j).Some? && After(cfg, name, j).value !in groups
    ensures After(cfg, name, k).Some? && After(cfg, name, k).value !in groups
    decreases k
  {
    if k >= n {
      StaysInLoop(groups, cfg, name, n, k - n);
      AfterAdds(cfg, name, n, k - n);
    }
  }

  lemma NoWayOut(groups: set<string>, cfg: seq<Redirect>, start: string, j: nat, k: nat)
    requires j < k && After(cfg, start, k).Some? && After(cfg, start, j) == After(cfg, start, k)
    requires forall i :: 0 <= i < k ==> After(cfg, start, i).Some? && After(cfg, start, i).value !in groups
    ensures forall g :: !Leads(groups, cfg, start, g)
  {
    var name := After(cfg, start, j).value;
    AfterAdds(cfg, start, j, k - j);
    forall i | 0 <= i < k - j ensures After(cfg, name, i).Some? && After(cfg, name, i).value !in groups {
      AfterAdds(cfg, start, j, i);
    }
    forall g, m: nat ensures !LeadsIn(groups, cfg, start, g, m) {
      if m >= k {
        AfterAdds(cfg, start, j, m - j);
        StaysInLoop(groups, cfg, name, k - j, m - j);
      }
    }
  }

  lemma {:induction false} NoneStays(cfg: seq<Redirect>, name: string, k: nat, m: nat)
    requires After(cfg, name, k).None? && k <= m
    ensures After(cfg, name, m).None?
    decreases m
  {
    if k < m {
      NoneStays(cfg, name, k, m - 1);
    }
  }

  lemma DeadEnd(groups: set<string>, cfg: seq<Redirect>, start: string, k: nat)
    requires After(cfg, start, k + 1).None?
    requires forall i :: 0 <= i <= k && After(cfg, start, i).Some? ==> After(cfg, start, i).value !in groups
    ensures forall g :: !Leads(groups, cfg, start, g)
  {
    forall g, m: nat ensures !LeadsIn(groups, cfg, start, g, m) {
      if m > k {
        NoneStays(cfg, start, k + 1, m);
      }
    }
  }

  /** A chain leads to one group at most. */
  lemma LeadsOnce(groups: set<string>, cfg: seq<Redirect>, name: string, g: string, h: string)
    requires Leads(groups, cfg, name, g) && Leads(groups, cfg, name, h)
    ensures g == h
  {
    var j: nat :| LeadsIn(groups, cfg, name, g, j);
    var k: nat :| LeadsIn(groups, cfg, name, h, k);
    var first := if j < k then j else k;
    assert After(cfg, name, first).Some?;
  }

  predicate Passed(cfg: seq<Redirect>, start: string, k: nat, x: string) {
    exists i :: 0 <= i < k && After(cfg, start, i) == Some(x)
  }

  /** The names met so far on a chain, `k` redirects long. */
  ghost predicate Trail(groups: set<string>, cfg: seq<Redirect>, start: string, k: nat, visited: set<string>) {
    && (forall i :: 0 <= i < k ==> After(cfg, start, i).Some? && After(cfg, start, i).value !in groups && After(cfg, start, i).value in visited)
    && (forall x :: x in visited ==> Passed(cfg, start, k, x))
  }

  method FindTarget(cfg: seq<Redirect>, name: string) returns (r: Option<string>)
    ensures r == Next(cfg, name)
  {
    for i := 0 to |cfg|
      invariant Next(cfg, name) == Next(cfg[i..], name)
    {
      if cfg[i].source == name {
        return Some(cfg[i].target);
      }
    }
    return None;
  }

  /** The group a name leads to, found by following redirects; none exactly when there is none,
      be it for a loop or for a dead end. */
  method ResolveAlias(groups: set<string>, cfg: seq<Redirect>, name: string, visited: set<string>,
                      ghost start: string, ghost k: nat)
    returns (r: Option<string>)
    requires Trail(groups, cfg, start, k, visited) && After(cfg, start, k) == Some(name)
    ensures r.Some? ==> Leads(groups, cfg, start, r.value)
    ensures r.None? ==> !LeadsSomewhere(groups, cfg, start)
    decreases Sources(cfg) - visited
  {
    if name in visited {
      assert Passed(cfg, start, k, name);
      ghost var j :| 0 <= j < k && After(cfg, start, j) == Some(name);
      NoWayOut(groups, cfg, start, j, k);
      return None;
    }
    if name in groups {
      assert LeadsIn(groups, cfg, start, name, k);
      return Some(name);
    }
    var next := FindTarget(cfg, name);
    NextIsSource(cfg, name);
    if next.None? {
      DeadEnd(groups, cfg, start, k);
      return None;
    }
    TrailGrows(groups, cfg, start, k, visited, name);
    r := ResolveAlias(groups, cfg, next.value, visited + {name}, start, k + 1);
  }

  lemma TrailGrows(groups: set<string>, cfg: seq<Redirect>, start: string, k: nat, visited: set<string>, name: string)
    requires Trail(groups, cfg, start, k, visited) && After(cfg, start, k) == Some(name) && name !in groups
    ensures Trail(groups, cfg, start, k + 1, visited + {name})
  {
    hide After, Passed;
    forall x | x in visited + {name} ensures Passed(cfg, start, k + 1, x) {
      PassedMore(cfg, start, k, x, name);
    }
  }

  lemma PassedMore(cfg: seq<Redirect>, start: string, k: nat, x: string, name: string)
    requires After(cfg, start, k) == Some(name)
    ensures Passed(cfg, start, k, x) || x == name ==> Passed(cfg, start, k + 1, x)
  {
    hide After;
    if Passed(cfg, start, k, x) {
      var i :| 0 <= i < k && After(cfg, start, i) == Some(x);
      assert 0 <= i < k + 1;
    }
  }

  lemma EmptyTrail(groups: set<string>, cfg: seq<Redirect>, start: string)
    ensures Trail(groups, cfg, start, 0, {}) && After(cfg, start, 0) == Some(start)
  {
  }

  // ---- the redirect table ----

  predicate WellNamed(groups: set<string>, r: Redirect) {
    '/' !in r.source && '/' !in r.target && r.source !in groups
  }

  /** The table holds for each source its last redirect, with the group that one's target leads to. */
  ghost predicate TableFor(groups: set<string>, cfg: seq<Redirect>, m: map<string, RedirectDef>) {
    && m.Keys == Sources(cfg)
    && forall s :: s in m ==> EntryFor(groups, cfg, cfg, s, m[s])
  }

  /** `def` comes from the last redirect for `s` among `part`, resolved within `cfg`. */
  ghost predicate EntryFor(groups: set<string>, cfg: seq<Redirect>, part: seq<Redirect>, s: string, def: RedirectDef) {
    exists i :: 0 <= i < |part| && LastIn(part, i, s) && FromRedirect(groups, cfg, part[i], def)
  }

  predicate LastIn(part: seq<Redirect>, i: int, s: string) {
    0 <= i < |part| && part[i].source == s && forall j :: i < j < |part| ==> part[j].source != s
  }

  ghost predicate FromRedirect(groups: set<string>, cfg: seq<Redirect>, r: Redirect, def: RedirectDef) {
    && def.source == r.source && def.target == r.target
    && def.exposure == (if r.exposure.Some? then r.exposure.value else Public)
    && Leads(groups, cfg, r.target, def.finalGroup)
  }

  ghost predicate Buildable(groups: set<string>, cfg: seq<Redirect>) {
    && (forall i :: 0 <= i < |cfg| ==> WellNamed(groups, cfg[i]))
    && (forall i :: 0 <= i < |cfg| ==> LeadsSomewhere(groups, cfg, cfg[i].target))
  }

  lemma EntryMoves(groups: set<string>, cfg: seq<Redirect>, part: seq<Redirect>, r: Redirect, s: string, def: RedirectDef)
    requires s != r.source && EntryFor(groups, cfg, part, s, def)
    ensures EntryFor(groups, cfg, part + [r], s, def)
  {
    hide FromRedirect;
    var i :| 0 <= i < |part| && LastIn(part, i, s) && FromRedirect(groups, cfg, part[i], def);
    assert (part + [r])[i] == part[i] && LastIn(part + [r], i, s);
  }

  lemma EntryNew(groups: set<string>, cfg: seq<Redirect>, part: seq<Redirect>, r: Redirect, def: RedirectDef)
    requires FromRedirect(groups, cfg, r, def)
    ensures EntryFor(groups, cfg, part + [r], r.source, def)
  {
    hide FromRedirect;
    assert (part + [r])[|part|] == r && LastIn(part + [r], |part|, r.source);
  }

  /** Checks every redirect and resolves it; fails exactly when a name is malformed or a group's,
      or some target leads nowhere. */
  method BuildRedirects(groups: set<string>, cfg: seq<Redirect>) returns (r: Option<map<string, RedirectDef>>)
    ensures r.Some? <==> Buildable(groups, cfg)
    ensures r.Some? ==> TableFor(groups, cfg, r.value)
  {
    hide Leads, FromRedirect, LastIn;
    for i := 0 to |cfg|
      invariant forall j :: 0 <= j < i ==> WellNamed(groups, cfg[j])
    {
      if '/' in cfg[i].source || '/' in cfg[i].target || cfg[i].source in groups {
        assert !WellNamed(groups, cfg[i]);
        return None;
      }
    }
    var result: map<string, RedirectDef> := map[];
    for i := 0 to |cfg|
      invariant forall j :: 0 <= j < i ==> LeadsSomewhere(groups, cfg, cfg[j].target)
      invariant result.Keys == Sources(cfg[..i])
      invariant forall s :: s in result ==> EntryFor(groups, cfg, cfg[..i], s, result[s])
    {
      hide EntryFor;
      var exposure := if cfg[i].exposure.Some? then cfg[i].exposure.value else Public;
      EmptyTrail(groups, cfg, cfg[i].target);
      var final := ResolveAlias(groups, cfg, cfg[i].target, {}, cfg[i].target, 0);
      if final.None? {
        assert !LeadsSomewhere(groups, cfg, cfg[i].target);
        return None;
      }
      assert LeadsSomewhere(groups, cfg, cfg[i].target);
      var def := RedirectDef(cfg[i].source, cfg[i].target, final.value, exposure);
      assert cfg[..i + 1] == cfg[..i] + [cfg[i]];
      NewDef(groups, cfg, cfg[i], def);
      EntryNew(groups, cfg, cfg[..i], cfg[i], def);
      forall s | s in result && s != cfg[i].source ensures EntryFor(groups, cfg, cfg[..i + 1], s, result[s]) {
        EntryMoves(groups, cfg, cfg[..i], cfg[i], s, result[s]);
      }
      SourcesSnoc(cfg[..i], cfg[i]);
      result := result[cfg[i].source := def];
    }
    assert cfg[..|cfg|] == cfg;
    r := Some(result);
  }

  lemma NewDef(groups: set<string>, cfg: seq<Redirect>, r: Redirect, def: RedirectDef)
    requires Leads(groups, cfg, r.target, def.finalGroup)
    requires def == RedirectDef(r.source, r.target, def.finalGroup, if r.exposure.Some? then r.exposure.value else Public)
    ensures FromRedirect(groups, cfg, r, def)
  {
  }

  lemma SourcesSnoc(cfg: seq<Redirect>, r: Redirect)
    ensures Sources(cfg + [r]) == Sources(cfg) + {r.source}
  {
    forall s ensures s in Sources(cfg + [r]) <==> s in Sources(cfg) + {r.source} {
      if s in Sources(cfg) {
        var i :| 0 <= i < |cfg| && cfg[i].source == s;
        assert (cfg + [r])[i].source == s;
      }
      assert (cfg + [r])[|cfg|] == r;
    }
  }

  // ---- what the table says ----

  lemma TableIsClosed(groups: map<string, GroupDef>, cfg: seq<Redirect>, m: map<string, RedirectDef>)
    requires TableFor(groups.Keys, cfg, m)
    ensures Closed(Tables(groups, m))
  {
    forall s | s in m ensures m[s].finalGroup in groups {
      assert EntryFor(groups.Keys, cfg, cfg, s, m[s]);
      var i :| 0 <= i < |cfg| && LastIn(cfg, i, s) && FromRedirect(groups.Keys, cfg, cfg[i], m[s]);
      var k: nat :| LeadsIn(groups.Keys, cfg, cfg[i].target, m[s].finalGroup, k);
    }
  }

  predicate DistinctSources(cfg: seq<Redirect>) {
    forall i, j :: 0 <= i < j < |cfg| ==> cfg[i].source != cfg[j].source
  }

  lemma {:induction false} NextIsOnly(cfg: seq<Redirect>, i: nat)
    requires i < |cfg| && DistinctSources(cfg)
    ensures Next(cfg, cfg[i].source) == Some(cfg[i].target)
  {
    if i > 0 {
      assert forall j :: 0 <= j < |cfg[1..]| ==> cfg[1..][j] == cfg[j + 1];
      NextIsOnly(cfg[1..], i - 1);
    }
  }

  lemma LeadsFurther(groups: set<string>, cfg: seq<Redirect>, name: string, next: string, g: string)
    requires name !in groups && Next(cfg, name) == Some(next)
    ensures Leads(groups, cfg, next, g) <==> Leads(groups, cfg, name, g)
  {
    if Leads(groups, cfg, next, g) {
      var k: nat :| LeadsIn(groups, cfg, next, g, k);
      AfterAdds(cfg, name, 1, k);
      forall j | 0 <= j < k + 1 ensures After(cfg, name, j).Some? && After(cfg, name, j).value !in groups {
        if j > 0 { AfterAdds(cfg, name, 1, j - 1); }
      }
      assert LeadsIn(groups, cfg, name, g, k + 1);
    }
    if Leads(groups, cfg, name, g) {
      var k: nat :| LeadsIn(groups, cfg, name, g, k);
      AfterAdds(cfg, name, 1, k - 1);
      forall j | 0 <= j < k - 1 ensures After(cfg, next, j).Some? && After(cfg, next, j).value !in groups {
        AfterAdds(cfg, name, 1, j);
      }
      assert LeadsIn(groups, cfg, next, g, k - 1);
    }
  }

  /** With distinct sources, looking a name up in the table is following its redirects. */
  lemma LookupFollows(groups: map<string, GroupDef>, cfg: seq<Redirect>, m: map<string, RedirectDef>, name: string, g: string)
    requires TableFor(groups.Keys, cfg, m) && DistinctSources(cfg)
    requires g != "" && forall i :: 0 <= i < |cfg| ==> cfg[i].source !in groups
    ensures ResolveName(Tables(groups, m), name) == g <==> Leads(groups.Keys, cfg, name, g)
  {
    hide Leads, After;
    if name in groups {
      StartsAtGroup(groups.Keys, cfg, name);
      if Leads(groups.Keys, cfg, name, g) { LeadsOnce(groups.Keys, cfg, name, g, name); }
    } else if name in m {
      assert EntryFor(groups.Keys, cfg, cfg, name, m[name]);
      var i :| 0 <= i < |cfg| && LastIn(cfg, i, name) && FromRedirect(groups.Keys, cfg, cfg[i], m[name]);
      NextIsOnly(cfg, i);
      LeadsFurther(groups.Keys, cfg, name, cfg[i].target, m[name].finalGroup);
      if Leads(groups.Keys, cfg, name, g) { LeadsOnce(groups.Keys, cfg, name, g, m[name].finalGroup); }
    } else {
      NextIsSource(cfg, name);
      LeadsNowhere(groups.Keys, cfg, name, g);
    }
  }

  lemma StartsAtGroup(groups: set<string>, cfg: seq<Redirect>, name: string)
    requires name in groups
    ensures Leads(groups, cfg, name, name)
  {
    assert LeadsIn(groups, cfg, name, name, 0);
  }

  lemma LeadsNowhere(groups: set<string>, cfg: seq<Redirect>, name: string, g: string)
    requires name !in groups && Next(cfg, name).None?
    ensures !Leads(groups, cfg, name, g)
  {
    assert After(cfg, name, 0) == Some(name);
    DeadEnd(groups, cfg, name, 0);
  }
}
