/** What a configuration says of the names it defines: who may call them, their modes, and whether the names a spoke
    lists are those its resolver serves. */
module CallableNames {
  import opened Wire
  import opened ModelConfig
  import opened Aliases
  import R = Resolver
  import ContextLengths
  import MetadataSnapshot

  /** An exposure that is not set, public or hidden lets a caller in; internal does not. */
  predicate LetsIn(e: Option<Exposure>) {
    e != Some(Internal)
  }

  /** The last group with a name. */
  predicate LastGroup(gs: seq<R.GroupConfig>, i: int, name: string) {
    0 <= i < |gs| && gs[i].name == name && forall j :: i < j < |gs| ==> gs[j].name != name
  }

  lemma LastSnoc(p: seq<R.GroupConfig>, g: R.GroupConfig, i: int, name: string)
    requires LastGroup(p, i, name) && g.name != name
    ensures LastGroup(p + [g], i, name)
  {
    assert forall j :: 0 <= j < |p| ==> (p + [g])[j] == p[j];
  }

  lemma NameSnoc(p: seq<R.GroupConfig>, g: R.GroupConfig, name: string)
    ensures (exists i :: 0 <= i < |p + [g]| && (p + [g])[i].name == name) <==> g.name == name || exists i :: 0 <= i < |p| && p[i].name == name
  {
    var gs := p + [g];
    assert gs[|p|] == g && forall i :: 0 <= i < |p| ==> gs[i] == p[i];
  }

  lemma {:induction false} TableHasLast(gs: seq<R.GroupConfig>, name: string)
    ensures var t := R.GroupTable(gs);
            && (name in t ==> exists i :: 0 <= i < |gs| && LastGroup(gs, i, name) && t[name] == R.DefOf(gs[i]))
            && (name in t <==> exists i :: 0 <= i < |gs| && gs[i].name == name)
  {
    hide R.DefOf;
    if gs != [] {
      var p, last := gs[..|gs| - 1], gs[|gs| - 1];
      assert gs == p + [last];
      TableHasLast(p, name);
      NameSnoc(p, last, name);
      if last.name == name {
        assert LastGroup(gs, |gs| - 1, name);
      } else if name in R.GroupTable(p) {
        hide LastGroup;
        var i :| 0 <= i < |p| && LastGroup(p, i, name) && R.GroupTable(p)[name] == R.DefOf(p[i]);
        LastSnoc(p, last, i, name);
        assert gs[i] == p[i];
      }
    }
  }

  lemma OneLast(gs: seq<R.GroupConfig>, i: int, j: int, name: string)
    requires LastGroup(gs, i, name) && LastGroup(gs, j, name)
    ensures i == j
  {
  }

  /** The mode of a group: the one written, but failover if none is, and one name for load balancing. */
  lemma ModeTold(cfg: R.Config, t: Tables, name: string, i: int)
    requires R.TablesFor(cfg, t) && LastGroup(cfg.groups, i, name)
    ensures name in t.groups
    ensures var mode, written := t.groups[name].mode, cfg.groups[i].mode;
            && mode !in {"", "loadbalance"}
            && (written !in {"", "loadbalance"} ==> mode == written)
            && (written == "" ==> mode == "failover") && (written == "loadbalance" ==> mode == "load-balance")
    ensures t.groups[name].name == name && t.groups[name].models == cfg.groups[i].models
            && t.groups[name].contextLength == cfg.groups[i].contextLength
  {
    hide R.GroupTable;
    TableHasLast(cfg.groups, name);
    var j :| 0 <= j < |cfg.groups| && LastGroup(cfg.groups, j, name) && t.groups[name] == R.DefOf(cfg.groups[j]);
    OneLast(cfg.groups, i, j, name);
  }

  /** The entry that counts for a name lets callers in. */
  ghost predicate LastLetsIn(cfg: R.Config, name: string) {
    || (exists i :: LastGroup(cfg.groups, i, name) && LetsIn(cfg.groups[i].exposure))
    || (exists i :: LastIn(cfg.redirects, i, name) && LetsIn(cfg.redirects[i].exposure))
  }

  /** A name is defined. */
  ghost predicate Defined(cfg: R.Config, name: string) {
    || (exists i :: LastGroup(cfg.groups, i, name))
    || (exists i :: LastIn(cfg.redirects, i, name))
  }

  lemma GroupTold(cfg: R.Config, t: Tables, name: string)
    requires R.TablesFor(cfg, t)
    ensures name in t.groups <==> exists i :: LastGroup(cfg.groups, i, name)
    ensures name in t.groups ==>
              (R.DirectCallable(t.groups[name].exposure) <==> exists i :: LastGroup(cfg.groups, i, name) && LetsIn(cfg.groups[i].exposure))
  {
    hide R.GroupTable, LastGroup;
    TableHasLast(cfg.groups, name);
    if name in t.groups {
      var i :| 0 <= i < |cfg.groups| && LastGroup(cfg.groups, i, name) && t.groups[name] == R.DefOf(cfg.groups[i]);
      forall j | LastGroup(cfg.groups, j, name) ensures j == i { OneLast(cfg.groups, j, i, name); }
    } else if j :| LastGroup(cfg.groups, j, name) {
      IsThere(cfg.groups, j, name);
    }
  }

  lemma IsThere(gs: seq<R.GroupConfig>, i: int, name: string)
    requires LastGroup(gs, i, name)
    ensures exists k :: 0 <= k < |gs| && gs[k].name == name
  {
  }

  lemma RedirectTold(cfg: R.Config, t: Tables, name: string)
    requires R.TablesFor(cfg, t)
    ensures name in t.redirects <==> exists i :: LastIn(cfg.redirects, i, name)
    ensures name in t.redirects ==>
              (R.DirectCallable(t.redirects[name].exposure) <==> exists i :: LastIn(cfg.redirects, i, name) && LetsIn(cfg.redirects[i].exposure))
  {
    hide R.GroupTable, Leads;
    if name in t.redirects {
      var i :| 0 <= i < |cfg.redirects| && LastIn(cfg.redirects, i, name) && FromRedirect(t.groups.Keys, cfg.redirects, cfg.redirects[i], t.redirects[name]);
      forall j | LastIn(cfg.redirects, j, name) ensures j == i { }
    }
  }

  lemma NotBoth(cfg: R.Config, t: Tables, name: string)
    requires R.TablesFor(cfg, t) && Buildable(t.groups.Keys, cfg.redirects) && name in t.groups
    ensures forall i :: 0 <= i < |cfg.redirects| ==> cfg.redirects[i].source != name
  {
    hide R.TablesFor, LeadsSomewhere;
    forall i | 0 <= i < |cfg.redirects| ensures cfg.redirects[i].source != name {
      assert WellNamed(t.groups.Keys, cfg.redirects[i]);
    }
  }

  /** Who may call a name, told from the configuration: anyone inside may call whatever is defined, others only a name whose
      last group or redirect is not internal. */
  lemma CallableTold(cfg: R.Config, t: Tables, name: string)
    requires R.TablesFor(cfg, t) && Buildable(t.groups.Keys, cfg.redirects)
    ensures R.Callable(t, name, true) <==> Defined(cfg, name)
    ensures R.Callable(t, name, false) <==> LastLetsIn(cfg, name)
  {
    GroupTold(cfg, t, name);
    RedirectTold(cfg, t, name);
    if name in t.groups {
      NotBoth(cfg, t, name);
    }
    hide R.TablesFor, R.DirectCallable, LastGroup, LetsIn, Buildable;
  }

  // ---- the names a spoke lists ----

  ghost predicate GroupCovered(cfg: R.Config, name: string) {
    exists i, j :: 0 <= i < j && LastGroup(cfg.groups, j, name) && cfg.groups[i].name == name
                   && LetsIn(cfg.groups[i].exposure) && !LetsIn(cfg.groups[j].exposure)
  }

  ghost predicate RedirectCovered(cfg: R.Config, name: string) {
    exists i, j :: 0 <= i < j && LastIn(cfg.redirects, j, name) && cfg.redirects[i].source == name
                   && LetsIn(cfg.redirects[i].exposure) && !LetsIn(cfg.redirects[j].exposure)
  }

  lemma OpenIsLetIn(e: Option<Exposure>)
    ensures MetadataSnapshot.OpenTo(e) <==> LetsIn(e)
  {
  }

  lemma {:induction false} LastExists(gs: seq<R.GroupConfig>, i: int, name: string) returns (j: int)
    requires 0 <= i < |gs| && gs[i].name == name
    ensures i <= j && LastGroup(gs, j, name)
    decreases |gs| - i
  {
    if k :| i < k < |gs| && gs[k].name == name {
      j := LastExists(gs, k, name);
    } else {
      j := i;
    }
  }

  lemma {:induction false} LastRedirect(rs: seq<Redirect>, i: int, name: string) returns (j: int)
    requires 0 <= i < |rs| && rs[i].source == name
    ensures i <= j && LastIn(rs, j, name)
    decreases |rs| - i
  {
    if k :| i < k < |rs| && rs[k].source == name {
      j := LastRedirect(rs, k, name);
    } else {
      j := i;
    }
  }

  predicate GroupListed(cfg: R.Config, name: string) {
    exists i :: 0 <= i < |cfg.groups| && cfg.groups[i].name == name && LetsIn(cfg.groups[i].exposure)
  }

  predicate RedirectListed(cfg: R.Config, name: string) {
    exists i :: 0 <= i < |cfg.redirects| && cfg.redirects[i].source == name && LetsIn(cfg.redirects[i].exposure)
  }

  lemma ListedGroups(cfg: R.Config, name: string)
    ensures GroupListed(cfg, name) <==> (exists i :: LastGroup(cfg.groups, i, name) && LetsIn(cfg.groups[i].exposure)) || GroupCovered(cfg, name)
    ensures GroupCovered(cfg, name) ==> forall i :: LastGroup(cfg.groups, i, name) ==> !LetsIn(cfg.groups[i].exposure)
  {
    hide LetsIn;
    if GroupListed(cfg, name) {
      var i :| 0 <= i < |cfg.groups| && cfg.groups[i].name == name && LetsIn(cfg.groups[i].exposure);
      var j := LastExists(cfg.groups, i, name);
    }
  }

  lemma ListedRedirects(cfg: R.Config, name: string)
    ensures RedirectListed(cfg, name) <==> (exists i :: LastIn(cfg.redirects, i, name) && LetsIn(cfg.redirects[i].exposure)) || RedirectCovered(cfg, name)
    ensures RedirectCovered(cfg, name) ==> forall i :: LastIn(cfg.redirects, i, name) ==> !LetsIn(cfg.redirects[i].exposure)
  {
    hide LetsIn;
    if RedirectListed(cfg, name) {
      var i :| 0 <= i < |cfg.redirects| && cfg.redirects[i].source == name && LetsIn(cfg.redirects[i].exposure);
      var j := LastRedirect(cfg.redirects, i, name);
    }
  }

  lemma ListedTold(cfg: R.Config, name: string)
    ensures MetadataSnapshot.IsCallableName(cfg, name) <==> name != "" && (GroupListed(cfg, name) || RedirectListed(cfg, name))
  {
    forall e ensures MetadataSnapshot.OpenTo(e) <==> LetsIn(e) { OpenIsLetIn(e); }
    hide MetadataSnapshot.OpenTo, LetsIn;
  }

  /** Every name the resolver lets others call, but the empty one, is listed. A listed name is refused by the resolver exactly if
      it is defined twice, first for all and last as internal. */
  lemma ListedIffCallable(cfg: R.Config, t: Tables, name: string)
    requires R.TablesFor(cfg, t) && Buildable(t.groups.Keys, cfg.redirects) && name != ""
    ensures R.Callable(t, name, false) ==> MetadataSnapshot.IsCallableName(cfg, name)
    ensures MetadataSnapshot.IsCallableName(cfg, name) && !R.Callable(t, name, false) <==> GroupCovered(cfg, name) || RedirectCovered(cfg, name)
  {
    CallableTold(cfg, t, name);
    ListedTold(cfg, name);
    ListedGroups(cfg, name);
    ListedRedirects(cfg, name);
    GroupTold(cfg, t, name);
    if name in t.groups {
      NotBoth(cfg, t, name);
      assert !RedirectCovered(cfg, name);
    } else {
      assert !GroupCovered(cfg, name);
    }
    hide R.TablesFor, R.Callable, MetadataSnapshot.IsCallableName, LastGroup, LetsIn, Buildable;
  }

  // ---- the length a spoke reports ----

  /** The length reported for a name: the positive setting of its group; where nothing is set, the least one offered below it;
      none if what is set is not positive, or nothing is offered. */
  lemma KnownTold(r: R.Resolver, lookup: LeafKey -> Option<int>, name: string)
    requires r.Valid()
    ensures var k, g := MetadataSnapshot.KnownLength(r, lookup, name), R.FinalGroup(r.t, name);
            if g !in r.t.groups then k == None
            else if r.t.groups[g].contextLength.Some? then
              if r.t.groups[g].contextLength.value > 0 then k == r.t.groups[g].contextLength else k == None
            else
              && (k.Some? ==> ContextLengths.Offered(r.t, lookup, g, k.value))
              && forall x :: ContextLengths.Offered(r.t, lookup, g, x) ==> k.Some? && k.value <= x
  {
    hide ContextLengths.Offered, R.Smallest;
    var g := R.FinalGroup(r.t, name);
    if g in r.t.groups {
      ContextLengths.LeastOffered(r.t, r.rank, lookup, g);
      forall x | ContextLengths.Offered(r.t, lookup, g, x) ensures x > 0 {
        OfferedIsPositive(r.t, lookup, g, x);
      }
    }
  }

  lemma OfferedIsPositive(t: Tables, lookup: LeafKey -> Option<int>, g: string, x: int)
    requires ContextLengths.Offered(t, lookup, g, x)
    ensures x > 0
  {
    var p :| ContextLengths.OpenWalk(t, p) && p[0] == g && ContextLengths.Offers(t, lookup, p[|p| - 1], x);
  }
}
