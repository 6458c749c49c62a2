/** Model groups and redirects as the resolver holds them, and the graph of references between groups. */
module ModelConfig {
  import opened Wire

  datatype Exposure = Public | Hidden | Internal

  datatype Entry = Entry(model: string, weight: int)

  datatype GroupDef = GroupDef(name: string, mode: string, exposure: Exposure, models: seq<Entry>, contextLength: Option<int>)

  datatype RedirectDef = RedirectDef(source: string, target: string, finalGroup: string, exposure: Exposure)

  datatype Tables = Tables(groups: map<string, GroupDef>, redirects: map<string, RedirectDef>)

  /** An entry with a slash names a provider's model, one without refers to a group or redirect. */
  predicate IsLeaf(e: Entry) {
    '/' in e.model
  }

  function FirstSlash(s: string): (i: nat)
    requires '/' in s
    ensures i < |s| && s[i] == '/' && '/' !in s[..i]
  {
    if s[0] == '/' then 0
    else
      assert s == [s[0]] + s[1..];
      var j := FirstSlash(s[1..]);
      assert s[..j + 1] == [s[0]] + s[1..][..j];
      j + 1
  }

  datatype LeafKey = LeafKey(provider: string, upstream: string)

  /** A provider and what it calls the model: what comes before the first slash, and what comes after it. */
  function KeyOf(e: Entry): LeafKey
    requires IsLeaf(e)
  {
    var i := FirstSlash(e.model);
    LeafKey(e.model[..i], e.model[i + 1..])
  }

  /** The key has all of the entry's name, and is the only one that has it and no slash in the provider. */
  lemma KeyIsModel(e: Entry, key: LeafKey)
    requires IsLeaf(e)
    ensures key == KeyOf(e) <==> key.provider + "/" + key.upstream == e.model && '/' !in key.provider
  {
    var i := FirstSlash(e.model);
    assert e.model == e.model[..i] + "/" + e.model[i + 1..];
    if key.provider + "/" + key.upstream == e.model && '/' !in key.provider {
      assert e.model[|key.provider|] == '/';
      assert forall j :: 0 <= j < |key.provider| ==> e.model[j] == key.provider[j];
      assert forall j :: 0 <= j < i ==> e.model[j] == e.model[..i][j];
      assert |key.provider| == i;
      assert e.model[..i] == key.provider && e.model[i + 1..] == key.upstream;
    }
  }

  /** The group a name without a slash stands for; "" if there is none. */
  function ResolveName(t: Tables, name: string): string {
    if name in t.groups then name
    else if name in t.redirects then t.redirects[name].finalGroup
    else ""
  }

  /** The group an entry refers to; "" for a leaf or an unknown name. */
  function Target(t: Tables, e: Entry): string {
    if IsLeaf(e) then "" else ResolveName(t, e.model)
  }

  // ---- the reference graph ----

  predicate Edge(t: Tables, u: string, v: string) {
    && u in t.groups && v != ""
    && exists i :: 0 <= i < |t.groups[u].models| && Target(t, t.groups[u].models[i]) == v
  }

  /** A walk along references. */
  ghost predicate Walk(t: Tables, p: seq<string>) {
    p != [] && forall i :: 0 <= i < |p| - 1 ==> Edge(t, p[i], p[i + 1])
  }

  ghost predicate Loop(t: Tables, p: seq<string>) {
    |p| >= 2 && Walk(t, p) && p[0] == p[|p| - 1]
  }

  ghost predicate Cyclic(t: Tables) {
    exists p :: Loop(t, p)
  }

  ghost predicate Reaches(t: Tables, u: string, v: string) {
    exists p :: Walk(t, p) && p[0] == u && p[|p| - 1] == v
  }

  /** Redirects lead to groups, so every reference does. */
  ghost predicate Closed(t: Tables) {
    forall r :: r in t.redirects ==> t.redirects[r].finalGroup in t.groups
  }

  lemma TargetIsGroup(t: Tables, e: Entry)
    requires Closed(t)
    ensures Target(t, e) != "" ==> Target(t, e) in t.groups
  {
  }

  /** Numbers that fall along every reference. */
  ghost predicate Ranked(t: Tables, rank: map<string, nat>) {
    && (forall u :: u in t.groups ==> u in rank)
    && (forall u, v :: Edge(t, u, v) ==> u in rank && v in rank && rank[v] < rank[u])
  }

  lemma WalkTail(t: Tables, p: seq<string>)
    requires Walk(t, p) && |p| > 1
    ensures Walk(t, p[1..])
  {
    hide Edge;
    var q := p[1..];
    forall i | 0 <= i < |q| - 1 ensures Edge(t, q[i], q[i + 1]) {
      assert Edge(t, p[i + 1], p[i + 1 + 1]);
    }
  }

  lemma {:induction false} RankFalls(t: Tables, rank: map<string, nat>, p: seq<string>)
    requires Ranked(t, rank) && Walk(t, p) && |p| >= 2
    ensures p[0] in rank && p[|p| - 1] in rank && rank[p[|p| - 1]] < rank[p[0]]
  {
    hide Edge;
    assert Edge(t, p[0], p[0 + 1]);
    if |p| > 2 {
      WalkTail(t, p);
      RankFalls(t, rank, p[1..]);
    }
  }

  lemma RankedIsAcyclic(t: Tables, rank: map<string, nat>)
    requires Ranked(t, rank)
    ensures !Cyclic(t)
  {
    hide Edge;
    forall p ensures !Loop(t, p) {
      if |p| >= 2 && Walk(t, p) {
        RankFalls(t, rank, p);
      }
    }
  }

  lemma WalkOne(t: Tables, u: string)
    ensures Walk(t, [u]) && Reaches(t, u, u)
  {
    assert Walk(t, [u]);
  }

  lemma WalkStep(t: Tables, u: string, v: string, w: string)
    requires Edge(t, u, v) && Reaches(t, v, w)
    ensures Reaches(t, u, w)
  {
    hide Edge;
    var p :| Walk(t, p) && p[0] == v && p[|p| - 1] == w;
    var q := [u] + p;
    assert forall i :: 1 <= i < |q| ==> q[i] == p[i - 1];
    assert Walk(t, q);
  }

  lemma ReachesSplit(t: Tables, u: string, w: string)
    requires Reaches(t, u, w)
    ensures u == w || exists v :: Edge(t, u, v) && Reaches(t, v, w)
  {
    hide Edge;
    var p :| Walk(t, p) && p[0] == u && p[|p| - 1] == w;
    if |p| > 1 {
      var q := p[1..];
      WalkTail(t, p);
      assert Edge(t, p[0], p[0 + 1]);
      assert q[0] == p[1] && q[|q| - 1] == w;
    }
  }
}
