/** Cycle detection in the reference graph: a depth-first search with three colours. */
module Cycles {
  import opened Collections
  import opened Wire
  import opened ModelConfig

  datatype Color = White | Grey | Black

  datatype CycleError = CycleError(from: string, name: string)

  /** The error names a group on a loop and one from which it is reached. */
  ghost predicate OnLoop(t: Tables, e: CycleError) {
    Reaches(t, e.from, e.name) && exists p :: Loop(t, p) && p[0] == e.name
  }

  class Search {
    const t: Tables
    var color: map<string, Color>
    ghost var rank: map<string, nat>   // of the black names, in the order they were finished

    constructor (tables: Tables)
      ensures t == tables && color == map[] && rank == map[]
    {
      t := tables;
      color, rank := map[], map[];
    }

    function ColorOf(name: string): Color
      reads this
    {
      if name in color then color[name] else White
    }

    ghost function Whites(): set<string>
      reads this
    {
      set u | u in t.groups && ColorOf(u) == White
    }

    /** The grey names are those on the path; black names have lower-ranked, black successors. */
    ghost predicate Sound(path: seq<string>)
      reads this
    {
      && (forall u :: ColorOf(u) == Grey <==> u in path)
      && (forall u :: u in rank <==> ColorOf(u) == Black)
      && (forall u, v :: u in rank && Edge(t, u, v) ==> v in rank && rank[v] < rank[u])
      && (forall u :: u in rank ==> rank[u] < |rank|)
      && (path != [] ==> Walk(t, path))
    }

    /** The first `n` references of a group are black. */
    ghost predicate RefsDone(name: string, n: nat)
      requires name in t.groups && n <= |t.groups[name].models|
      reads this
    {
      forall j :: 0 <= j < n && Target(t, t.groups[name].models[j]) != "" ==> ColorOf(Target(t, t.groups[name].models[j])) == Black
    }

    /** Black names stay black, and no name turns white. */
    twostate predicate Grown()
      reads this
    {
      (forall u :: old(ColorOf(u)) == Black ==> ColorOf(u) == Black) && Whites() <= old(Whites())
    }

    method Visit(name: string, path: seq<string>) returns (err: Option<CycleError>)
      requires Sound(path)
      requires path != [] ==> Edge(t, path[|path| - 1], name)
      modifies this`color, this`rank
      ensures err.Some? ==> OnLoop(t, err.value)
      ensures err.None? ==> Sound(path) && ColorOf(name) == Black && Grown()
      decreases Whites(), 0
    {
      hide Edge, Sound;
      if ColorOf(name) == Black {
        return None;
      }
      if ColorOf(name) == Grey {
        OnPath(name, path);
        LoopFound(t, path, name);
        return Some(CycleError(path[0], name));
      }
      Enter(name, path);
      if name in t.groups {
        err := Expand(name, path + [name]);
        if err.Some? {
          return;
        }
      }
      Finish(name, path);
      err := None;
    }

    lemma OnPath(name: string, path: seq<string>)
      requires Sound(path) && ColorOf(name) == Grey
      ensures name in path && Walk(t, path)
    {
    }

    /** A white name goes on the path. */
    method Enter(name: string, path: seq<string>)
      requires Sound(path) && ColorOf(name) == White
      requires path != [] ==> Edge(t, path[|path| - 1], name)
      modifies this`color
      ensures Sound(path + [name]) && name !in path && color == old(color)[name := Grey]
      ensures Whites() == old(Whites()) - {name} && Grown()
    {
      hide Edge, Walk;
      assert name !in path;
      color := color[name := Grey];
      PathGrows(t, path, name);
      forall u ensures ColorOf(u) == Grey <==> u in path + [name] {
        assert u in path + [name] <==> u in path || u == name;
      }
    }

    /** Visits the references of the last name on the path. */
    method Expand(name: string, here: seq<string>) returns (err: Option<CycleError>)
      requires Sound(here) && name in t.groups && here != [] && here[|here| - 1] == name
      modifies this`color, this`rank
      ensures err.Some? ==> OnLoop(t, err.value)
      ensures err.None? ==> Sound(here) && Grown() && RefsDone(name, |t.groups[name].models|)
      decreases Whites(), 1
    {
      hide Edge, Sound;
      var models := t.groups[name].models;
      for i := 0 to |models|
        invariant Sound(here) && Grown() && RefsDone(name, i)
      {
        if IsLeaf(models[i]) {
          continue;
        }
        var target := ResolveName(t, models[i].model);
        if target != "" {
          EntryIsEdge(t, name, i);
          err := Visit(target, here);
          if err.Some? {
            return;
          }
        }
      }
      err := None;
    }

    /** All references of the last name on the path are done: so is it. */
    lemma EdgesDone(name: string, path: seq<string>)
      requires Sound(path) && (name in t.groups ==> RefsDone(name, |t.groups[name].models|))
      ensures forall v :: Edge(t, name, v) ==> v in rank
    {
      hide Target, Walk;
    }

    method Finish(name: string, path: seq<string>)
      requires Sound(path + [name]) && name !in path
      requires name in t.groups ==> RefsDone(name, |t.groups[name].models|)
      modifies this`color, this`rank
      ensures Sound(path) && color == old(color)[name := Black] && Grown()
    {
      hide Target, Walk;
      assert name in path + [name];
      EdgesDone(name, path + [name]);
      RankOneMore(t, rank, name);
      hide Edge, RefsDone;
      color := color[name := Black];
      rank := rank[name := |rank|];
      forall u ensures ColorOf(u) == Grey <==> u in path {
        assert u in path + [name] <==> u in path || u == name;
      }
      PathShrinks(t, path, name);
    }

    /** Searches from every group, in any order: no error exactly when there is no cycle. */
    method Detect() returns (err: Option<CycleError>)
      requires color == map[] && rank == map[]
      modifies this`color, this`rank
      ensures err.Some? <==> Cyclic(t)
      ensures err.Some? ==> OnLoop(t, err.value)
      ensures err.None? ==> Ranked(t, rank)
    {
      hide Edge;
      var names := t.groups.Keys;
      while names != {}
        invariant names <= t.groups.Keys && Sound([])
        invariant forall u :: u in t.groups && u !in names ==> ColorOf(u) == Black
        decreases names
      {
        var _ := Inhabited(names);
        var name :| name in names;
        err := Visit(name, []);
        if err.Some? {
          return;
        }
        names := names - {name};
      }
      EdgesAreRanked();
      RankedIsAcyclic(t, rank);
      err := None;
    }

    lemma EdgesAreRanked()
      requires Sound([]) && forall u :: u in t.groups ==> ColorOf(u) == Black
      ensures Ranked(t, rank)
    {
    }
  }

  /** A name met again on the path closes a loop; in particular the path is not empty. */
  lemma LoopFound(t: Tables, path: seq<string>, name: string)
    requires name in path && Walk(t, path) && Edge(t, path[|path| - 1], name)
    ensures path != [] && OnLoop(t, CycleError(path[0], name))
  {
    hide Edge;
    var i :| 0 <= i < |path| && path[i] == name;
    var p := path[i..] + [name];
    forall k | 0 <= k < |p| - 1 ensures Edge(t, p[k], p[k + 1]) {
      if k + 1 < |path| - i {
        assert Edge(t, path[i + k], path[i + k + 1]);
      }
    }
    assert Loop(t, p);
    var q := path[..i + 1];
    assert Walk(t, q) && q[0] == path[0] && q[|q| - 1] == name;
  }

  lemma PathGrows(t: Tables, path: seq<string>, name: string)
    requires path != [] ==> Walk(t, path) && Edge(t, path[|path| - 1], name)
    ensures Walk(t, path + [name])
  {
    hide Edge;
  }

  /** A name whose references are all ranked is ranked next. */
  lemma RankOneMore(t: Tables, rank: map<string, nat>, name: string)
    requires name !in rank && (forall v :: Edge(t, name, v) ==> v in rank) && (forall u :: u in rank ==> rank[u] < |rank|)
    requires forall u, v :: u in rank && Edge(t, u, v) ==> v in rank && rank[v] < rank[u]
    ensures var more := rank[name := |rank|];
            && (forall u, v :: u in more && Edge(t, u, v) ==> v in more && more[v] < more[u])
            && (forall u :: u in more ==> more[u] < |more|)
  {
    hide Edge;
    assert rank[name := |rank|].Keys == rank.Keys + {name};
    assert |rank[name := |rank|]| == |rank[name := |rank|].Keys| && |rank| == |rank.Keys|;
  }

  lemma PathShrinks(t: Tables, path: seq<string>, name: string)
    requires Walk(t, path + [name])
    ensures path != [] ==> Walk(t, path)
  {
    hide Edge;
    var p := path + [name];
    assert forall i :: 0 <= i < |path| ==> p[i] == path[i];
    assert forall i :: 0 <= i < |path| - 1 ==> Edge(t, p[i], p[i + 1]);
  }

  lemma EntryIsEdge(t: Tables, name: string, i: nat)
    requires name in t.groups && i < |t.groups[name].models|
    ensures var v := Target(t, t.groups[name].models[i]); v != "" ==> Edge(t, name, v)
  {
  }
}
