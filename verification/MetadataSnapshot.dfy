/** Metadata snapshots: how the spoke builds one, when its configuration guarantees that the hub
    accepts it, and what the hub's session then knows. */
module MetadataSnapshot {
  import opened Collections
  import opened Wire
  import opened ModelConfig
  import R = Resolver
  import Responses
  import SessionTable

  const MAX_ENTRIES := 1000
  const MAX_NAME_BYTES := 256

  datatype Model = Model(name: string, length: Option<int>)

  // ---- the hub's check ----

  /** A frame as decoded; a body that is not JSON of the right shape has no entries at all. */
  datatype Snapshot = Snapshot(id: string, entries: Option<seq<Model>>)

  predicate NameOk(name: string) {
    name != "" && Responses.Bytes(name) <= MAX_NAME_BYTES
  }

  predicate Acceptable(s: Snapshot) {
    && s.id != "" && s.entries.Some? && |s.entries.value| <= MAX_ENTRIES
    && (forall i :: 0 <= i < |s.entries.value| ==> NameOk(s.entries.value[i].name))
    && (forall i, j :: 0 <= i < j < |s.entries.value| ==> s.entries.value[i].name != s.entries.value[j].name)
    && (forall i :: 0 <= i < |s.entries.value| && s.entries.value[i].length.Some? ==> s.entries.value[i].length.value > 0)
  }

  function LengthOf(m: Model): int {
    if m.length.Some? then m.length.value else 0
  }

  function TableOf(ms: seq<Model>): map<string, int> {
    if ms == [] then map[] else TableOf(ms[..|ms| - 1])[ms[|ms| - 1].name := LengthOf(ms[|ms| - 1])]
  }

  lemma {:induction false} TableKeys(ms: seq<Model>)
    ensures forall name :: name in TableOf(ms) <==> exists i :: 0 <= i < |ms| && ms[i].name == name
  {
    if ms != [] {
      var p, last := ms[..|ms| - 1], ms[|ms| - 1];
      TableKeys(p);
      assert forall i :: 0 <= i < |p| ==> p[i] == ms[i];
      forall name ensures name in TableOf(ms) <==> exists i :: 0 <= i < |ms| && ms[i].name == name {
        if name in TableOf(p) {
          var i :| 0 <= i < |p| && p[i].name == name;
          assert ms[i].name == name;
        }
        if name == last.name { assert ms[|ms| - 1].name == name; }
      }
    }
  }

  /** Accepts or refuses a snapshot as a whole. */
  method ParseSnapshot(s: Snapshot) returns (r: Option<map<string, int>>)
    ensures r == if Acceptable(s) then Some(TableOf(s.entries.value)) else None
  {
    hide Responses.Bytes;
    if s.id == "" {
      return None;
    }
    if s.entries.None? {
      return None;
    }
    var es := s.entries.value;
    if |es| > MAX_ENTRIES {
      return None;
    }
    var out: map<string, int> := map[];
    for i := 0 to |es|
      invariant out == TableOf(es[..i])
      invariant forall j :: 0 <= j < i ==> NameOk(es[j].name) && (es[j].length.Some? ==> es[j].length.value > 0)
      invariant forall j, k :: 0 <= j < k < i ==> es[j].name != es[k].name
    {
      assert es[..i + 1][..i] == es[..i];
      TableKeys(es[..i]);
      assert forall j :: 0 <= j < i ==> es[..i][j] == es[j];
      if es[i].name == "" {
        return None;
      }
      if Responses.Bytes(es[i].name) > MAX_NAME_BYTES {
        return None;
      }
      if es[i].name in out {
        return None;
      }
      if es[i].length.None? {
        out := out[es[i].name := 0];
        continue;
      }
      if es[i].length.value <= 0 {
        return None;
      }
      out := out[es[i].name := es[i].length.value];
    }
    assert es[..|es|] == es;
    r := Some(out);
  }

  /** The session's reader on a run of snapshots: it knows what the last acceptable one said, and has sent
      back the ids of the others. */
  method ReadSnapshots(session: SessionTable.Session, frames: seq<Snapshot>) returns (rejected: seq<string>)
    modifies session`metadata
    ensures (forall i :: 0 <= i < |frames| ==> !Acceptable(frames[i])) ==> session.metadata == old(session.metadata)
    ensures forall i :: 0 <= i < |frames| && LastAcceptable(frames, i) ==> session.metadata == TableOf(frames[i].entries.value)
    ensures rejected == Refused(frames)
  {
    hide Acceptable, TableOf;
    rejected := [];
    for n := 0 to |frames|
      invariant (forall i :: 0 <= i < n ==> !Acceptable(frames[i])) ==> session.metadata == old(session.metadata)
      invariant forall i :: 0 <= i < n && LastAcceptable(frames[..n], i) ==> session.metadata == TableOf(frames[i].entries.value)
      invariant rejected == Refused(frames[..n])
    {
      assert frames[..n + 1][..n] == frames[..n];
      assert forall i :: 0 <= i < n ==> frames[..n + 1][i] == frames[..n][i] == frames[i];
      assert frames[..n + 1][n] == frames[n];
      var models := ParseSnapshot(frames[n]);
      if models.None? {
        rejected := rejected + [frames[n].id];
        continue;
      }
      session.ReplaceMetadata(models.value);
    }
    assert frames[..|frames|] == frames;
  }

  ghost predicate LastAcceptable(frames: seq<Snapshot>, i: nat) {
    i < |frames| && Acceptable(frames[i]) && frames[i].entries.Some? && forall j :: i < j < |frames| ==> !Acceptable(frames[j])
  }

  function Refused(frames: seq<Snapshot>): seq<string> {
    if frames == [] then []
    else
      var last := frames[|frames| - 1];
      Refused(frames[..|frames| - 1]) + (if Acceptable(last) then [] else [last.id])
  }

  // ---- the spoke's names ----

  predicate OpenTo(e: Option<Exposure>) {
    R.DirectCallable(if e.Some? then e.value else Public)
  }

  predicate IsCallableName(cfg: R.Config, name: string) {
    && name != ""
    && ((exists i :: 0 <= i < |cfg.groups| && cfg.groups[i].name == name && OpenTo(cfg.groups[i].exposure))
        || (exists i :: 0 <= i < |cfg.redirects| && cfg.redirects[i].source == name && OpenTo(cfg.redirects[i].exposure)))
  }

  /** The names a caller may use, each once, in the order they first appear. */
  method ListDirectCallableNames(cfg: R.Config) returns (names: seq<string>)
    ensures Distinct(names) && forall name :: name in names <==> IsCallableName(cfg, name)
  {
    names := [];
    for i := 0 to |cfg.groups|
      invariant Distinct(names)
      invariant forall name :: name in names <==>
                  name != "" && exists j :: 0 <= j < i && cfg.groups[j].name == name && OpenTo(cfg.groups[j].exposure)
    {
      if OpenTo(cfg.groups[i].exposure) && cfg.groups[i].name != "" && cfg.groups[i].name !in names {
        names := names + [cfg.groups[i].name];
      }
    }
    ghost var groups := names;
    for i := 0 to |cfg.redirects|
      invariant Distinct(names)
      invariant forall name :: name in names <==>
                  name in groups
                  || (name != "" && exists j :: 0 <= j < i && cfg.redirects[j].source == name && OpenTo(cfg.redirects[j].exposure))
    {
      if OpenTo(cfg.redirects[i].exposure) && cfg.redirects[i].source != "" && cfg.redirects[i].source !in names {
        names := names + [cfg.redirects[i].source];
      }
    }
  }

  /** The limits a configuration is checked against before it is applied. */
  predicate WithinLimits(names: seq<string>) {
    |names| <= MAX_ENTRIES && forall i :: 0 <= i < |names| ==> Responses.Bytes(names[i]) <= MAX_NAME_BYTES
  }

  method ValidateSpokeCallableEntries(cfg: R.Config) returns (ok: bool, ghost names: seq<string>)
    ensures Distinct(names) && forall name :: name in names <==> IsCallableName(cfg, name)
    ensures ok <==> WithinLimits(names)
  {
    hide Responses.Bytes, IsCallableName;
    var list := ListDirectCallableNames(cfg);
    names := list;
    if |list| > MAX_ENTRIES {
      return false, names;
    }
    for i := 0 to |list|
      invariant forall j :: 0 <= j < i ==> Responses.Bytes(list[j]) <= MAX_NAME_BYTES
    {
      if Responses.Bytes(list[i]) > MAX_NAME_BYTES {
        return false, names;
      }
    }
    ok := true;
  }

  /** The context length the resolver gives a name, as long as it is positive. */
  ghost function KnownLength(r: R.Resolver, lookup: LeafKey -> Option<int>, name: string): Option<int>
    requires r.Valid()
  {
    var g := R.FinalGroup(r.t, name);
    var n := if g !in r.t.groups then None
             else if r.t.groups[g].contextLength.Some? then r.t.groups[g].contextLength
             else R.Smallest(r.t, r.rank, lookup, g, |r.t.groups[g].models|);
    R.Positive(n)
  }

  /** The snapshot of a configuration: one entry a name, with its length if there is a positive one. */
  method BuildSnapshot(r: R.Resolver, lookup: LeafKey -> Option<int>, names: seq<string>) returns (models: seq<Model>)
    requires r.Valid()
    ensures |models| == |names|
    ensures forall i :: 0 <= i < |names| ==> models[i] == Model(names[i], KnownLength(r, lookup, names[i]))
  {
    models := [];
    for i := 0 to |names|
      invariant |models| == i
      invariant forall j :: 0 <= j < i ==> models[j] == Model(names[j], KnownLength(r, lookup, names[j]))
    {
      var m := Model(names[i], None);
      var cl := r.ResolveContextLength(names[i], lookup);
      if cl.Some? && cl.value > 0 {
        m := m.(length := cl);
      }
      models := models + [m];
    }
  }

  /** A snapshot built for a configuration within the limits is accepted, and the hub then knows for
      every callable name its positive context length, or 0. */
  lemma {:induction false} ValidatedIsAccepted(id: string, r: R.Resolver, lookup: LeafKey -> Option<int>, names: seq<string>, models: seq<Model>)
    requires id != "" && r.Valid() && Distinct(names) && WithinLimits(names) && "" !in names
    requires |models| == |names| && forall i :: 0 <= i < |names| ==> models[i] == Model(names[i], KnownLength(r, lookup, names[i]))
    ensures Acceptable(Snapshot(id, Some(models)))
    ensures forall name :: name in TableOf(models) <==> name in names
    ensures forall name :: name in names ==>
              TableOf(models)[name] == if KnownLength(r, lookup, name).Some? then KnownLength(r, lookup, name).value else 0
  {
    hide KnownLength, Responses.Bytes;
    forall i | 0 <= i < |names| ensures NameOk(models[i].name) && (models[i].length.Some? ==> models[i].length.value > 0) {
      assert names[i] in names;
      PositiveLengths(r, lookup, names[i]);
    }
    TableKeys(models);
    forall name ensures name in TableOf(models) <==> name in names {
      if name in names {
        var i :| 0 <= i < |names| && names[i] == name;
        assert models[i].name == name;
      }
    }
    forall i | 0 <= i < |names| ensures names[i] in TableOf(models) && TableOf(models)[names[i]] == LengthOf(models[i]) {
      TableAt(models, i);
    }
  }

  lemma PositiveLengths(r: R.Resolver, lookup: LeafKey -> Option<int>, name: string)
    requires r.Valid()
    ensures KnownLength(r, lookup, name).Some? ==> KnownLength(r, lookup, name).value > 0
  {
  }

  lemma {:induction false} TableAt(ms: seq<Model>, i: nat)
    requires i < |ms| && forall j, k :: 0 <= j < k < |ms| ==> ms[j].name != ms[k].name
    ensures ms[i].name in TableOf(ms) && TableOf(ms)[ms[i].name] == LengthOf(ms[i])
  {
    var p := ms[..|ms| - 1];
    if i < |p| {
      assert forall j :: 0 <= j < |p| ==> p[j] == ms[j];
      TableAt(p, i);
    }
  }

  // ---- what the hub can rely on ----

  /** An accepted table has at most 1000 names, none empty or longer than 256 bytes, and no negative length. */
  lemma AcceptedTable(s: Snapshot)
    requires Acceptable(s)
    ensures var t := TableOf(s.entries.value);
            && |t| == |s.entries.value| <= 1000
            && forall name :: name in t ==> name != "" && Responses.Bytes(name) <= 256 && t[name] >= 0
  {
    hide Responses.Bytes;
    var es := s.entries.value;
    TableKeys(es);
    TableSize(es);
    forall name | name in TableOf(es) ensures name != "" && Responses.Bytes(name) <= 256 && TableOf(es)[name] >= 0 {
      var i :| 0 <= i < |es| && es[i].name == name;
      assert NameOk(es[i].name);
      TableAt(es, i);
    }
  }

  lemma {:induction false} TableSize(ms: seq<Model>)
    requires forall i, j :: 0 <= i < j < |ms| ==> ms[i].name != ms[j].name
    ensures |TableOf(ms)| == |ms|
  {
    if ms != [] {
      var p, last := ms[..|ms| - 1], ms[|ms| - 1];
      TableSize(p);
      TableKeys(p);
      assert last.name !in TableOf(p);
      assert TableOf(ms).Keys == TableOf(p).Keys + {last.name};
      assert |TableOf(ms)| == |TableOf(ms).Keys| && |TableOf(p)| == |TableOf(p).Keys|;
    }
  }

  /** Frames are refused one by one, in order. */
  lemma {:induction false} RefusedJoin(a: seq<Snapshot>, b: seq<Snapshot>)
    ensures Refused(a + b) == Refused(a) + Refused(b)
  {
    hide Acceptable;
    if b == [] {
      assert a + b == a && Refused(a) + [] == Refused(a);
    } else {
      var p, last := b[..|b| - 1], b[|b| - 1];
      RefusedJoin(a, p);
      assert (a + b)[..|a + b| - 1] == a + p && (a + b)[|a + b| - 1] == last;
    }
  }

  /** A frame with an id and no entries at all is refused, one with an empty list is not. */
  lemma RefusedOne(s: Snapshot)
    ensures Refused([s]) == if Acceptable(s) then [] else [s.id]
    ensures s.id != "" ==> Refused([s.(entries := None)]) == [s.id] && Refused([s.(entries := Some([]))]) == []
  {
    hide Acceptable;
    AloneRefused(s);
    AloneRefused(s.(entries := None));
    AloneRefused(s.(entries := Some([])));
    if s.id != "" { Extremes(s.id); }
  }

  lemma AloneRefused(s: Snapshot)
    ensures Refused([s]) == if Acceptable(s) then [] else [s.id]
  {
    hide Acceptable;
    assert [s][..0] == [] && Refused([]) == [];
  }

  lemma Extremes(id: string)
    requires id != ""
    ensures !Acceptable(Snapshot(id, None)) && Acceptable(Snapshot(id, Some([])))
  {
  }
}
