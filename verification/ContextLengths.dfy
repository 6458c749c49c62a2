/** The context length of a model name, said without any traversal: the least of the lengths that are
    offered below its group. */
module ContextLengths {
  import opened Wire
  import opened ModelConfig
  import opened Plans
  import R = Resolver

  /** What an entry offers by itself: what is known of a provider model, or what is set for a group. */
  predicate EntryOffers(t: Tables, lookup: LeafKey -> Option<int>, e: Entry, x: int) {
    && x > 0
    && if IsLeaf(e) then lookup(KeyOf(e)) == Some(x)
       else Target(t, e) != "" && Target(t, e) in t.groups && t.groups[Target(t, e)].contextLength == Some(x)
  }

  predicate Offers(t: Tables, lookup: LeafKey -> Option<int>, u: string, x: int) {
    u in t.groups && exists i :: 0 <= i < |t.groups[u].models| && EntryOffers(t, lookup, t.groups[u].models[i], x)
  }

  /** A setting cuts off whatever is below its group. */
  predicate Unset(t: Tables, u: string) {
    u in t.groups && t.groups[u].contextLength.None?
  }

  ghost predicate OpenWalk(t: Tables, p: seq<string>) {
    Walk(t, p) && forall i :: 1 <= i < |p| ==> Unset(t, p[i])
  }

  /** Some group below `name`, with no setting on the way to it, offers `x`. */
  ghost predicate Offered(t: Tables, lookup: LeafKey -> Option<int>, name: string, x: int) {
    exists p :: OpenWalk(t, p) && p[0] == name && Offers(t, lookup, p[|p| - 1], x)
  }

  // ---- one group at a time ----

  ghost predicate Through(t: Tables, lookup: LeafKey -> Option<int>, e: Entry, x: int) {
    || EntryOffers(t, lookup, e, x)
    || (!IsLeaf(e) && Target(t, e) != "" && Unset(t, Target(t, e)) && Offered(t, lookup, Target(t, e), x))
  }

  ghost predicate FirstOffer(t: Tables, lookup: LeafKey -> Option<int>, name: string, n: nat, x: int)
    requires name in t.groups && n <= |t.groups[name].models|
  {
    exists i :: 0 <= i < n && Through(t, lookup, t.groups[name].models[i], x)
  }

  lemma OfferedHere(t: Tables, lookup: LeafKey -> Option<int>, name: string, x: int)
    requires Offers(t, lookup, name, x)
    ensures Offered(t, lookup, name, x)
  {
    hide Offers;
    assert OpenWalk(t, [name]);
  }

  lemma OfferedBelow(t: Tables, lookup: LeafKey -> Option<int>, name: string, v: string, x: int)
    requires Edge(t, name, v) && Unset(t, v) && Offered(t, lookup, v, x)
    ensures Offered(t, lookup, name, x)
  {
    hide Edge, Unset, Offers;
    var p :| OpenWalk(t, p) && p[0] == v && Offers(t, lookup, p[|p| - 1], x);
    var q := [name] + p;
    assert forall i :: 1 <= i < |q| ==> q[i] == p[i - 1];
    assert OpenWalk(t, q);
  }

  lemma OfferedSplit(t: Tables, lookup: LeafKey -> Option<int>, name: string, x: int)
    requires Offered(t, lookup, name, x)
    ensures Offers(t, lookup, name, x) || exists v :: Edge(t, name, v) && Unset(t, v) && Offered(t, lookup, v, x)
  {
    hide Edge, Unset, Offers;
    var p :| OpenWalk(t, p) && p[0] == name && Offers(t, lookup, p[|p| - 1], x);
    if |p| > 1 {
      var q := p[1..];
      WalkTail(t, p);
      assert forall i :: 1 <= i < |q| ==> q[i] == p[i + 1];
      assert OpenWalk(t, q) && q[|q| - 1] == p[|p| - 1];
      assert Edge(t, p[0], p[0 + 1]) && Unset(t, p[1]);
      assert Offered(t, lookup, p[1], x);
    }
  }

  lemma OfferedByEntries(t: Tables, lookup: LeafKey -> Option<int>, name: string, x: int)
    requires name in t.groups
    ensures Offered(t, lookup, name, x) <==> FirstOffer(t, lookup, name, |t.groups[name].models|, x)
  {
    hide Offered, EntryOffers;
    var models := t.groups[name].models;
    if Offered(t, lookup, name, x) {
      OfferedSplit(t, lookup, name, x);
      if Offers(t, lookup, name, x) {
        var i :| 0 <= i < |models| && EntryOffers(t, lookup, models[i], x);
        assert Through(t, lookup, models[i], x);
      } else {
        var v :| Edge(t, name, v) && Unset(t, v) && Offered(t, lookup, v, x);
        var i :| 0 <= i < |models| && Target(t, models[i]) == v;
        assert Through(t, lookup, models[i], x);
      }
    }
    if FirstOffer(t, lookup, name, |models|, x) {
      var i :| 0 <= i < |models| && Through(t, lookup, models[i], x);
      if EntryOffers(t, lookup, models[i], x) {
        OfferedHere(t, lookup, name, x);
      } else {
        assert Edge(t, name, Target(t, models[i]));
        OfferedBelow(t, lookup, name, Target(t, models[i]), x);
      }
    }
  }

  lemma FirstOfferStep(t: Tables, lookup: LeafKey -> Option<int>, name: string, n: nat, x: int)
    requires name in t.groups && n < |t.groups[name].models|
    ensures FirstOffer(t, lookup, name, n + 1, x) <==> FirstOffer(t, lookup, name, n, x) || Through(t, lookup, t.groups[name].models[n], x)
  {
    hide Through;
  }

  lemma {:induction false} SmallestIsLeast(t: Tables, rank: map<string, nat>, lookup: LeafKey -> Option<int>, name: string, n: nat)
    requires Accepted(t, rank) && name in t.groups && n <= |t.groups[name].models|
    ensures var r := R.Smallest(t, rank, lookup, name, n);
            && (r.Some? ==> FirstOffer(t, lookup, name, n, r.value))
            && forall x :: FirstOffer(t, lookup, name, n, x) ==> r.Some? && r.value <= x
    decreases (assert name in rank; rank[name]), n
  {
    hide FirstOffer, Offered;
    if n == 0 {
      forall x ensures !FirstOffer(t, lookup, name, 0, x) { NothingYet(t, lookup, name, x); }
    } else {
      SmallestIsLeast(t, rank, lookup, name, n - 1);
      forall x ensures FirstOffer(t, lookup, name, n, x) <==>
                       FirstOffer(t, lookup, name, n - 1, x) || Through(t, lookup, t.groups[name].models[n - 1], x) {
        FirstOfferStep(t, lookup, name, n - 1, x);
      }
      RefFalls(t, rank, name, n - 1);
      var v := Target(t, t.groups[name].models[n - 1]);
      if v != "" && v in t.groups && t.groups[v].contextLength.None? && !IsLeaf(t.groups[name].models[n - 1]) {
        SmallestIsLeast(t, rank, lookup, v, |t.groups[v].models|);
        forall x ensures Offered(t, lookup, v, x) <==> FirstOffer(t, lookup, v, |t.groups[v].models|, x) {
          OfferedByEntries(t, lookup, v, x);
        }
      }
    }
  }

  lemma NothingYet(t: Tables, lookup: LeafKey -> Option<int>, name: string, x: int)
    requires name in t.groups
    ensures !FirstOffer(t, lookup, name, 0, x)
  {
  }

  /** The length found for a group without a setting is the least one offered below it, whatever the order
      of the entries and however often a length occurs; there is none exactly when nothing is offered. */
  lemma LeastOffered(t: Tables, rank: map<string, nat>, lookup: LeafKey -> Option<int>, name: string)
    requires Accepted(t, rank) && name in t.groups
    ensures var r := R.Smallest(t, rank, lookup, name, |t.groups[name].models|);
            && (r.Some? ==> Offered(t, lookup, name, r.value))
            && forall x :: Offered(t, lookup, name, x) ==> r.Some? && r.value <= x
  {
    hide FirstOffer, Offered, R.Smallest;
    SmallestIsLeast(t, rank, lookup, name, |t.groups[name].models|);
    forall x ensures Offered(t, lookup, name, x) <==> FirstOffer(t, lookup, name, |t.groups[name].models|, x) {
      OfferedByEntries(t, lookup, name, x);
    }
  }
}
