/** How the name of a model is looked up in the index: under several candidate ids, of which the longest
    one in the index counts. */
module IndexLookup {
  import opened Collections
  import opened Wire
  import opened Responses
  import opened ModelIndex

  // ---- dates at the end of an id ----

  predicate AllDigits(s: string) {
    forall i :: 0 <= i < |s| ==> Digit(s[i]).Some?
  }

  /** A hyphen and `n` digits end the text. */
  predicate EndsInDigits(s: string, n: nat) {
    |s| > n && s[|s| - n - 1] == '-' && AllDigits(s[|s| - n..])
  }

  predicate EndsInDashedDate(s: string) {
    EndsInDigits(s, 2) && EndsInDigits(s[..|s| - 3], 2) && EndsInDigits(s[..|s| - 6], 4)
  }

  /** Length of a trailing -YYYYMMDD, -YYYYMM or -YYYY-MM-DD. */
  function DateLength(s: string): (n: nat)
    ensures n <= |s|
  {
    if EndsInDigits(s, 8) then 9
    else if EndsInDigits(s, 6) then 7
    else if EndsInDashedDate(s) then 11
    else 0
  }

  /** No text ends in two of the three forms, so it does not matter which is tried first. */
  lemma OneForm(s: string)
    ensures !(EndsInDigits(s, 8) && EndsInDigits(s, 6))
    ensures !(EndsInDashedDate(s) && (EndsInDigits(s, 8) || EndsInDigits(s, 6)))
  {
    if EndsInDigits(s, 8) {
      assert s[|s| - 8..][1] == s[|s| - 7] && s[|s| - 8..][5] == s[|s| - 3];
    }
    if EndsInDigits(s, 6) {
      assert s[|s| - 6..][3] == s[|s| - 3];
    }
  }

  /** The text without its date, if that leaves anything. */
  function Undated(s: string): Option<string> {
    if DateLength(s) == 0 || DateLength(s) == |s| then None else Some(s[..|s| - DateLength(s)])
  }

  // ---- candidates ----

  function Split(s: string): (r: seq<string>)
    ensures r != []
  {
    if s == "" then [""]
    else
      var r := Split(s[1..]);
      if s[0] == '/' then [""] + r else [[s[0]] + r[0]] + r[1..]
  }

  /** The whole id and its parts between slashes, trimmed. */
  function Pieces(up: string): seq<string> {
    if up == "" then [] else TrimAll([up] + Split(up))
  }

  function TrimAll(ps: seq<string>): (r: seq<string>)
    ensures |r| == |ps| && forall i :: 0 <= i < |ps| ==> r[i] == Trim(ps[i])
  {
    seq(|ps|, i requires 0 <= i < |ps| => Trim(ps[i]))
  }

  /** A piece and, unless it is there already, the piece without its date. */
  function Added(out: seq<string>, s: string): seq<string> {
    if s == "" || s in out then out
    else if Undated(s).Some? && Undated(s).value !in out then out + [s, Undated(s).value]
    else out + [s]
  }

  function Candidates(ps: seq<string>): seq<string> {
    if ps == [] then [] else Added(Candidates(ps[..|ps| - 1]), ps[|ps| - 1])
  }

  method Add(s0: string, seen0: set<string>, out0: seq<string>) returns (seen: set<string>, out: seq<string>)
    requires forall x :: x in seen0 <==> x in out0
    ensures forall x :: x in seen <==> x in out
    ensures out == Added(out0, Trim(s0))
  {
    seen, out := seen0, out0;
    var s := Trim(s0);
    if s == "" {
      return;
    }
    if s in seen {
      return;
    }
    seen := seen + {s};
    out := out + [s];
    var stripped := s[..|s| - DateLength(s)];
    if stripped != s && stripped != "" {
      if stripped !in seen {
        seen := seen + {stripped};
        out := out + [stripped];
      }
    }
  }

  lemma PiecesAre(up: string)
    requires up != ""
    ensures var ps := Pieces(up);
            && |ps| == |Split(up)| + 1 && ps[0] == Trim(up)
            && forall i :: 0 <= i < |Split(up)| ==> ps[i + 1] == Trim(Split(up)[i])
  {
    hide Trim, Split;
  }

  lemma CandidatesNext(ps: seq<string>, k: nat)
    requires k < |ps|
    ensures Candidates(ps[..k + 1]) == Added(Candidates(ps[..k]), ps[k])
  {
    hide Added;
    assert ps[..k + 1][..k] == ps[..k];
  }

  method LookupCandidates(lower: string -> string, upstream: string) returns (out: seq<string>)
    ensures out == Candidates(Pieces(lower(Trim(upstream))))
  {
    hide Trim, Split, Added;
    out := [];
    var up := lower(Trim(upstream));
    if up == "" {
      return;
    }
    hide Pieces, Candidates;
    ghost var ps := Pieces(up);
    PiecesAre(up);
    NoCandidates(ps);
    CandidatesNext(ps, 0);
    var seen: set<string> := {};
    seen, out := Add(up, seen, out);
    var parts := Split(up);
    for i := 0 to |parts|
      invariant forall x :: x in seen <==> x in out
      invariant out == Candidates(ps[..i + 1])
    {
      CandidatesNext(ps, i + 1);
      seen, out := Add(parts[i], seen, out);
    }
    assert ps[..|parts| + 1] == ps;
  }

  lemma NoCandidates(ps: seq<string>)
    ensures Candidates(ps[..0]) == []
  {
  }

  // ---- which candidates there are ----

  /** A piece that is met for the first time after it was added as an earlier piece without its date. */
  predicate Hidden(ps: seq<string>, k: nat)
    requires k < |ps|
  {
    exists j :: 0 <= j < k && !Hidden(ps, j) && Undated(ps[j]) == Some(ps[k]) && forall i :: 0 <= i <= j ==> ps[i] != ps[k]
  }

  predicate Gives(ps: seq<string>, k: nat, c: string)
    requires k < |ps|
  {
    c != "" && (ps[k] == c || (!Hidden(ps, k) && Undated(ps[k]) == Some(c)))
  }

  predicate Given(ps: seq<string>, n: nat, c: string)
    requires n <= |ps|
  {
    exists k :: 0 <= k < n && Gives(ps, k, c)
  }

  lemma GivenStep(ps: seq<string>, n: nat, c: string)
    requires n < |ps|
    ensures Given(ps, n + 1, c) <==> Given(ps, n, c) || Gives(ps, n, c)
    ensures !Given(ps, 0, c)
  {
    hide Gives;
  }

  lemma UndatedShorter(s: string)
    ensures Undated(s).Some? ==> Undated(s).value != "" && Undated(s).value != s && |Undated(s).value| < |s|
  {
    hide EndsInDigits, EndsInDashedDate;
  }

  /** Two equal pieces are hidden together. */
  lemma HiddenTwin(ps: seq<string>, i: nat, k: nat)
    requires i < k < |ps| && ps[i] == ps[k]
    ensures Hidden(ps, i) <==> Hidden(ps, k)
  {
    if Hidden(ps, i) {
      var j :| 0 <= j < i && !Hidden(ps, j) && Undated(ps[j]) == Some(ps[i]) && forall x :: 0 <= x <= j ==> ps[x] != ps[i];
    }
    if Hidden(ps, k) {
      var j :| 0 <= j < k && !Hidden(ps, j) && Undated(ps[j]) == Some(ps[k]) && forall x :: 0 <= x <= j ==> ps[x] != ps[k];
      assert j < i;
    }
  }

  /** A hidden piece is there already, and gives nothing new. */
  lemma HiddenIsGiven(ps: seq<string>, n: nat)
    requires n < |ps| && ps[n] != "" && Hidden(ps, n)
    ensures Given(ps, n, ps[n])
  {
    var j :| 0 <= j < n && !Hidden(ps, j) && Undated(ps[j]) == Some(ps[n]) && forall x :: 0 <= x <= j ==> ps[x] != ps[n];
    assert Gives(ps, j, ps[n]);
  }

  /** A piece that is there already and not hidden was a piece before, and gives nothing new either. */
  lemma SeenBefore(ps: seq<string>, n: nat, c: string)
    requires n < |ps| && ps[n] != "" && Given(ps, n, ps[n]) && Gives(ps, n, c)
    ensures Given(ps, n, c)
  {
    if c != ps[n] {
      assert !Hidden(ps, n);
      var k :| 0 <= k < n && Gives(ps, k, ps[n]);
      if i :| 0 <= i < n && ps[i] == ps[n] {
        HiddenTwin(ps, i, n);
        assert Gives(ps, i, c);
      } else {
        assert false;
      }
    }
  }

  lemma {:induction false} CandidatesUpTo(ps: seq<string>, n: nat, c: string)
    requires n <= |ps|
    ensures Distinct(Candidates(ps[..n])) && (c in Candidates(ps[..n]) <==> Given(ps, n, c))
    decreases n
  {
    hide Given, Gives, Hidden;
    if n == 0 {
      NothingGiven(ps, c);
    } else {
      var m := n - 1;
      var before, s := Candidates(ps[..m]), ps[m];
      assert ps[..n][..m] == ps[..m] && ps[..n][m] == s;
      CandidatesUpTo(ps, m, c);
      CandidatesUpTo(ps, m, s);
      GivenStep(ps, m, c);
      UndatedShorter(s);
      PieceGives(ps, m, c);
      if s != "" && s in before {
        if Gives(ps, m, c) {
          SeenBefore(ps, m, c);
        }
      } else if s != "" {
        if Hidden(ps, m) {
          HiddenIsGiven(ps, m);
        }
      }
    }
  }

  lemma NothingGiven(ps: seq<string>, c: string)
    ensures !Given(ps, 0, c)
  {
  }

  lemma PieceGives(ps: seq<string>, k: nat, c: string)
    requires k < |ps|
    ensures Gives(ps, k, c) <==> c != "" && (ps[k] == c || (!Hidden(ps, k) && Undated(ps[k]) == Some(c)))
  {
  }

  /** The candidates are the pieces and the pieces without their dates, each once, except what hidden
      pieces would have given. */
  lemma CandidatesAre(ps: seq<string>, c: string)
    ensures Distinct(Candidates(ps)) && (c in Candidates(ps) <==> Given(ps, |ps|, c))
  {
    hide *;
    assert ps[..|ps|] == ps;
    CandidatesUpTo(ps, |ps|, c);
  }

  /** What the documentation promises: every piece, and every piece without its date. */
  predicate Promised(ps: seq<string>, c: string) {
    c != "" && exists k :: 0 <= k < |ps| && (ps[k] == c || Undated(ps[k]) == Some(c))
  }

  /** Nothing that a hidden piece would have given is lost: it comes from another piece. */
  predicate NoneLost(ps: seq<string>) {
    forall k :: 0 <= k < |ps| && Hidden(ps, k) && Undated(ps[k]).Some? ==>
      exists i :: 0 <= i < |ps| && Gives(ps, i, Undated(ps[k]).value)
  }

  lemma GivenIsPromised(ps: seq<string>, c: string)
    requires Given(ps, |ps|, c)
    ensures Promised(ps, c)
  {
    var k :| 0 <= k < |ps| && Gives(ps, k, c);
  }

  /** The candidates are what is promised exactly when no hidden piece loses its undated form. */
  lemma PromiseKeptIff(ps: seq<string>)
    ensures (forall c :: c in Candidates(ps) <==> Promised(ps, c)) <==> NoneLost(ps)
  {
    hide Candidates, Undated, Hidden;
    forall c ensures c in Candidates(ps) <==> Given(ps, |ps|, c) { CandidatesAre(ps, c); }
    if NoneLost(ps) {
      forall c ensures c in Candidates(ps) <==> Promised(ps, c) {
        if Promised(ps, c) {
          NothingLost(ps, c);
        }
        if Given(ps, |ps|, c) {
          GivenIsPromised(ps, c);
        }
      }
    }
    if forall c :: c in Candidates(ps) <==> Promised(ps, c) {
      forall k | 0 <= k < |ps| && Hidden(ps, k) && Undated(ps[k]).Some?
        ensures exists i :: 0 <= i < |ps| && Gives(ps, i, Undated(ps[k]).value) {
        UndatedShorter(ps[k]);
        assert Promised(ps, Undated(ps[k]).value);
        assert Given(ps, |ps|, Undated(ps[k]).value);
      }
    }
  }

  lemma NothingLost(ps: seq<string>, c: string)
    requires NoneLost(ps) && Promised(ps, c)
    ensures Given(ps, |ps|, c)
  {
    hide Undated, Hidden;
    var k :| 0 <= k < |ps| && (ps[k] == c || Undated(ps[k]) == Some(c));
    if Gives(ps, k, c) {
    } else {
      assert Hidden(ps, k) && Undated(ps[k]) == Some(c);
    }
  }

  lemma {:induction false} SplitNone(a: string)
    requires '/' !in a
    ensures Split(a) == [a]
  {
    if a != "" {
      SplitNone(a[1..]);
      assert a == [a[0]] + a[1..];
    }
  }

  lemma {:induction false} SplitOne(a: string, b: string)
    requires '/' !in a && '/' !in b
    ensures Split(a + "/" + b) == [a, b]
  {
    if a == "" {
      SplitNone(b);
      assert (a + "/" + b)[1..] == b;
    } else {
      SplitOne(a[1..], b);
      assert (a + "/" + b)[1..] == a[1..] + "/" + b && a == [a[0]] + a[1..];
    }
  }

  lemma Trimmed(s: string)
    requires s == "" || (!IsSpace(s[0]) && !IsSpace(s[|s| - 1]))
    ensures Trim(s) == s
  {
  }

  /** In `a/b`, where `b` is `a` without its date, what `b` is without a date of its own is not a candidate,
      though it is promised. */
  lemma SecondDateStaysOn(a: string, b: string, c: string)
    requires Undated(a) == Some(b) && Undated(b) == Some(c) && Undated(a + "/" + b) == Some(a + "/" + c)
    requires '/' !in a && '/' !in b && a + "/" + b == Trim(a + "/" + b) && a == Trim(a) && b == Trim(b)
    ensures var ps := Pieces(a + "/" + b); Promised(ps, c) && c !in Candidates(ps)
  {
    hide Candidates, Undated, Trim, Split;
    SplitOne(a, b);
    var ps := Pieces(a + "/" + b);
    assert ps == [a + "/" + b, a, b];
    UndatedShorter(a);
    UndatedShorter(b);
    assert !Hidden(ps, 1) by {
      assert |ps[0]| == |a| + 1 + |b| && |a + "/" + c| == |a| + 1 + |c|;
    }
    assert Undated(ps[1]) == Some(ps[2]);
    assert Hidden(ps, 2);
    forall k | 0 <= k < |ps| ensures !Gives(ps, k, c) {
    }
    CandidatesAre(ps, c);
    assert Undated(ps[2]) == Some(c);
  }

  /** There are such names. */
  lemma ADateStaysOn()
    ensures var ps := Pieces("m-202401-202402/m-202401"); Promised(ps, "m") && "m" !in Candidates(ps)
  {
    hide Undated;
    var a, b := "m-202401-202402", "m-202401";
    assert a + "/" + b == "m-202401-202402/m-202401";
    Trimmed(a);
    Trimmed(b);
    Trimmed(a + "/" + b);
    Dates();
    assert a + "/" + "m" == "m-202401-202402/m";
    SecondDateStaysOn(a, b, "m");
  }

  lemma Dates()
    ensures Undated("m-202401") == Some("m")
    ensures Undated("m-202401-202402") == Some("m-202401")
    ensures Undated("m-202401-202402/m-202401") == Some("m-202401-202402/m")
  {
    hide Undated;
    assert "m-202401" == "m" + "-202401";
    assert "m-202401-202402" == "m-202401" + "-202402";
    assert "m-202401-202402/m-202401" == "m-202401-202402/m" + "-202401";
    SixDigits("m", "-202401");
    SixDigits("m-202401", "-202402");
    SixDigits("m-202401-202402/m", "-202401");
  }

  lemma SixDigits(s: string, d: string)
    requires s != "" && |d| == 7 && d[0] == '-' && AllDigits(d[1..])
    ensures Undated(s + d) == Some(s)
  {
    var t := s + d;
    assert t[|t| - 6..] == d[1..] && t[|t| - 7] == '-';
    OneForm(t);
    assert t[..|s|] == s;
  }

  /** The value found is that of the longest candidate in the index, the first of several as long. */
  method Lookup(lower: string -> string, byID: map<string, int>, upstream: string) returns (r: Option<int>)
    requires lower("") == ""
    ensures var cs := Candidates(Pieces(lower(Trim(upstream))));
            && (r.None? <==> forall i :: 0 <= i < |cs| ==> cs[i] !in byID)
            && (r.Some? ==> exists i :: 0 <= i < |cs| && Best(byID, cs, i, |cs|) && byID[cs[i]] == r.value)
  {
    hide Candidates, Bytes;
    if |byID| == 0 || upstream == "" {
      assert upstream == "" ==> Pieces(lower(Trim(upstream))) == [];
      CandidatesNone();
      return None;
    }
    hide Pieces;
    var bestLen: int, bestCtx := -1, 0;
    ghost var best := 0;
    var cs := LookupCandidates(lower, upstream);
    for i := 0 to |cs|
      invariant bestLen < 0 ==> forall j :: 0 <= j < i ==> cs[j] !in byID
      invariant bestLen >= 0 ==> best < i && Best(byID, cs, best, i) && byID[cs[best]] == bestCtx && Bytes(cs[best]) == bestLen
    {
      if cs[i] !in byID {
        continue;
      }
      if Bytes(cs[i]) > bestLen {
        bestLen := Bytes(cs[i]);
        bestCtx := byID[cs[i]];
        best := i;
      }
    }
    if bestLen < 0 {
      return None;
    }
    r := Some(bestCtx);
  }

  lemma CandidatesNone()
    ensures Candidates([]) == []
  {
  }

  /** Among the first `n` candidates, `i` is in the index, and no other there is longer, or as long and earlier. */
  predicate Best(byID: map<string, int>, cs: seq<string>, i: nat, n: nat)
    requires i < |cs| && n <= |cs|
  {
    && cs[i] in byID
    && (forall j :: 0 <= j < n && cs[j] in byID ==> Bytes(cs[j]) <= Bytes(cs[i]))
    && (forall j :: 0 <= j < i && j < n && cs[j] in byID ==> Bytes(cs[j]) < Bytes(cs[i]))
  }

  // ---- their order ----

  /** Candidates come in the order of their pieces; one of a piece is the piece itself, and right after it what it is
      without its date. */
  lemma InOrder(ps: seq<string>, k: nat)
    requires k < |ps|
    ensures var before, after := Candidates(ps[..k]), Candidates(ps[..k + 1]);
            && before <= after <= Candidates(ps)
            && (ps[k] != "" && ps[k] !in before ==> |after| > |before| && after[|before|] == ps[k])
            && |after| <= |before| + 2 && (|after| == |before| + 2 ==> Some(after[|before| + 1]) == Undated(ps[k]))
  {
    hide Undated;
    CandidatesNext(ps, k);
    Grows(ps, k + 1);
  }

  lemma {:induction false} Grows(ps: seq<string>, n: nat)
    requires n <= |ps|
    ensures Candidates(ps[..n]) <= Candidates(ps)
    decreases |ps| - n
  {
    hide Undated;
    if n < |ps| {
      CandidatesNext(ps, n);
      Grows(ps, n + 1);
    } else {
      assert ps[..n] == ps;
    }
  }
}
