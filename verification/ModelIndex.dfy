/** The index of known context lengths: how it is written as lines of text and read back. `lower` stands
    for the host's lower-casing. */
module ModelIndex {
  import opened Collections
  import opened Wire
  import opened Responses

  // ---- the index ----

  function Larger(m: map<string, int>, k: string, v: int): map<string, int> {
    if k in m && m[k] >= v then m else m[k := v]
  }

  /** The entries of `m` at `ids`, under lower-case ids, the largest of several; blank or non-positive ones dropped. */
  function Built(lower: string -> string, m: map<string, int>, ids: seq<string>): map<string, int>
    requires forall i :: 0 <= i < |ids| ==> ids[i] in m
  {
    if ids == [] then map[]
    else
      var p, id := Built(lower, m, ids[..|ids| - 1]), ids[|ids| - 1];
      if id == "" || m[id] <= 0 then p else Larger(p, lower(id), m[id])
  }

  lemma BuiltSnoc(lower: string -> string, m: map<string, int>, p: seq<string>, id: string)
    requires id in m && forall i :: 0 <= i < |p| ==> p[i] in m
    ensures Built(lower, m, p + [id]) ==
            if id == "" || m[id] <= 0 then Built(lower, m, p) else Larger(Built(lower, m, p), lower(id), m[id])
  {
    hide Larger;
    assert (p + [id])[..|p|] == p;
  }

  lemma NoneBuilt(lower: string -> string, m: map<string, int>)
    ensures Built(lower, m, []) == map[]
  {
  }

  /** Goes through the map in any order, which is reported. */
  method NewIndex(lower: string -> string, m: map<string, int>) returns (byID: map<string, int>, ghost order: seq<string>)
    ensures Enumerates(order, m) && byID == Built(lower, m, order)
  {
    hide Built;
    byID, order := map[], [];
    NoneBuilt(lower, m);
    var keys := m.Keys;
    while keys != {}
      invariant keys <= m.Keys
      invariant forall i :: 0 <= i < |order| ==> order[i] in m && order[i] !in keys
      invariant forall k :: k in m ==> k in keys || k in order
      invariant forall i, j :: 0 <= i < j < |order| ==> order[i] != order[j]
      invariant byID == Built(lower, m, order)
      decreases keys
    {
      var _ := Inhabited(keys);
      var id :| id in keys;
      BuiltSnoc(lower, m, order, id);
      order := order + [id];
      keys := keys - {id};
      if id == "" || m[id] <= 0 {
        continue;
      }
      var low := lower(id);
      if low !in byID || m[id] > byID[low] {
        byID := byID[low := m[id]];
      }
    }
  }

  // ---- as text ----

  function LineOf(id: string, n: int): string {
    id + "\t" + Decimal(n)
  }

  function Text(m: map<string, int>, order: seq<string>): string
    requires forall i :: 0 <= i < |order| ==> order[i] in m
  {
    if order == [] then "" else LineOf(order[0], m[order[0]]) + "\n" + Text(m, order[1..])
  }

  /** The text up to the first newline, and what follows it. */
  function FirstLine(t: string): (r: (string, string))
    ensures t != "" ==> |r.1| < |t|
    ensures '\n' !in r.0
  {
    if t == "" then ("", "")
    else if t[0] == '\n' then ("", t[1..])
    else
      var r := FirstLine(t[1..]);
      ([t[0]] + r.0, r.1)
  }

  function Lines(t: string): seq<string>
    decreases |t|
  {
    if t == "" then [] else [FirstLine(t).0] + Lines(FirstLine(t).1)
  }

  /** Before the first tab and after it. */
  function SplitTab(line: string): Option<(string, string)> {
    if line == "" then None
    else if line[0] == '\t' then Some(("", line[1..]))
    else
      var r := SplitTab(line[1..]);
      if r.None? then None else Some(([line[0]] + r.value.0, r.value.1))
  }

  function Digit(c: char): Option<int> {
    if '0' <= c <= '9' then Some(c as int - '0' as int) else None
  }

  function Digits(s: string): Option<int> {
    if s == "" then None
    else
      var d := Digit(s[|s| - 1]);
      if d.None? then None
      else if |s| == 1 then d
      else
        var p := Digits(s[..|s| - 1]);
        if p.None? then None else Some(p.value * 10 + d.value)
  }

  /** A decimal number with an optional sign. */
  function Atoi(s: string): Option<int> {
    if s != "" && (s[0] == '-' || s[0] == '+') then
      var d := Digits(s[1..]);
      if d.None? then None else Some(if s[0] == '-' then -d.value else d.value)
    else Digits(s)
  }

  /** A line's entry, if it has one. */
  function Parsed(line: string): Option<(string, int)> {
    var p := SplitTab(line);
    if p.None? then None
    else
      var n := Atoi(Trim(p.value.1));
      if n.None? || n.value <= 0 then None else Some((p.value.0, n.value))
  }

  function Loaded(lines: seq<string>): map<string, int> {
    if lines == [] then map[]
    else
      var p, e := Loaded(lines[..|lines| - 1]), Parsed(lines[|lines| - 1]);
      if e.None? then p else p[e.value.0 := e.value.1]
  }

  method WriteText(m: map<string, int>, ids: seq<string>) returns (t: string)
    requires forall i :: 0 <= i < |ids| ==> ids[i] in m
    ensures t == Text(m, ids)
  {
    hide Decimal;
    t := "";
    for i := 0 to |ids|
      invariant Text(m, ids) == t + Text(m, ids[i..])
    {
      assert ids[i..][1..] == ids[i + 1..];
      assert t + (LineOf(ids[i], m[ids[i]]) + "\n" + Text(m, ids[i + 1..])) == t + LineOf(ids[i], m[ids[i]]) + "\n" + Text(m, ids[i + 1..]);
      t := t + ids[i] + "\t" + Decimal(m[ids[i]]) + "\n";
    }
  }

  /** Lines that do not parse are skipped. */
  method LoadText(lower: string -> string, t: string) returns (byID: map<string, int>, ghost order: seq<string>)
    ensures Enumerates(order, Loaded(Lines(t))) && byID == Built(lower, Loaded(Lines(t)), order)
  {
    hide Trim, Atoi, SplitTab, Enumerates;
    var lines := Lines(t);
    var m: map<string, int> := map[];
    for i := 0 to |lines|
      invariant m == Loaded(lines[..i])
    {
      assert lines[..i + 1][..i] == lines[..i];
      var parts := SplitTab(lines[i]);
      if parts.None? {
        continue;
      }
      var n := Atoi(Trim(parts.value.1));
      if n.None? || n.value <= 0 {
        continue;
      }
      m := m[parts.value.0 := n.value];
    }
    assert lines[..|lines|] == lines;
    byID, order := NewIndex(lower, m);
  }

  // ---- round trip ----

  lemma {:induction false} DecimalDigits(n: nat)
    ensures Digits(Decimal(n)) == Some(n)
    ensures forall i :: 0 <= i < |Decimal(n)| ==> '0' <= Decimal(n)[i] <= '9'
  {
    OneDigit(n % 10);
    if n >= 10 {
      DecimalDigits(n / 10);
      var s := Decimal(n);
      assert s == Decimal(n / 10) + ["0123456789"[n % 10]];
      assert s[..|s| - 1] == Decimal(n / 10);
    }
  }

  lemma OneDigit(d: nat)
    requires d < 10
    ensures Digit("0123456789"[d]) == Some(d) && '0' <= "0123456789"[d] <= '9'
  {
  }

  lemma DigitIsNoSpace(c: char)
    requires '0' <= c <= '9'
    ensures !IsSpace(c) && c != '-' && c != '+' && c != '\t' && c != '\n'
  {
  }

  lemma NumberReads(n: nat)
    ensures Atoi(Trim(Decimal(n))) == Some(n) && '\n' !in Decimal(n) && '\t' !in Decimal(n)
  {
    hide IsSpace, Digits, Decimal;
    DecimalDigits(n);
    var s := Decimal(n);
    forall i | 0 <= i < |s| ensures !IsSpace(s[i]) && s[i] != '-' && s[i] != '+' && s[i] != '\t' && s[i] != '\n' {
      DigitIsNoSpace(s[i]);
    }
    assert TrimLeft(s) == s && TrimRight(s) == s;
  }

  lemma {:induction false} TabSplits(id: string, rest: string)
    requires '\t' !in id
    ensures SplitTab(id + "\t" + rest) == Some((id, rest))
  {
    var line := id + "\t" + rest;
    if id == "" {
      assert line[0] == '\t' && line[1..] == rest;
    } else {
      assert id[0] != '\t';
      assert line[1..] == id[1..] + "\t" + rest;
      TabSplits(id[1..], rest);
      assert [id[0]] + id[1..] == id;
    }
  }

  lemma {:induction false} LineEnds(line: string, rest: string)
    requires '\n' !in line
    ensures FirstLine(line + "\n" + rest) == (line, rest)
  {
    var t := line + "\n" + rest;
    if line == "" {
      assert t[0] == '\n' && t[1..] == rest;
    } else {
      assert line[0] != '\n';
      assert t[1..] == line[1..] + "\n" + rest;
      LineEnds(line[1..], rest);
      assert [line[0]] + line[1..] == line;
    }
  }

  lemma LineParses(id: string, n: nat)
    requires n > 0 && '\t' !in id && '\n' !in id
    ensures Parsed(LineOf(id, n)) == Some((id, n)) && '\n' !in LineOf(id, n)
  {
    hide SplitTab, Atoi, Trim, Decimal;
    TabSplits(id, Decimal(n));
    NumberReads(n);
  }

  function LinesOf(m: map<string, int>, order: seq<string>): (r: seq<string>)
    requires forall i :: 0 <= i < |order| ==> order[i] in m
    ensures |r| == |order| && forall i :: 0 <= i < |r| ==> r[i] == LineOf(order[i], m[order[i]])
  {
    seq(|order|, i requires 0 <= i < |order| => LineOf(order[i], m[order[i]]))
  }

  /** Ids that survive as text, under positive lengths. */
  predicate Writable(lower: string -> string, m: map<string, int>) {
    forall id :: id in m ==> id != "" && '\t' !in id && '\n' !in id && lower(id) == id && m[id] > 0
  }

  lemma {:induction false} TextLines(lower: string -> string, m: map<string, int>, order: seq<string>)
    requires Writable(lower, m) && forall i :: 0 <= i < |order| ==> order[i] in m
    ensures Lines(Text(m, order)) == LinesOf(m, order)
  {
    hide LineOf, FirstLine;
    if order != [] {
      LineParses(order[0], m[order[0]]);
      LineEnds(LineOf(order[0], m[order[0]]), Text(m, order[1..]));
      TextLines(lower, m, order[1..]);
      assert LinesOf(m, order) == [LineOf(order[0], m[order[0]])] + LinesOf(m, order[1..]);
    }
  }

  lemma {:induction false} LoadsBack(lower: string -> string, m: map<string, int>, order: seq<string>)
    requires Writable(lower, m) && forall i :: 0 <= i < |order| ==> order[i] in m
    ensures Loaded(LinesOf(m, order)).Keys == (set x | x in order)
    ensures forall id :: id in order ==> id in Loaded(LinesOf(m, order)) && Loaded(LinesOf(m, order))[id] == m[id]
  {
    hide LineOf, Parsed;
    if order != [] {
      var p, id := order[..|order| - 1], order[|order| - 1];
      assert order == p + [id];
      LoadsBack(lower, m, p);
      assert LinesOf(m, order)[..|order| - 1] == LinesOf(m, p);
      LineParses(id, m[id]);
    }
  }

  lemma {:induction false} BuildsSame(lower: string -> string, m: map<string, int>, order: seq<string>)
    requires Writable(lower, m) && Enumerates(order, m)
    ensures Built(lower, m, order) == m
  {
    BuiltPart(lower, m, order);
    assert forall id :: id in m <==> id in order;
  }

  lemma {:induction false} BuiltPart(lower: string -> string, m: map<string, int>, order: seq<string>)
    requires Writable(lower, m) && forall i :: 0 <= i < |order| ==> order[i] in m
    ensures var b := Built(lower, m, order);
            (forall id :: id in b <==> id in order) && forall id :: id in b ==> b[id] == m[id]
  {
    if order != [] {
      var p, id := order[..|order| - 1], order[|order| - 1];
      assert order == p + [id];
      BuiltPart(lower, m, p);
    }
  }

  /** An index written as text, in any order, is the index read back, whatever order that goes in. */
  lemma IndexSurvives(lower: string -> string, m: map<string, int>, order: seq<string>, again: seq<string>)
    requires Writable(lower, m) && Enumerates(order, m)
    requires Enumerates(again, Loaded(Lines(Text(m, order))))
    ensures Built(lower, Loaded(Lines(Text(m, order))), again) == m
  {
    hide Loaded, Lines, Text, Built;
    TextLines(lower, m, order);
    LoadsBack(lower, m, order);
    assert Loaded(LinesOf(m, order)) == m;
    BuildsSame(lower, m, again);
  }

  // ---- what an index holds ----

  /** An entry of `m` that an index keeps under `k`. */
  predicate KeptUnder(lower: string -> string, m: map<string, int>, id: string, k: string) {
    id in m && id != "" && m[id] > 0 && lower(id) == k
  }

  predicate KeptAmong(lower: string -> string, m: map<string, int>, ids: seq<string>, k: string, v: int) {
    exists i :: 0 <= i < |ids| && KeptUnder(lower, m, ids[i], k) && m[ids[i]] == v
  }

  lemma KeptSnoc(lower: string -> string, m: map<string, int>, p: seq<string>, id: string, k: string, v: int)
    ensures KeptAmong(lower, m, p + [id], k, v) <==> KeptAmong(lower, m, p, k, v) || (KeptUnder(lower, m, id, k) && m[id] == v)
  {
    hide KeptUnder;
    var all := p + [id];
    assert forall i :: 0 <= i < |p| ==> all[i] == p[i];
    assert all[|p|] == id;
  }

  /** What an index has under an id: the largest value of the entries with that id, in lower case, that are not blank and not
      without a positive value; nothing if there is none. */
  lemma {:induction false} BuiltIs(lower: string -> string, m: map<string, int>, ids: seq<string>, k: string)
    requires forall i :: 0 <= i < |ids| ==> ids[i] in m
    ensures var b := Built(lower, m, ids);
            && (k in b ==> KeptAmong(lower, m, ids, k, b[k]))
            && forall v :: KeptAmong(lower, m, ids, k, v) ==> k in b && v <= b[k]
  {
    hide KeptAmong;
    if ids == [] {
      NothingKept(lower, m, k);
    } else {
      var p, id := ids[..|ids| - 1], ids[|ids| - 1];
      assert ids == p + [id];
      BuiltIs(lower, m, p, k);
      forall v ensures KeptAmong(lower, m, ids, k, v) <==> KeptAmong(lower, m, p, k, v) || (KeptUnder(lower, m, id, k) && m[id] == v) {
        KeptSnoc(lower, m, p, id, k, v);
      }
    }
  }

  lemma NothingKept(lower: string -> string, m: map<string, int>, k: string)
    ensures forall v :: !KeptAmong(lower, m, [], k, v)
  {
  }

  /** So the order in which the entries are met does not matter. */
  lemma OrderIsFree(lower: string -> string, m: map<string, int>, a: seq<string>, b: seq<string>)
    requires Enumerates(a, m) && Enumerates(b, m)
    ensures Built(lower, m, a) == Built(lower, m, b)
  {
    hide Built;
    forall k ensures k in Built(lower, m, a) <==> k in Built(lower, m, b)
             ensures k in Built(lower, m, a) ==> Built(lower, m, a)[k] == Built(lower, m, b)[k] {
      BuiltIs(lower, m, a, k);
      BuiltIs(lower, m, b, k);
      forall v ensures KeptAmong(lower, m, a, k, v) <==> KeptAmong(lower, m, b, k, v) {
        if KeptAmong(lower, m, a, k, v) { SameKept(lower, m, a, b, k, v); }
        if KeptAmong(lower, m, b, k, v) { SameKept(lower, m, b, a, k, v); }
      }
    }
  }

  lemma SameKept(lower: string -> string, m: map<string, int>, a: seq<string>, b: seq<string>, k: string, v: int)
    requires Enumerates(a, m) && Enumerates(b, m) && KeptAmong(lower, m, a, k, v)
    ensures KeptAmong(lower, m, b, k, v)
  {
    hide KeptUnder;
    var i :| 0 <= i < |a| && KeptUnder(lower, m, a[i], k) && m[a[i]] == v;
    assert a[i] in b;
  }

  /** A sign in front of digits, and none. */
  lemma Signed(c: char, digits: string)
    requires c == '-' || c == '+'
    ensures Atoi([c] + digits) == if Digits(digits).Some? && c == '-' then Some(-Digits(digits).value) else Digits(digits)
  {
    hide Digits;
    var s := [c] + digits;
    assert s != "" && s[0] == c;
    assert s[1..] == digits;
  }

  lemma Unsigned(digits: string)
    requires digits != "" && digits[0] != '+' && digits[0] != '-'
    ensures Atoi(digits) == Digits(digits)
  {
    hide Digits;
  }

  lemma Minus(n: int)
    requires n < 0
    ensures Decimal(n) == ['-'] + Decimal(-n)
  {
  }

  /** Numbers of either sign are read back. */
  lemma DecimalReads(n: int)
    ensures Atoi(Decimal(n)) == Some(n)
  {
    hide Digits, Decimal, Atoi;
    if n < 0 {
      Minus(n);
      Signed('-', Decimal(-n));
      DecimalDigits(-n);
    } else {
      DecimalDigits(n);
      assert '0' <= Decimal(n)[0] <= '9';
      Unsigned(Decimal(n));
    }
  }
}
