/**
 The summary printed after the commit: the total row count and the row counts
 grouped by franchise and by type, each ordered by its key.
 */
module Summary {
  import opened Wrappers
  import opened Collation
  import opened Schema
  import opened Store

  /** The column a summary query groups by. */
  datatype Grouping = ByFranchise | ByType

  function Key(g: Grouping, row: Row): string
  {
    match g
    case ByFranchise => row.franchise
    case ByType => row.menuType
  }

  /** One result row of `SELECT key, COUNT(*) ... GROUP BY key`. */
  datatype Group = Group(key: string, count: nat)

  /** The number of rows whose grouping column holds `k`. */
  function Count(t: Table, g: Grouping, k: string): nat
  {
    if |t| == 0 then 0
    else Count(t[..|t| - 1], g, k) + (if Key(g, t[|t| - 1]) == k then 1 else 0)
  }

  /** The distinct values of the grouping column. */
  function KeysOf(t: Table, g: Grouping): set<string>
  {
    set i | 0 <= i < |t| :: Key(g, t[i])
  }

  function Keys(gs: seq<Group>): set<string>
  {
    set i | 0 <= i < |gs| :: gs[i].key
  }

  /** The count a grouped result reports for `k`, and 0 when it has no entry for `k`. */
  function CountIn(gs: seq<Group>, k: string): nat
  {
    if |gs| == 0 then 0
    else if gs[0].key == k then gs[0].count
    else CountIn(gs[1..], k)
  }

  /** Keys strictly increase under the BINARY collation (so no key repeats). */
  predicate Ascending(gs: seq<Group>)
  {
    forall i, j :: 0 <= i < j < |gs| ==> Below(gs[i].key, gs[j].key)
  }

  /** GROUP BY only produces groups that have at least one row. */
  predicate Positive(gs: seq<Group>)
  {
    forall i :: 0 <= i < |gs| ==> gs[i].count >= 1
  }

  function Sum(gs: seq<Group>): nat
  {
    if |gs| == 0 then 0 else gs[0].count + Sum(gs[1..])
  }

  /** A key no group of the list carries is reported with count 0. */
  lemma {:induction false} CountInAbsent(gs: seq<Group>, k: string)
    requires forall i :: 0 <= i < |gs| ==> gs[i].key != k
    ensures CountIn(gs, k) == 0
  {
    if |gs| > 0 {
      assert forall i :: 0 <= i < |gs[1..]| ==> gs[1..][i] == gs[i + 1];
      CountInAbsent(gs[1..], k);
    }
  }

  /** A key that sorts before every key of a result has no group in it. */
  lemma AbsentBelow(gs: seq<Group>, k: string)
    requires forall i :: 0 <= i < |gs| ==> Below(k, gs[i].key)
    ensures k !in Keys(gs) && CountIn(gs, k) == 0
  {
    BelowIrreflexive(k);
    CountInAbsent(gs, k);
  }

  /** Putting a group in front of an ascending result whose keys all follow it keeps it ascending. */
  lemma Prepend(g: Group, gs: seq<Group>)
    requires Ascending(gs)
    requires forall x :: x in Keys(gs) ==> Below(g.key, x)
    ensures Ascending([g] + gs)
  {
    var r := [g] + gs;
    forall i, j | 0 <= i < j < |r| ensures Below(r[i].key, r[j].key) {
      if i == 0 {
        assert r[j].key == gs[j - 1].key;
        assert gs[j - 1].key in Keys(gs);
      } else {
        assert r[i] == gs[i - 1] && r[j] == gs[j - 1];
      }
    }
  }

  lemma KeysCons(g: Group, gs: seq<Group>)
    ensures Keys([g] + gs) == {g.key} + Keys(gs)
  {
    var r := [g] + gs;
    forall x | x in Keys(r) ensures x in {g.key} + Keys(gs) {
      var i :| 0 <= i < |r| && r[i].key == x;
      if i > 0 {
        assert gs[i - 1].key == x;
      }
    }
    forall x | x in Keys(gs) ensures x in Keys(r) {
      var i :| 0 <= i < |gs| && gs[i].key == x;
      assert r[i + 1].key == x;
    }
    assert r[0].key == g.key;
  }

  /** `r` is `gs` with one more row holding `k` counted. */
  ghost predicate Tallied(gs: seq<Group>, k: string, r: seq<Group>)
  {
    && Ascending(r)
    && Keys(r) == Keys(gs) + {k}
    && (forall x :: CountIn(r, x) == CountIn(gs, x) + (if x == k then 1 else 0))
    && Sum(r) == Sum(gs) + 1
    && (Positive(gs) ==> Positive(r))
  }

  lemma TallyEmpty(k: string)
    ensures Tallied([], k, [Group(k, 1)])
  {
    KeysCons(Group(k, 1), []);
    assert [Group(k, 1)] + [] == [Group(k, 1)];
  }

  lemma TallyHit(gs: seq<Group>, k: string)
    requires Ascending(gs) && |gs| > 0 && gs[0].key == k
    ensures Tallied(gs, k, [Group(k, gs[0].count + 1)] + gs[1..])
  {
    var r := [Group(k, gs[0].count + 1)] + gs[1..];
    assert gs == [gs[0]] + gs[1..];
    KeysCons(gs[0], gs[1..]);
    KeysCons(r[0], gs[1..]);
    forall i, j | 0 <= i < j < |r| ensures Below(r[i].key, r[j].key) {
      assert r[j] == gs[j];
      if i > 0 { assert r[i] == gs[i]; }
    }
    if Positive(gs) {
      forall i | 0 <= i < |r| ensures r[i].count >= 1 {
        if i > 0 { assert r[i] == gs[i]; }
      }
    }
  }

  lemma TallyBefore(gs: seq<Group>, k: string)
    requires Ascending(gs) && |gs| > 0 && Below(k, gs[0].key)
    ensures Tallied(gs, k, [Group(k, 1)] + gs)
  {
    var r := [Group(k, 1)] + gs;
    forall i | 0 <= i < |gs| ensures Below(k, gs[i].key) {
      if i > 0 {
        BelowTransitive(k, gs[0].key, gs[i].key);
      }
    }
    AbsentBelow(gs, k);
    KeysCons(r[0], gs);
    Prepend(r[0], gs);
    if Positive(gs) {
      forall i | 0 <= i < |r| ensures r[i].count >= 1 {
        if i > 0 { assert r[i] == gs[i - 1]; }
      }
    }
  }

  /** The tail of an ascending result is ascending, follows its head, and is positive when the whole is. */
  lemma TailAscending(gs: seq<Group>)
    requires Ascending(gs) && |gs| > 0
    ensures Ascending(gs[1..])
    ensures forall i :: 0 <= i < |gs[1..]| ==> Below(gs[0].key, gs[1..][i].key)
    ensures Positive(gs) ==> Positive(gs[1..])
  {
    forall i | 0 <= i < |gs[1..]| ensures Below(gs[0].key, gs[1..][i].key) {
      assert gs[1..][i] == gs[i + 1];
    }
    forall i, j | 0 <= i < j < |gs[1..]| ensures Below(gs[1..][i].key, gs[1..][j].key) {
      assert gs[1..][i] == gs[i + 1] && gs[1..][j] == gs[j + 1];
    }
    if Positive(gs) {
      forall i | 0 <= i < |gs[1..]| ensures gs[1..][i].count >= 1 {
        assert gs[1..][i] == gs[i + 1];
      }
    }
  }

  lemma TallyAfter(gs: seq<Group>, k: string, rest: seq<Group>)
    requires Ascending(gs) && |gs| > 0 && gs[0].key != k && !Below(k, gs[0].key)
    requires Tallied(gs[1..], k, rest)
    ensures Tallied(gs, k, [gs[0]] + rest)
  {
    var r := [gs[0]] + rest;
    assert r[1..] == rest;
    assert Sum(r) == gs[0].count + Sum(rest);
    assert Sum(gs) == gs[0].count + Sum(gs[1..]);
    assert gs == [gs[0]] + gs[1..];
    TailAscending(gs);
    KeysCons(gs[0], gs[1..]);
    BelowTotal(k, gs[0].key);
    forall x | x in Keys(rest) ensures Below(gs[0].key, x) {
      if x != k {
        var i :| 0 <= i < |gs[1..]| && gs[1..][i].key == x;
        assert gs[i + 1].key == x;
      }
    }
    Prepend(gs[0], rest);
    KeysCons(gs[0], rest);
    if Positive(gs) {
      forall i | 0 <= i < |r| ensures r[i].count >= 1 {
        if i > 0 { assert r[i] == rest[i - 1]; }
      }
    }
  }

  /**
   Counts one more row whose grouping column holds `k`: the group for `k` is
   incremented, or created at its place in key order.
   */
  function Tally(gs: seq<Group>, k: string): (r: seq<Group>)
    requires Ascending(gs)
    ensures Ascending(r)
    ensures Keys(r) == Keys(gs) + {k}
    ensures forall x :: CountIn(r, x) == CountIn(gs, x) + (if x == k then 1 else 0)
    ensures Sum(r) == Sum(gs) + 1
    ensures Positive(gs) ==> Positive(r)
  {
    if |gs| == 0 then
      TallyEmpty(k);
      [Group(k, 1)]
    else if gs[0].key == k then
      TallyHit(gs, k);
      [Group(k, gs[0].count + 1)] + gs[1..]
    else if Below(k, gs[0].key) then
      TallyBefore(gs, k);
      [Group(k, 1)] + gs
    else
      TailAscending(gs);
      var rest := Tally(gs[1..], k);
      TallyAfter(gs, k, rest);
      [gs[0]] + rest
  }

  /**
   `SELECT key, COUNT(*) FROM menus GROUP BY key ORDER BY key`, scanning the
   rows in rowid order: one group per distinct key present, keys strictly
   ascending, each count the number of rows holding that key.
   */
  function GroupCount(t: Table, g: Grouping): (r: seq<Group>)
    ensures Ascending(r) && Positive(r)
    ensures Keys(r) == KeysOf(t, g)
    ensures forall k :: CountIn(r, k) == Count(t, g, k)
    ensures Sum(r) == |t|
  {
    if |t| == 0 then
      []
    else
      var front := t[..|t| - 1];
      var prior := GroupCount(front, g);
      assert KeysOf(t, g) == KeysOf(front, g) + {Key(g, t[|t| - 1])} by {
        forall x | x in KeysOf(t, g) ensures x in KeysOf(front, g) + {Key(g, t[|t| - 1])} {
          var i :| 0 <= i < |t| && Key(g, t[i]) == x;
          if i < |t| - 1 {
            assert front[i] == t[i];
          }
        }
        forall x | x in KeysOf(front, g) ensures x in KeysOf(t, g) {
          var i :| 0 <= i < |front| && Key(g, front[i]) == x;
          assert t[i] == front[i];
        }
      }
      Tally(prior, Key(g, t[|t| - 1]))
  }

  /** What the run prints after a successful commit. */
  datatype Report = Report(total: nat, byFranchise: seq<Group>, byType: seq<Group>)

  /** The three summary queries over the committed table. */
  function Summarize(t: Table): (r: Report)
    ensures r.total == |t|
    ensures Sum(r.byFranchise) == r.total && Sum(r.byType) == r.total
    ensures Ascending(r.byFranchise) && Positive(r.byFranchise) && Keys(r.byFranchise) == KeysOf(t, ByFranchise)
    ensures Ascending(r.byType) && Positive(r.byType) && Keys(r.byType) == KeysOf(t, ByType)
  {
    Report(|t|, GroupCount(t, ByFranchise), GroupCount(t, ByType))
  }

  /** The whole run minus its output: load the batch, commit, summarise; or fail at the first bad tuple. */
  function GenerateReport(rs: seq<Record>): (res: Result<Report, BatchError>)
    ensures res.Success? <==> Loadable(rs)
    ensures res.Success? ==> res.value.total == |rs|
    ensures res.Success? ==> Sum(res.value.byFranchise) == |rs| && Sum(res.value.byType) == |rs|
  {
    match Generate(rs)
    case Success(t) => Success(Summarize(t))
    case Failure(e) => Failure(e)
  }

  /** An ascending, positive grouped result is fixed by the count it reports for each key. */
  lemma {:induction false} GroupsDetermined(a: seq<Group>, b: seq<Group>)
    requires Ascending(a) && Positive(a) && Ascending(b) && Positive(b)
    requires forall k :: CountIn(a, k) == CountIn(b, k)
    ensures a == b
  {
    if |a| == 0 && |b| == 0 {
      return;
    }
    if |a| == 0 || |b| == 0 {
      HeadCounted(a);
      HeadCounted(b);
      assert false;
    }
    TailAscending(a);
    TailAscending(b);
    if a[0].key != b[0].key {
      BelowTotal(a[0].key, b[0].key);
      if Below(a[0].key, b[0].key) {
        LeastAbsent(b, a[0].key);
        assert false;
      } else {
        LeastAbsent(a, b[0].key);
        assert false;
      }
    }
    assert a[0].count == CountIn(a, a[0].key) == CountIn(b, b[0].key) == b[0].count;
    AbsentBelow(a[1..], a[0].key);
    AbsentBelow(b[1..], b[0].key);
    forall k ensures CountIn(a[1..], k) == CountIn(b[1..], k) {
      if k != a[0].key {
        assert CountIn(a, k) == CountIn(a[1..], k);
        assert CountIn(b, k) == CountIn(b[1..], k);
      }
    }
    GroupsDetermined(a[1..], b[1..]);
    assert a == [a[0]] + a[1..] && b == [b[0]] + b[1..];
  }

  lemma HeadCounted(gs: seq<Group>)
    ensures |gs| > 0 ==> CountIn(gs, gs[0].key) == gs[0].count
  {
  }

  /** A key below the first key of an ascending result has no group in it. */
  lemma LeastAbsent(gs: seq<Group>, k: string)
    requires Ascending(gs) && |gs| > 0 && Below(k, gs[0].key)
    ensures CountIn(gs, k) == 0
  {
    forall i | 0 <= i < |gs| ensures Below(k, gs[i].key) {
      if i > 0 {
        BelowTransitive(k, gs[0].key, gs[i].key);
      }
    }
    AbsentBelow(gs, k);
  }

  /** An empty batch is not an error: the run commits an empty table and reports zero rows and no groups. */
  lemma EmptyBatchReports()
    ensures GenerateReport([]) == Success(Report(0, [], []))
  {
  }
}
