/**
 Materialising the catalog: `executemany` of the INSERT over the whole batch,
 then `commit`, on a store that was deleted and recreated first.
 */
module Store {
  import opened Wrappers
  import opened Schema

  /** The tuple of the batch that SQLite refused (0-based), and why. */
  datatype BatchError = BatchError(index: nat, violation: Violation)

  predicate AllConform(rs: seq<Record>)
  {
    forall i :: 0 <= i < |rs| ==> Conforms(rs[i])
  }

  /** No two tuples of the batch carry the same non-NULL id. */
  predicate IdsDistinct(rs: seq<Record>)
  {
    forall i, j :: 0 <= i < j < |rs| && rs[i].id.Some? ==> rs[i].id != rs[j].id
  }

  /** No tuple of the batch reuses an id already in `t`. */
  predicate IdsFreeIn(t: Table, rs: seq<Record>)
  {
    forall i :: 0 <= i < |rs| ==> IdFree(t, rs[i])
  }

  /** What the DDL asks of a batch loaded into an empty `menus`. */
  predicate Loadable(rs: seq<Record>)
  {
    AllConform(rs) && IdsDistinct(rs)
  }

  /** The rows the tuples become, one per tuple and in the same order. */
  function Rows(rs: seq<Record>): (t: Table)
    requires forall i :: 0 <= i < |rs| ==> HasRequired(rs[i])
    ensures |t| == |rs|
    ensures forall i :: 0 <= i < |rs| ==> t[i] == ToRow(rs[i])
  {
    if |rs| == 0 then [] else [ToRow(rs[0])] + Rows(rs[1..])
  }

  /** An id is taken in the rows of a batch exactly when some tuple of the batch carries it. */
  lemma TakenInRows(rs: seq<Record>, id: string)
    requires forall i :: 0 <= i < |rs| ==> HasRequired(rs[i])
    ensures IdTaken(Rows(rs), id) <==> exists m :: 0 <= m < |rs| && rs[m].id == Some(id)
  {
    var t := Rows(rs);
    if IdTaken(t, id) {
      var row :| row in t && row.id == Some(id);
      var m :| 0 <= m < |t| && t[m] == row;
      assert rs[m].id == Some(id);
    }
    if exists m :: 0 <= m < |rs| && rs[m].id == Some(id) {
      var m :| 0 <= m < |rs| && rs[m].id == Some(id);
      assert t[m] in t;
    }
  }

  /** Inserting the first tuple turns "free in t" for the rest into "free in t and distinct from it". */
  lemma FreeAfterInsert(t: Table, r: Record, rest: seq<Record>)
    requires HasRequired(r)
    ensures IdsFreeIn(t + [ToRow(r)], rest) <==>
              IdsFreeIn(t, rest) && forall j :: 0 <= j < |rest| && r.id.Some? ==> rest[j].id != r.id
  {
    var t' := t + [ToRow(r)];
    forall j | 0 <= j < |rest| && rest[j].id.Some?
      ensures IdTaken(t', rest[j].id.value) <==> IdTaken(t, rest[j].id.value) || rest[j].id == r.id
    {
      var id := rest[j].id.value;
      if IdTaken(t', id) {
        var row :| row in t' && row.id == Some(id);
        if row !in t {
          assert row == ToRow(r);
        }
      }
      if rest[j].id == r.id {
        assert t'[|t|] in t';
      }
    }
  }

  /** How the batch conditions split into the first tuple and the rest. */
  lemma BatchSplit(t: Table, rs: seq<Record>)
    requires |rs| > 0 && Conforms(rs[0])
    ensures AllConform(rs) <==> AllConform(rs[1..])
    ensures IdsFreeIn(t, rs) && IdsDistinct(rs) <==>
              IdFree(t, rs[0]) && IdsFreeIn(t + [ToRow(rs[0])], rs[1..]) && IdsDistinct(rs[1..])
  {
    FreeAfterInsert(t, rs[0], rs[1..]);
    assert forall j :: 0 <= j < |rs[1..]| ==> rs[1..][j] == rs[j + 1];
    if IdFree(t, rs[0]) && IdsFreeIn(t + [ToRow(rs[0])], rs[1..]) && IdsDistinct(rs[1..]) {
      forall i, j | 0 <= i < j < |rs| && rs[i].id.Some?
        ensures rs[i].id != rs[j].id
      {
        if i > 0 {
          assert rs[1..][i - 1] == rs[i] && rs[1..][j - 1] == rs[j];
        } else {
          assert rs[1..][j - 1] == rs[j];
        }
      }
    }
  }

  /** The tuples that passed before a failure of the rest still pass once the first tuple is put back. */
  lemma ShiftPassed(t: Table, rs: seq<Record>, k: nat)
    requires |rs| > 0 && Conforms(rs[0]) && IdFree(t, rs[0])
    requires k < |rs| - 1
    requires AllConform(rs[1..][..k]) && IdsFreeIn(t + [ToRow(rs[0])], rs[1..][..k])
    requires IdsDistinct(rs[1..][..k])
    ensures AllConform(rs[..k + 1]) && IdsFreeIn(t, rs[..k + 1]) && IdsDistinct(rs[..k + 1])
  {
    var p := rs[..k + 1];
    assert p[0] == rs[0] && p[1..] == rs[1..][..k];
    BatchSplit(t, p);
  }

  /** The table a failing tuple of the rest met is the one it meets in the whole batch. */
  lemma ShiftExplains(t: Table, rs: seq<Record>, k: nat, v: Violation)
    requires |rs| > 0 && HasRequired(rs[0])
    requires k < |rs| - 1
    requires forall i :: 0 <= i < k + 1 ==> HasRequired(rs[i])
    requires Explains(t + [ToRow(rs[0])] + Rows(rs[1..][..k]), rs[1..][k], v)
    ensures Explains(t + Rows(rs[..k + 1]), rs[k + 1], v)
  {
    var p := rs[..k + 1];
    assert p[0] == rs[0] && p[1..] == rs[1..][..k];
    assert Rows(p) == [ToRow(rs[0])] + Rows(rs[1..][..k]);
    assert t + Rows(p) == t + [ToRow(rs[0])] + Rows(rs[1..][..k]);
    assert rs[1..][k] == rs[k + 1];
  }

  /** A tuple refused at the head of the batch fails the batch at index 0. */
  lemma FirstFails(t: Table, rs: seq<Record>, v: Violation)
    requires |rs| > 0 && !(Conforms(rs[0]) && IdFree(t, rs[0]))
    requires Explains(t, rs[0], v)
    ensures !(AllConform(rs) && IdsFreeIn(t, rs) && IdsDistinct(rs))
    ensures AllConform(rs[..0]) && IdsFreeIn(t, rs[..0]) && IdsDistinct(rs[..0])
    ensures Explains(t + Rows(rs[..0]), rs[0], v)
  {
    assert rs[..0] == [] && t + Rows(rs[..0]) == t;
  }

  /** A failure of the rest at `k`, after the head was inserted, is a failure of the whole batch at `k + 1`. */
  lemma ShiftFailure(t: Table, rs: seq<Record>, k: nat, v: Violation)
    requires |rs| > 0 && Conforms(rs[0]) && IdFree(t, rs[0])
    requires !(AllConform(rs[1..]) && IdsFreeIn(t + [ToRow(rs[0])], rs[1..]) && IdsDistinct(rs[1..]))
    requires k < |rs| - 1
    requires AllConform(rs[1..][..k]) && IdsFreeIn(t + [ToRow(rs[0])], rs[1..][..k])
    requires IdsDistinct(rs[1..][..k])
    requires Explains(t + [ToRow(rs[0])] + Rows(rs[1..][..k]), rs[1..][k], v)
    ensures !(AllConform(rs) && IdsFreeIn(t, rs) && IdsDistinct(rs))
    ensures k + 1 < |rs|
    ensures AllConform(rs[..k + 1]) && IdsFreeIn(t, rs[..k + 1]) && IdsDistinct(rs[..k + 1])
    ensures Explains(t + Rows(rs[..k + 1]), rs[k + 1], v)
  {
    BatchSplit(t, rs);
    ShiftPassed(t, rs, k);
    ShiftExplains(t, rs, k, v);
  }

  /**
   `executemany` of the INSERT over `rs`, starting from `t`: the tuples are
   inserted in order and the first refused one raises, so the batch as a whole
   either appends one row per tuple or fails naming the first bad tuple.
   */
  function InsertAll(t: Table, rs: seq<Record>): (res: Result<Table, BatchError>)
    ensures res.Success? <==> AllConform(rs) && IdsFreeIn(t, rs) && IdsDistinct(rs)
    ensures res.Success? ==> res.value == t + Rows(rs)
    ensures res.Failure? ==>
              && res.error.index < |rs|
              && AllConform(rs[..res.error.index])
              && IdsFreeIn(t, rs[..res.error.index])
              && IdsDistinct(rs[..res.error.index])
              && Explains(t + Rows(rs[..res.error.index]), rs[res.error.index], res.error.violation)
    ensures WellFormed(t) && res.Success? ==> WellFormed(res.value)
    decreases |rs|
  {
    if |rs| == 0 then
      Success(t)
    else
      match InsertRow(t, rs[0])
      case Failure(v) =>
        FirstFails(t, rs, v);
        Failure(BatchError(0, v))
      case Success(t') =>
        match InsertAll(t', rs[1..])
        case Failure(e) =>
          ShiftFailure(t, rs, e.index, e.violation);
          Failure(BatchError(e.index + 1, e.violation))
        case Success(t'') =>
          BatchSplit(t, rs);
          assert Rows(rs) == [ToRow(rs[0])] + Rows(rs[1..]);
          Success(t'')
  }

  /** The whole load of a fresh `menus` table: `executemany` on the empty table. */
  function Generate(rs: seq<Record>): (res: Result<Table, BatchError>)
    ensures res.Success? <==> Loadable(rs)
    ensures res.Success? ==> res.value == Rows(rs) && |res.value| == |rs| && WellFormed(res.value)
    ensures res.Failure? ==> res.error.index < |rs| && Loadable(rs[..res.error.index])
  {
    InsertAll([], rs)
  }

  /**
   The rows `menus` holds after a run, whatever store `prior` existed before
   (it is deleted first). On failure `commit` is never reached and the open
   transaction is discarded, leaving the freshly created, empty table.
   */
  function Run(prior: Option<Table>, rs: seq<Record>): (t: Table)
    ensures Loadable(rs) ==> t == Rows(rs)
    ensures !Loadable(rs) ==> t == []
  {
    match Generate(rs)
    case Success(t) => t
    case Failure(_) => []
  }

  /** Generation does not depend on the store it replaces. */
  lemma RunIgnoresPrior(p: Option<Table>, q: Option<Table>, rs: seq<Record>)
    ensures Run(p, rs) == Run(q, rs)
  {
  }

  /** Running again on the store a run left behind reproduces it: no stale rows accumulate. */
  lemma RunIdempotent(p: Option<Table>, rs: seq<Record>)
    ensures Run(Some(Run(p, rs)), rs) == Run(p, rs)
  {
  }

  /** A bad tuple anywhere in the batch makes the whole run persist no row. */
  lemma NonconformingRecordSpoilsBatch(p: Option<Table>, rs: seq<Record>, i: nat)
    requires i < |rs| && !Conforms(rs[i])
    ensures Generate(rs).Failure? && Run(p, rs) == []
  {
  }

  /**
   A valid batch followed by a conforming tuple that repeats one of its ids
   fails at that last tuple with a primary-key violation, and nothing is kept.
   */
  lemma AppendedDuplicateFails(p: Option<Table>, rs: seq<Record>, r: Record, i: nat)
    requires Loadable(rs) && Conforms(r)
    requires i < |rs| && r.id.Some? && rs[i].id == r.id
    ensures Generate(rs + [r]) == Failure(BatchError(|rs|, DuplicateId(r.id.value)))
    ensures Run(p, rs + [r]) == []
  {
    var all := rs + [r];
    var res := Generate(all);
    assert all[i] == rs[i] && all[|rs|] == r;
    assert !IdsDistinct(all);
    var k := res.error.index;
    var v := res.error.violation;
    var before := Rows(all[..k]);
    if k < |rs| {
      assert all[k] == rs[k] && all[..k] == rs[..k];
      assert Conforms(rs[k]);
      if v.DuplicateId? {
        TakenInRows(rs[..k], v.id);
      }
      assert false;
    }
    assert all[..|rs|] == rs;
    assert before == Rows(rs);
    assert Rows(rs)[i] == ToRow(rs[i]);
    assert Rows(rs)[i] in Rows(rs);
    assert v == DuplicateId(r.id.value);
  }
}
