/**
 What generation does with the catalog literal: the rebuilt tuples carry the
 literal's own 68 ids, the batch loads without a constraint violation, and the
 summary reports 68 rows, grouped as
 bk 14, kfc 13, lot 14, mcd 14, mom 13 and as burger 32, drink 15, side 21.
 */
module Seed {
  import opened Wrappers
  import opened Collation
  import opened Schema
  import opened Store
  import opened Summary
  import opened Catalog

  //// The ids of the literal

  /** The ids of one run, in order. */
  function RunIds(s: Section): (ids: seq<string>)
    ensures |ids| == |s.entries|
    ensures forall k :: 0 <= k < |ids| ==> ids[k] == IdOf(s, k)
  {
    seq(|s.entries|, k requires 0 <= k < |s.entries| => IdOf(s, k))
  }

  /** The ids of consecutive runs, in order. */
  function FlatIds(ss: seq<Section>): seq<string>
  {
    if |ss| == 0 then [] else RunIds(ss[0]) + FlatIds(ss[1..])
  }

  /** The tuples built from runs carry, position by position, the ids of the runs. */
  lemma {:induction false} FlattenIds(ss: seq<Section>)
    ensures |FlatIds(ss)| == |Flatten(ss)|
    ensures forall i :: 0 <= i < |Flatten(ss)| ==> Flatten(ss)[i].id == Some(FlatIds(ss)[i])
  {
    if |ss| > 0 {
      FlattenIds(ss[1..]);
      var head: seq<Record>, tail: seq<Record> := Items(ss[0]), Flatten(ss[1..]);
      var headIds: seq<string>, tailIds: seq<string> := RunIds(ss[0]), FlatIds(ss[1..]);
      assert Flatten(ss) == head + tail;
      assert FlatIds(ss) == headIds + tailIds;
      forall i | 0 <= i < |head + tail| ensures (head + tail)[i].id == Some((headIds + tailIds)[i]) {
        if i < |head| {
          assert head[i] == ItemOf(ss[0], i) && headIds[i] == IdOf(ss[0], i);
        } else {
          assert (head + tail)[i] == tail[i - |head|] && (headIds + tailIds)[i] == tailIds[i - |head|];
        }
      }
    }
  }

  /** The ids of two lists of runs one after the other. */
  lemma {:induction false} FlatIdsAppend(a: seq<Section>, b: seq<Section>)
    ensures FlatIds(a + b) == FlatIds(a) + FlatIds(b)
  {
    if |a| == 0 {
      assert a + b == b;
    } else {
      assert (a + b)[1..] == a[1..] + b;
      FlatIdsAppend(a[1..], b);
    }
  }

  /** The ids of a franchise's three runs, run by run. */
  lemma FlatIdsTriple(ss: seq<Section>)
    requires |ss| == 3
    ensures FlatIds(ss) == RunIds(ss[0]) + RunIds(ss[1]) + RunIds(ss[2])
  {
    var rest := ss[1..];
    assert rest[0] == ss[1] && rest[1..][0] == ss[2] && rest[1..][1..] == [];
    assert FlatIds(rest[1..]) == RunIds(ss[2]) + [];
  }

  /** The serials of the first seven positions. */
  lemma SmallSerials()
    ensures Serial(1) == "01" && Serial(2) == "02" && Serial(3) == "03" && Serial(4) == "04"
    ensures Serial(5) == "05" && Serial(6) == "06" && Serial(7) == "07"
  {
    assert Digit(1) == '1' && Digit(2) == '2' && Digit(3) == '3' && Digit(4) == '4';
    assert Digit(5) == '5' && Digit(6) == '6' && Digit(7) == '7';
  }

  /** The ids of McDonald's burgers as the literal spells them, scripts/generate_seed_db.py:28-34. */
  const McdBurgerIds: seq<string> := ["mcd_burger_01", "mcd_burger_02", "mcd_burger_03", "mcd_burger_04", "mcd_burger_05", "mcd_burger_06", "mcd_burger_07"]

  /** The rebuilt ids of the run are the literal's. */
  lemma McdBurgerIdsAsWritten()
    ensures RunIds(McdBurgers) == McdBurgerIds
  {
    SmallSerials();
    assert IdPrefix(McdBurgers) == "mcd_burger_";
    assert IdOf(McdBurgers, 0) == "mcd_burger_" + "01" == "mcd_burger_01";
    assert IdOf(McdBurgers, 1) == "mcd_burger_" + "02" == "mcd_burger_02";
    assert IdOf(McdBurgers, 2) == "mcd_burger_" + "03" == "mcd_burger_03";
    assert IdOf(McdBurgers, 3) == "mcd_burger_" + "04" == "mcd_burger_04";
    assert IdOf(McdBurgers, 4) == "mcd_burger_" + "05" == "mcd_burger_05";
    assert IdOf(McdBurgers, 5) == "mcd_burger_" + "06" == "mcd_burger_06";
    assert IdOf(McdBurgers, 6) == "mcd_burger_" + "07" == "mcd_burger_07";
  }

  /** The ids of McDonald's sides as the literal spells them, scripts/generate_seed_db.py:36-39. */
  const McdSideIds: seq<string> := ["mcd_side_01", "mcd_side_02", "mcd_side_03", "mcd_side_04"]

  /** The rebuilt ids of the run are the literal's. */
  lemma McdSideIdsAsWritten()
    ensures RunIds(McdSides) == McdSideIds
  {
    SmallSerials();
    assert IdPrefix(McdSides) == "mcd_side_";
    assert IdOf(McdSides, 0) == "mcd_side_" + "01" == "mcd_side_01";
    assert IdOf(McdSides, 1) == "mcd_side_" + "02" == "mcd_side_02";
    assert IdOf(McdSides, 2) == "mcd_side_" + "03" == "mcd_side_03";
    assert IdOf(McdSides, 3) == "mcd_side_" + "04" == "mcd_side_04";
  }

  /** The ids of McDonald's drinks as the literal spells them, scripts/generate_seed_db.py:41-43. */
  const McdDrinkIds: seq<string> := ["mcd_drink_01", "mcd_drink_02", "mcd_drink_03"]

  /** The rebuilt ids of the run are the literal's. */
  lemma McdDrinkIdsAsWritten()
    ensures RunIds(McdDrinks) == McdDrinkIds
  {
    SmallSerials();
    assert IdPrefix(McdDrinks) == "mcd_drink_";
    assert IdOf(McdDrinks, 0) == "mcd_drink_" + "01" == "mcd_drink_01";
    assert IdOf(McdDrinks, 1) == "mcd_drink_" + "02" == "mcd_drink_02";
    assert IdOf(McdDrinks, 2) == "mcd_drink_" + "03" == "mcd_drink_03";
  }

  /** The ids of Burger King's burgers as the literal spells them, scripts/generate_seed_db.py:49-55. */
  const BkBurgerIds: seq<string> := ["bk_burger_01", "bk_burger_02", "bk_burger_03", "bk_burger_04", "bk_burger_05", "bk_burger_06", "bk_burger_07"]

  /** The rebuilt ids of the run are the literal's. */
  lemma BkBurgerIdsAsWritten()
    ensures RunIds(BkBurgers) == BkBurgerIds
  {
    SmallSerials();
    assert IdPrefix(BkBurgers) == "bk_burger_";
    assert IdOf(BkBurgers, 0) == "bk_burger_" + "01" == "bk_burger_01";
    assert IdOf(BkBurgers, 1) == "bk_burger_" + "02" == "bk_burger_02";
    assert IdOf(BkBurgers, 2) == "bk_burger_" + "03" == "bk_burger_03";
    assert IdOf(BkBurgers, 3) == "bk_burger_" + "04" == "bk_burger_04";
    assert IdOf(BkBurgers, 4) == "bk_burger_" + "05" == "bk_burger_05";
    assert IdOf(BkBurgers, 5) == "bk_burger_" + "06" == "bk_burger_06";
    assert IdOf(BkBurgers, 6) == "bk_burger_" + "07" == "bk_burger_07";
  }

  /** The ids of Burger King's sides as the literal spells them, scripts/generate_seed_db.py:57-60. */
  const BkSideIds: seq<string> := ["bk_side_01", "bk_side_02", "bk_side_03", "bk_side_04"]

  /** The rebuilt ids of the run are the literal's. */
  lemma BkSideIdsAsWritten()
    ensures RunIds(BkSides) == BkSideIds
  {
    SmallSerials();
    assert IdPrefix(BkSides) == "bk_side_";
    assert IdOf(BkSides, 0) == "bk_side_" + "01" == "bk_side_01";
    assert IdOf(BkSides, 1) == "bk_side_" + "02" == "bk_side_02";
    assert IdOf(BkSides, 2) == "bk_side_" + "03" == "bk_side_03";
    assert IdOf(BkSides, 3) == "bk_side_" + "04" == "bk_side_04";
  }

  /** The ids of Burger King's drinks as the literal spells them, scripts/generate_seed_db.py:62-64. */
  const BkDrinkIds: seq<string> := ["bk_drink_01", "bk_drink_02", "bk_drink_03"]

  /** The rebuilt ids of the run are the literal's. */
  lemma BkDrinkIdsAsWritten()
    ensures RunIds(BkDrinks) == BkDrinkIds
  {
    SmallSerials();
    assert IdPrefix(BkDrinks) == "bk_drink_";
    assert IdOf(BkDrinks, 0) == "bk_drink_" + "01" == "bk_drink_01";
    assert IdOf(BkDrinks, 1) == "bk_drink_" + "02" == "bk_drink_02";
    assert IdOf(BkDrinks, 2) == "bk_drink_" + "03" == "bk_drink_03";
  }

  /** The ids of KFC's burgers as the literal spells them, scripts/generate_seed_db.py:70-74. */
  const KfcBurgerIds: seq<string> := ["kfc_burger_01", "kfc_burger_02", "kfc_burger_03", "kfc_burger_04", "kfc_burger_05"]

  /** The rebuilt ids of the run are the literal's. */
  lemma KfcBurgerIdsAsWritten()
    ensures RunIds(KfcBurgers) == KfcBurgerIds
  {
    SmallSerials();
    assert IdPrefix(KfcBurgers) == "kfc_burger_";
    assert IdOf(KfcBurgers, 0) == "kfc_burger_" + "01" == "kfc_burger_01";
    assert IdOf(KfcBurgers, 1) == "kfc_burger_" + "02" == "kfc_burger_02";
    assert IdOf(KfcBurgers, 2) == "kfc_burger_" + "03" == "kfc_burger_03";
    assert IdOf(KfcBurgers, 3) == "kfc_burger_" + "04" == "kfc_burger_04";
    assert IdOf(KfcBurgers, 4) == "kfc_burger_" + "05" == "kfc_burger_05";
  }

  /** The ids of KFC's sides as the literal spells them, scripts/generate_seed_db.py:76-80. */
  const KfcSideIds: seq<string> := ["kfc_side_01", "kfc_side_02", "kfc_side_03", "kfc_side_04", "kfc_side_05"]

  /** The rebuilt ids of the run are the literal's. */
  lemma KfcSideIdsAsWritten()
    ensures RunIds(KfcSides) == KfcSideIds
  {
    SmallSerials();
    assert IdPrefix(KfcSides) == "kfc_side_";
    assert IdOf(KfcSides, 0) == "kfc_side_" + "01" == "kfc_side_01";
    assert IdOf(KfcSides, 1) == "kfc_side_" + "02" == "kfc_side_02";
    assert IdOf(KfcSides, 2) == "kfc_side_" + "03" == "kfc_side_03";
    assert IdOf(KfcSides, 3) == "kfc_side_" + "04" == "kfc_side_04";
    assert IdOf(KfcSides, 4) == "kfc_side_" + "05" == "kfc_side_05";
  }

  /** The ids of KFC's drinks as the literal spells them, scripts/generate_seed_db.py:82-84. */
  const KfcDrinkIds: seq<string> := ["kfc_drink_01", "kfc_drink_02", "kfc_drink_03"]

  /** The rebuilt ids of the run are the literal's. */
  lemma KfcDrinkIdsAsWritten()
    ensures RunIds(KfcDrinks) == KfcDrinkIds
  {
    SmallSerials();
    assert IdPrefix(KfcDrinks) == "kfc_drink_";
    assert IdOf(KfcDrinks, 0) == "kfc_drink_" + "01" == "kfc_drink_01";
    assert IdOf(KfcDrinks, 1) == "kfc_drink_" + "02" == "kfc_drink_02";
    assert IdOf(KfcDrinks, 2) == "kfc_drink_" + "03" == "kfc_drink_03";
  }

  /** The ids of Mom's Touch's burgers as the literal spells them, scripts/generate_seed_db.py:90-95. */
  const MomBurgerIds: seq<string> := ["mom_burger_01", "mom_burger_02", "mom_burger_03", "mom_burger_04", "mom_burger_05", "mom_burger_06"]

  /** The rebuilt ids of the run are the literal's. */
  lemma MomBurgerIdsAsWritten()
    ensures RunIds(MomBurgers) == MomBurgerIds
  {
    SmallSerials();
    assert IdPrefix(MomBurgers) == "mom_burger_";
    assert IdOf(MomBurgers, 0) == "mom_burger_" + "01" == "mom_burger_01";
    assert IdOf(MomBurgers, 1) == "mom_burger_" + "02" == "mom_burger_02";
    assert IdOf(MomBurgers, 2) == "mom_burger_" + "03" == "mom_burger_03";
    assert IdOf(MomBurgers, 3) == "mom_burger_" + "04" == "mom_burger_04";
    assert IdOf(MomBurgers, 4) == "mom_burger_" + "05" == "mom_burger_05";
    assert IdOf(MomBurgers, 5) == "mom_burger_" + "06" == "mom_burger_06";
  }

  /** The ids of Mom's Touch's sides as the literal spells them, scripts/generate_seed_db.py:97-100. */
  const MomSideIds: seq<string> := ["mom_side_01", "mom_side_02", "mom_side_03", "mom_side_04"]

  /** The rebuilt ids of the run are the literal's. */
  lemma MomSideIdsAsWritten()
    ensures RunIds(MomSides) == MomSideIds
  {
    SmallSerials();
    assert IdPrefix(MomSides) == "mom_side_";
    assert IdOf(MomSides, 0) == "mom_side_" + "01" == "mom_side_01";
    assert IdOf(MomSides, 1) == "mom_side_" + "02" == "mom_side_02";
    assert IdOf(MomSides, 2) == "mom_side_" + "03" == "mom_side_03";
    assert IdOf(MomSides, 3) == "mom_side_" + "04" == "mom_side_04";
  }

  /** The ids of Mom's Touch's drinks as the literal spells them, scripts/generate_seed_db.py:102-104. */
  const MomDrinkIds: seq<string> := ["mom_drink_01", "mom_drink_02", "mom_drink_03"]

  /** The rebuilt ids of the run are the literal's. */
  lemma MomDrinkIdsAsWritten()
    ensures RunIds(MomDrinks) == MomDrinkIds
  {
    SmallSerials();
    assert IdPrefix(MomDrinks) == "mom_drink_";
    assert IdOf(MomDrinks, 0) == "mom_drink_" + "01" == "mom_drink_01";
    assert IdOf(MomDrinks, 1) == "mom_drink_" + "02" == "mom_drink_02";
    assert IdOf(MomDrinks, 2) == "mom_drink_" + "03" == "mom_drink_03";
  }

  /** The ids of Lotteria's burgers as the literal spells them, scripts/generate_seed_db.py:110-116. */
  const LotBurgerIds: seq<string> := ["lot_burger_01", "lot_burger_02", "lot_burger_03", "lot_burger_04", "lot_burger_05", "lot_burger_06", "lot_burger_07"]

  /** The rebuilt ids of the run are the literal's. */
  lemma LotBurgerIdsAsWritten()
    ensures RunIds(LotBurgers) == LotBurgerIds
  {
    SmallSerials();
    assert IdPrefix(LotBurgers) == "lot_burger_";
    assert IdOf(LotBurgers, 0) == "lot_burger_" + "01" == "lot_burger_01";
    assert IdOf(LotBurgers, 1) == "lot_burger_" + "02" == "lot_burger_02";
    assert IdOf(LotBurgers, 2) == "lot_burger_" + "03" == "lot_burger_03";
    assert IdOf(LotBurgers, 3) == "lot_burger_" + "04" == "lot_burger_04";
    assert IdOf(LotBurgers, 4) == "lot_burger_" + "05" == "lot_burger_05";
    assert IdOf(LotBurgers, 5) == "lot_burger_" + "06" == "lot_burger_06";
    assert IdOf(LotBurgers, 6) == "lot_burger_" + "07" == "lot_burger_07";
  }

  /** The ids of Lotteria's sides as the literal spells them, scripts/generate_seed_db.py:118-121. */
  const LotSideIds: seq<string> := ["lot_side_01", "lot_side_02", "lot_side_03", "lot_side_04"]

  /** The rebuilt ids of the run are the literal's. */
  lemma LotSideIdsAsWritten()
    ensures RunIds(LotSides) == LotSideIds
  {
    SmallSerials();
    assert IdPrefix(LotSides) == "lot_side_";
    assert IdOf(LotSides, 0) == "lot_side_" + "01" == "lot_side_01";
    assert IdOf(LotSides, 1) == "lot_side_" + "02" == "lot_side_02";
    assert IdOf(LotSides, 2) == "lot_side_" + "03" == "lot_side_03";
    assert IdOf(LotSides, 3) == "lot_side_" + "04" == "lot_side_04";
  }

  /** The ids of Lotteria's drinks as the literal spells them, scripts/generate_seed_db.py:123-125. */
  const LotDrinkIds: seq<string> := ["lot_drink_01", "lot_drink_02", "lot_drink_03"]

  /** The rebuilt ids of the run are the literal's. */
  lemma LotDrinkIdsAsWritten()
    ensures RunIds(LotDrinks) == LotDrinkIds
  {
    SmallSerials();
    assert IdPrefix(LotDrinks) == "lot_drink_";
    assert IdOf(LotDrinks, 0) == "lot_drink_" + "01" == "lot_drink_01";
    assert IdOf(LotDrinks, 1) == "lot_drink_" + "02" == "lot_drink_02";
    assert IdOf(LotDrinks, 2) == "lot_drink_" + "03" == "lot_drink_03";
  }

  /** The ids of McDonald's tuples. */
  const McdIds: seq<string> := McdBurgerIds + McdSideIds + McdDrinkIds

  /** The rebuilt ids of McDonald's runs are the literal's. */
  lemma McdIdsAsWritten()
    ensures FlatIds(Mcd) == McdIds
  {
    FlatIdsTriple(Mcd);
    McdBurgerIdsAsWritten();
    McdSideIdsAsWritten();
    McdDrinkIdsAsWritten();
  }

  /** The ids of Burger King's tuples. */
  const BkIds: seq<string> := BkBurgerIds + BkSideIds + BkDrinkIds

  /** The rebuilt ids of Burger King's runs are the literal's. */
  lemma BkIdsAsWritten()
    ensures FlatIds(Bk) == BkIds
  {
    FlatIdsTriple(Bk);
    BkBurgerIdsAsWritten();
    BkSideIdsAsWritten();
    BkDrinkIdsAsWritten();
  }

  /** The ids of KFC's tuples. */
  const KfcIds: seq<string> := KfcBurgerIds + KfcSideIds + KfcDrinkIds

  /** The rebuilt ids of KFC's runs are the literal's. */
  lemma KfcIdsAsWritten()
    ensures FlatIds(Kfc) == KfcIds
  {
    FlatIdsTriple(Kfc);
    KfcBurgerIdsAsWritten();
    KfcSideIdsAsWritten();
    KfcDrinkIdsAsWritten();
  }

  /** The ids of Mom's Touch's tuples. */
  const MomIds: seq<string> := MomBurgerIds + MomSideIds + MomDrinkIds

  /** The rebuilt ids of Mom's Touch's runs are the literal's. */
  lemma MomIdsAsWritten()
    ensures FlatIds(Mom) == MomIds
  {
    FlatIdsTriple(Mom);
    MomBurgerIdsAsWritten();
    MomSideIdsAsWritten();
    MomDrinkIdsAsWritten();
  }

  /** The ids of Lotteria's tuples. */
  const LotIds: seq<string> := LotBurgerIds + LotSideIds + LotDrinkIds

  /** The rebuilt ids of Lotteria's runs are the literal's. */
  lemma LotIdsAsWritten()
    ensures FlatIds(Lot) == LotIds
  {
    FlatIdsTriple(Lot);
    LotBurgerIdsAsWritten();
    LotSideIdsAsWritten();
    LotDrinkIdsAsWritten();
  }

  /** The id column of `MENUS` as the literal spells it, scripts/generate_seed_db.py:28-125. */
  const MenuIds: seq<string> := McdIds + BkIds + KfcIds + MomIds + LotIds

  /** The runs of the literal carry MenuIds, in order. */
  lemma SectionIds()
    ensures FlatIds(Sections) == MenuIds
  {
    FlatIdsAppend(Mcd + Bk + Kfc + Mom, Lot);
    FlatIdsAppend(Mcd + Bk + Kfc, Mom);
    FlatIdsAppend(Mcd + Bk, Kfc);
    FlatIdsAppend(Mcd, Bk);
    McdIdsAsWritten();
    BkIdsAsWritten();
    KfcIdsAsWritten();
    MomIdsAsWritten();
    LotIdsAsWritten();
  }

  /** The tuples of `MENUS`, rebuilt from the runs, carry exactly the literal's 68 ids, in order. */
  lemma MenuIdsAsWritten()
    ensures |Menus| == |MenuIds| == 68
    ensures forall i :: 0 <= i < |Menus| ==> Menus[i].id == Some(MenuIds[i])
  {
    FlattenIds(Sections);
    SectionIds();
  }

  //// Where each tuple of a concatenation of runs comes from

  /** The tuple at `i` is the entry at `j` of run `k`, after the tuples of the runs before `k`. */
  lemma {:induction false} FlattenOrigin(ss: seq<Section>, i: nat) returns (k: nat, j: nat)
    requires i < |Flatten(ss)|
    ensures k < |ss| && j < |ss[k].entries|
    ensures Flatten(ss)[i] == ItemOf(ss[k], j)
    ensures i == |Flatten(ss[..k])| + j
  {
    assert Flatten(ss) == Items(ss[0]) + Flatten(ss[1..]);
    if i < |Items(ss[0])| {
      k, j := 0, i;
      assert ss[..0] == [];
    } else {
      var k', j' := FlattenOrigin(ss[1..], i - |Items(ss[0])|);
      k, j := k' + 1, j';
      assert ss[..k][1..] == ss[1..][..k'];
      assert Flatten(ss[..k]) == Items(ss[0]) + Flatten(ss[1..][..k']);
    }
  }

  /** No two runs share both franchise and type. */
  predicate RunsDistinct(ss: seq<Section>)
  {
    forall k, l :: 0 <= k < l < |ss| ==>
      ss[k].franchise != ss[l].franchise || ss[k].menuType != ss[l].menuType
  }

  /** Two different positions of distinct runs hold different ids. */
  lemma FlattenIdsDiffer(ss: seq<Section>, i: nat, i': nat)
    requires RunsDistinct(ss)
    requires i < i' < |Flatten(ss)|
    ensures Flatten(ss)[i].id != Flatten(ss)[i'].id
  {
    var k, j := FlattenOrigin(ss, i);
    var k', j' := FlattenOrigin(ss, i');
    IdDetermines(ss[k], j, ss[k'], j');
  }

  /** Runs with distinct (franchise, type) pairs give tuples with distinct ids, and so a loadable batch. */
  lemma FlattenLoadable(ss: seq<Section>)
    requires RunsDistinct(ss)
    ensures Loadable(Flatten(ss))
  {
    var rs := Flatten(ss);
    forall i, i' | 0 <= i < i' < |rs| && rs[i].id.Some? ensures rs[i].id != rs[i'].id {
      FlattenIdsDiffer(ss, i, i');
    }
  }

  //// The literal

  /** Every run of the list belongs to one of the franchises `fs`. */
  predicate FranchisesIn(ss: seq<Section>, fs: set<string>)
  {
    forall k :: 0 <= k < |ss| ==> ss[k].franchise in fs
  }

  /** Runs of disjoint sets of franchises, each without a repeated pair, stay so side by side. */
  lemma RunsDistinctAppend(a: seq<Section>, b: seq<Section>, fa: set<string>, fb: set<string>)
    requires RunsDistinct(a) && RunsDistinct(b)
    requires FranchisesIn(a, fa) && FranchisesIn(b, fb) && fa !! fb
    ensures RunsDistinct(a + b) && FranchisesIn(a + b, fa + fb)
  {
    var ab := a + b;
    forall k, l | 0 <= k < l < |ab|
      ensures ab[k].franchise != ab[l].franchise || ab[k].menuType != ab[l].menuType
    {
      if l < |a| {
        assert ab[k] == a[k] && ab[l] == a[l];
      } else if k >= |a| {
        assert ab[k] == b[k - |a|] && ab[l] == b[l - |a|];
      } else {
        assert ab[k] == a[k] && ab[l] == b[l - |a|];
      }
    }
  }

  /** Three runs of one franchise with three different types. */
  lemma TripleDistinct(ss: seq<Section>, f: string)
    requires |ss| == 3 && ss[0].franchise == f && ss[1].franchise == f && ss[2].franchise == f
    requires ss[0].menuType != ss[1].menuType && ss[0].menuType != ss[2].menuType
    requires ss[1].menuType != ss[2].menuType
    ensures RunsDistinct(ss) && FranchisesIn(ss, {f})
  {
  }

  /** No two runs of the literal share franchise and type. */
  lemma SectionsDistinct()
    ensures RunsDistinct(Sections)
  {
    TripleDistinct(Mcd, "mcd");
    TripleDistinct(Bk, "bk");
    TripleDistinct(Kfc, "kfc");
    TripleDistinct(Mom, "mom");
    TripleDistinct(Lot, "lot");
    RunsDistinctAppend(Mcd, Bk, {"mcd"}, {"bk"});
    RunsDistinctAppend(Mcd + Bk, Kfc, {"mcd", "bk"}, {"kfc"});
    RunsDistinctAppend(Mcd + Bk + Kfc, Mom, {"mcd", "bk", "kfc"}, {"mom"});
    RunsDistinctAppend(Mcd + Bk + Kfc + Mom, Lot, {"mcd", "bk", "kfc", "mom"}, {"lot"});
  }

  /** `MENUS` loads into a fresh `menus` table without a constraint violation. */
  lemma MenusLoadable()
    ensures Loadable(Menus)
    ensures Generate(Menus) == Success(Rows(Menus))
  {
    SectionsDistinct();
    FlattenLoadable(Sections);
  }

  //// Counting the rows of runs

  /** The value a run holds in the grouping column. */
  function RunKey(g: Grouping, s: Section): string
  {
    match g
    case ByFranchise => s.franchise
    case ByType => s.menuType
  }

  /** The entries a run contributes to the count of `k`: all of them or none. */
  function RunPart(g: Grouping, s: Section, k: string): nat
  {
    if RunKey(g, s) == k then |s.entries| else 0
  }

  /** The number of entries, over all runs, whose run has key `k`. */
  function RunCount(ss: seq<Section>, g: Grouping, k: string): nat
  {
    if |ss| == 0 then 0 else RunPart(g, ss[0], k) + RunCount(ss[1..], g, k)
  }

  /** Counting over two lists of runs one after the other adds up. */
  lemma {:induction false} RunCountAppend(a: seq<Section>, b: seq<Section>, g: Grouping, k: string)
    ensures RunCount(a + b, g, k) == RunCount(a, g, k) + RunCount(b, g, k)
  {
    if |a| == 0 {
      assert a + b == b;
    } else {
      assert (a + b)[1..] == a[1..] + b;
      RunCountAppend(a[1..], b, g, k);
    }
  }

  /** The count over a franchise's three runs, run by run. */
  lemma RunCountTriple(ss: seq<Section>, g: Grouping, k: string)
    requires |ss| == 3
    ensures RunCount(ss, g, k) == RunPart(g, ss[0], k) + RunPart(g, ss[1], k) + RunPart(g, ss[2], k)
  {
    var rest := ss[1..];
    assert rest[0] == ss[1] && rest[1..][0] == ss[2] && rest[1..][1..] == [];
    assert RunCount(rest[1..], g, k) == RunPart(g, ss[2], k);
    assert RunCount(rest, g, k) == RunPart(g, ss[1], k) + RunPart(g, ss[2], k);
  }

  /** Counting over two tables one after the other adds up. */
  lemma {:induction false} CountAppend(a: Table, b: Table, g: Grouping, k: string)
    ensures Count(a + b, g, k) == Count(a, g, k) + Count(b, g, k)
    decreases |b|
  {
    if |b| == 0 {
      assert a + b == a;
    } else {
      var front := b[..|b| - 1];
      assert (a + b)[..|a + b| - 1] == a + front;
      assert (a + b)[|a + b| - 1] == b[|b| - 1];
      CountAppend(a, front, g, k);
    }
  }

  /** In a table whose rows all hold `c`, `c` is counted for every row and any other key for none. */
  lemma {:induction false} UniformCount(t: Table, g: Grouping, c: string, k: string)
    requires forall i :: 0 <= i < |t| ==> Key(g, t[i]) == c
    ensures Count(t, g, k) == if c == k then |t| else 0
    decreases |t|
  {
    if |t| > 0 {
      UniformCount(t[..|t| - 1], g, c, k);
    }
  }

  /** Loading two batches one after the other gives the rows of each, in order. */
  lemma RowsAppend(a: seq<Record>, b: seq<Record>)
    requires forall i :: 0 <= i < |a| ==> HasRequired(a[i])
    requires forall i :: 0 <= i < |b| ==> HasRequired(b[i])
    ensures Rows(a + b) == Rows(a) + Rows(b)
  {
  }

  /** Counting the rows of runs is counting their entries run by run. */
  lemma {:induction false} CountFlatten(ss: seq<Section>, g: Grouping, k: string)
    ensures Count(Rows(Flatten(ss)), g, k) == RunCount(ss, g, k)
  {
    if |ss| == 0 {
      assert Rows(Flatten(ss)) == [];
    } else {
      var head := Items(ss[0]);
      var rest := Flatten(ss[1..]);
      assert Flatten(ss) == head + rest;
      RowsAppend(head, rest);
      CountAppend(Rows(head), Rows(rest), g, k);
      UniformCount(Rows(head), g, RunKey(g, ss[0]), k);
      CountFlatten(ss[1..], g, k);
    }
  }

  //// The summary of the literal

  /** The entries of one franchise's runs by franchise and by type: burgers, sides, drinks. */
  predicate Tallies(fs: seq<Section>, code: string, burgers: nat, sides: nat, drinks: nat, k: string)
  {
    && RunCount(fs, ByFranchise, k) == (if k == code then burgers + sides + drinks else 0)
    && RunCount(fs, ByType, k) ==
         (if k == "burger" then burgers else 0) + (if k == "side" then sides else 0)
         + (if k == "drink" then drinks else 0)
  }

  /** The runs of each franchise: burgers, sides and drinks as the literal lists them. */
  lemma McdTallies(k: string)
    ensures Tallies(Mcd, "mcd", 7, 4, 3, k)
  {
    RunCountTriple(Mcd, ByFranchise, k);
    RunCountTriple(Mcd, ByType, k);
  }
  lemma BkTallies(k: string)
    ensures Tallies(Bk, "bk", 7, 4, 3, k)
  {
    RunCountTriple(Bk, ByFranchise, k);
    RunCountTriple(Bk, ByType, k);
  }
  lemma KfcTallies(k: string)
    ensures Tallies(Kfc, "kfc", 5, 5, 3, k)
  {
    RunCountTriple(Kfc, ByFranchise, k);
    RunCountTriple(Kfc, ByType, k);
  }
  lemma MomTallies(k: string)
    ensures Tallies(Mom, "mom", 6, 4, 3, k)
  {
    RunCountTriple(Mom, ByFranchise, k);
    RunCountTriple(Mom, ByType, k);
  }
  lemma LotTallies(k: string)
    ensures Tallies(Lot, "lot", 7, 4, 3, k)
  {
    RunCountTriple(Lot, ByFranchise, k);
    RunCountTriple(Lot, ByType, k);
  }

  /** Row counts of the loaded literal for every key, by franchise and by type. */
  lemma MenusCounts(k: string)
    ensures Count(Rows(Menus), ByFranchise, k) ==
              (if k == "mcd" then 14 else 0) + (if k == "bk" then 14 else 0) + (if k == "kfc" then 13 else 0)
              + (if k == "mom" then 13 else 0) + (if k == "lot" then 14 else 0)
    ensures Count(Rows(Menus), ByType, k) ==
              (if k == "burger" then 32 else 0) + (if k == "side" then 21 else 0) + (if k == "drink" then 15 else 0)
  {
    forall g: Grouping
      ensures RunCount(Sections, g, k) ==
                RunCount(Mcd, g, k) + RunCount(Bk, g, k) + RunCount(Kfc, g, k)
                + RunCount(Mom, g, k) + RunCount(Lot, g, k)
    {
      RunCountAppend(Mcd + Bk + Kfc + Mom, Lot, g, k);
      RunCountAppend(Mcd + Bk + Kfc, Mom, g, k);
      RunCountAppend(Mcd + Bk, Kfc, g, k);
      RunCountAppend(Mcd, Bk, g, k);
    }
    CountFlatten(Sections, ByFranchise, k);
    CountFlatten(Sections, ByType, k);
    McdTallies(k);
    BkTallies(k);
    KfcTallies(k);
    MomTallies(k);
    LotTallies(k);
  }

  /** What the run prints by franchise for `MENUS`, in ORDER BY franchise. */
  const FranchiseSummary: seq<Group> :=
    [Group("bk", 14), Group("kfc", 13), Group("lot", 14), Group("mcd", 14), Group("mom", 13)]

  /** What the run prints by type for `MENUS`, in ORDER BY type. */
  const TypeSummary: seq<Group> := [Group("burger", 32), Group("drink", 15), Group("side", 21)]

  /** The count FranchiseSummary reports for each key. */
  lemma FranchiseSummaryAt(k: string)
    ensures CountIn(FranchiseSummary, k) ==
              (if k == "mcd" then 14 else 0) + (if k == "bk" then 14 else 0) + (if k == "kfc" then 13 else 0)
              + (if k == "mom" then 13 else 0) + (if k == "lot" then 14 else 0)
  {
    if k !in {"bk", "kfc", "lot", "mcd", "mom"} {
      CountInAbsent(FranchiseSummary, k);
    }
  }

  /** The count TypeSummary reports for each key. */
  lemma TypeSummaryAt(k: string)
    ensures CountIn(TypeSummary, k) ==
              (if k == "burger" then 32 else 0) + (if k == "side" then 21 else 0) + (if k == "drink" then 15 else 0)
  {
    if k !in {"burger", "drink", "side"} {
      CountInAbsent(TypeSummary, k);
    }
  }

  /** A list whose neighbouring keys are in order is ascending. */
  lemma {:induction false} AscendingFromNeighbours(gs: seq<Group>)
    requires forall i :: 0 < i < |gs| ==> Below(gs[i - 1].key, gs[i].key)
    ensures Ascending(gs)
  {
    if |gs| > 1 {
      var rest := gs[1..];
      assert forall i :: 0 < i < |rest| ==> rest[i - 1] == gs[i] && rest[i] == gs[i + 1];
      AscendingFromNeighbours(rest);
      forall j | 0 < j < |gs| ensures Below(gs[0].key, gs[j].key) {
        if j > 1 {
          assert Below(gs[1].key, gs[j].key) by {
            assert rest[0] == gs[1] && rest[j - 1] == gs[j];
          }
          BelowTransitive(gs[0].key, gs[1].key, gs[j].key);
        }
      }
      forall i, j | 0 <= i < j < |gs| ensures Below(gs[i].key, gs[j].key) {
        if i > 0 {
          assert rest[i - 1] == gs[i] && rest[j - 1] == gs[j];
        }
      }
    }
  }

  /** FranchiseSummary is in ORDER BY franchise, has no empty group and covers 68 rows. */
  lemma FranchiseSummaryOrdered()
    ensures Ascending(FranchiseSummary) && Positive(FranchiseSummary) && Sum(FranchiseSummary) == 68
  {
    assert Below("bk", "kfc") && Below("kfc", "lot") && Below("lot", "mcd") && Below("mcd", "mom");
    AscendingFromNeighbours(FranchiseSummary);
  }

  /** TypeSummary is in ORDER BY type and has no empty group. */
  lemma TypeSummaryOrdered()
    ensures Ascending(TypeSummary) && Positive(TypeSummary)
  {
    assert Below("burger", "drink") && Below("drink", "side");
    AscendingFromNeighbours(TypeSummary);
  }

  /** The loaded literal has, for every key, the count FranchiseSummary reports. */
  lemma FranchiseCountsMatch(k: string)
    ensures Count(Rows(Menus), ByFranchise, k) == CountIn(FranchiseSummary, k)
  {
    MenusCounts(k);
    FranchiseSummaryAt(k);
  }

  /** The loaded literal has, for every key, the count TypeSummary reports. */
  lemma TypeCountsMatch(k: string)
    ensures Count(Rows(Menus), ByType, k) == CountIn(TypeSummary, k)
  {
    MenusCounts(k);
    TypeSummaryAt(k);
  }

  /** GROUP BY franchise over the loaded literal yields FranchiseSummary. */
  lemma FranchiseGroups()
    ensures GroupCount(Rows(Menus), ByFranchise) == FranchiseSummary
  {
    var gs := GroupCount(Rows(Menus), ByFranchise);
    forall k ensures CountIn(gs, k) == CountIn(FranchiseSummary, k) {
      FranchiseCountsMatch(k);
    }
    FranchiseSummaryOrdered();
    GroupsDetermined(gs, FranchiseSummary);
  }

  /** GROUP BY type over the loaded literal yields TypeSummary. */
  lemma TypeGroups()
    ensures GroupCount(Rows(Menus), ByType) == TypeSummary
  {
    var gs := GroupCount(Rows(Menus), ByType);
    forall k ensures CountIn(gs, k) == CountIn(TypeSummary, k) {
      TypeCountsMatch(k);
    }
    TypeSummaryOrdered();
    GroupsDetermined(gs, TypeSummary);
  }

  /** The report of a batch that loads into `t` is made of `t`'s size and groupings. */
  lemma ReportOf(rs: seq<Record>, t: Table)
    requires Generate(rs) == Success(t)
    ensures GenerateReport(rs) == Success(Report(|t|, GroupCount(t, ByFranchise), GroupCount(t, ByType)))
  {
  }

  /**
   Generating from `MENUS` succeeds, and the summary reports 68 rows,
   grouped as FranchiseSummary and TypeSummary.
   */
  lemma MenusReport()
    ensures GenerateReport(Menus) == Success(Report(68, FranchiseSummary, TypeSummary))
  {
    var t := Rows(Menus);
    MenusLoadable();
    ReportOf(Menus, t);
    FranchiseGroups();
    TypeGroups();
    FranchiseSummaryOrdered();
    assert |t| == 68;
  }
}
