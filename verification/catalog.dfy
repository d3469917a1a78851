/**
 The catalog literal `MENUS`: 68 parameter tuples for five franchises, laid
 out as fifteen runs, one per franchise and menu type, in the source's order.
 Every tuple binds `imageUrl` to None and every other column to a value, and
 its id is "<franchise>_<type>_<nn>": the run's franchise and type, then the
 entry's 1-based position in its run written with (at least) two digits. So a
 run is written as its franchise, its type and, per entry, the name, price,
 calories and tags; `Menus` rebuilds the tuples in order.

 The field types state what each value of the literal satisfies, and Dafny
 checks every value of the literal against them: franchise and type contain
 no '_', the type is one the CHECK admits, and prices and calories fit an
 SQLite INTEGER.
 */
module Catalog {
  import opened Wrappers
  import opened Schema

  /** A Python int that binds to an SQLite INTEGER. */
  type Int64 = x: int | MinInteger <= x <= MaxInteger

  /** A franchise code: no '_', so it can be read back off an id. */
  type Code = s: string | '_' !in s

  /** A menu type the CHECK admits; no '_' either. */
  type Kind = s: string | '_' !in s && s in MenuTypes witness "set"

  /** One entry of a run: the columns that vary within it. */
  datatype Entry = Entry(name: string, price: Int64, calories: Int64, tags: string)

  /** A run of consecutive entries of the literal sharing one franchise and one type. */
  datatype Section = Section(franchise: Code, menuType: Kind, entries: seq<Entry>)

  /** "<franchise>_<type>_", the start of every id in the run. */
  function IdPrefix(s: Section): string
  {
    s.franchise + "_" + s.menuType + "_"
  }

  /** The decimal digit for `n`. */
  function Digit(n: nat): char
    requires n < 10
  {
    "0123456789"[n]
  }

  /** `n` in decimal, without leading zeros. */
  function Decimal(n: nat): string
  {
    if n < 10 then [Digit(n)] else Decimal(n / 10) + [Digit(n % 10)]
  }

  /** `n` in decimal, padded to two digits: "01", ..., "09", "10", ... */
  function Serial(n: nat): string
  {
    if n < 10 then "0" + Decimal(n) else Decimal(n)
  }

  /** The id of the entry at `i` of the run. */
  function IdOf(s: Section, i: nat): string
  {
    IdPrefix(s) + Serial(i + 1)
  }

  //// Ids read back into franchise, type and position

  /** A '_'-free string before a '_' is recovered from the joined string, and so is what follows. */
  lemma SplitAtUnderscore(a: string, b: string, x: string, y: string)
    requires '_' !in a && '_' !in b
    requires a + "_" + x == b + "_" + y
    ensures a == b && x == y
  {
    var w := a + "_" + x;
    assert w[|a|] == '_' && w[|b|] == '_';
    assert forall i :: 0 <= i < |a| ==> w[i] == a[i];
    assert forall i :: 0 <= i < |b| ==> w[i] == b[i];
    if |a| != |b| {
      assert false;
    }
    assert a == w[..|a|] == b;
    assert x == w[|a| + 1..] == y;
  }

  /** The decimal form of a number has one digit below 10, at least two from 10 on, and no leading zero from 1 on. */
  lemma {:induction false} DecimalShape(n: nat)
    ensures |Decimal(n)| >= 1
    ensures n < 10 <==> |Decimal(n)| == 1
    ensures n >= 1 ==> Decimal(n)[0] != '0'
  {
    if n >= 10 {
      DecimalShape(n / 10);
      assert Decimal(n)[0] == Decimal(n / 10)[0];
    }
  }

  /** Different numbers have different decimal forms. */
  lemma {:induction false} DecimalInjective(n: nat, m: nat)
    ensures Decimal(n) == Decimal(m) ==> n == m
  {
    if Decimal(n) == Decimal(m) {
      DecimalShape(n);
      DecimalShape(m);
      if n >= 10 && m >= 10 {
        var dn, dm := Decimal(n), Decimal(m);
        assert dn[..|dn| - 1] == Decimal(n / 10) && dm[..|dm| - 1] == Decimal(m / 10);
        assert Digit(n % 10) == dn[|dn| - 1] == dm[|dm| - 1] == Digit(m % 10);
        DecimalInjective(n / 10, m / 10);
      }
    }
  }

  /** Different positions get different serials. */
  lemma SerialInjective(n: nat, m: nat)
    ensures Serial(n) == Serial(m) ==> n == m
  {
    DecimalShape(n);
    DecimalShape(m);
    DecimalInjective(n, m);
    if n < 10 && m < 10 && Serial(n) == Serial(m) {
      assert Decimal(n) == Serial(n)[1..] == Serial(m)[1..] == Decimal(m);
    }
  }

  /** An id is the franchise, a '_', and the rest. */
  lemma IdShape(s: Section, i: nat)
    ensures IdOf(s, i) == s.franchise + "_" + (s.menuType + "_" + Serial(i + 1))
  {
  }

  /** Two ids of the literal's shape are equal only for the same franchise, type and position. */
  lemma IdDetermines(s: Section, i: nat, s': Section, i': nat)
    ensures IdOf(s, i) == IdOf(s', i') ==>
              s.franchise == s'.franchise && s.menuType == s'.menuType && i == i'
  {
    if IdOf(s, i) == IdOf(s', i') {
      IdShape(s, i);
      IdShape(s', i');
      SplitAtUnderscore(s.franchise, s'.franchise,
                        s.menuType + "_" + Serial(i + 1), s'.menuType + "_" + Serial(i' + 1));
      SplitAtUnderscore(s.menuType, s'.menuType, Serial(i + 1), Serial(i' + 1));
      SerialInjective(i + 1, i' + 1);
    }
  }

  //// The tuples of runs

  /**
   The tuple the entry at `i` of the run stands for: it satisfies every
   per-row constraint of the DDL, and its id starts with the run's prefix.
   */
  function ItemOf(s: Section, i: nat): (r: Record)
    requires i < |s.entries|
    ensures Conforms(r)
    ensures r.id.Some? && IdPrefix(s) <= r.id.value
  {
    var e := s.entries[i];
    Record(Some(IdOf(s, i)), Some(s.franchise), Some(e.name), Some(s.menuType),
           Some(e.price), Some(e.calories), None, Some(e.tags))
  }

  /**
   The tuples of one run, in order: one per entry, all conforming, all of the
   run's franchise and type, and no two with the same id.
   */
  function Items(s: Section): (rs: seq<Record>)
    ensures |rs| == |s.entries|
    ensures forall i :: 0 <= i < |rs| ==> rs[i] == ItemOf(s, i)
    ensures forall i :: 0 <= i < |rs| ==>
              Conforms(rs[i]) && rs[i].franchise == Some(s.franchise) && rs[i].menuType == Some(s.menuType)
    ensures forall i, j :: 0 <= i < j < |rs| ==> rs[i].id != rs[j].id
  {
    var rs := seq(|s.entries|, i requires 0 <= i < |s.entries| => ItemOf(s, i));
    assert forall i, j :: 0 <= i < j < |rs| ==> rs[i].id != rs[j].id by {
      forall i, j | 0 <= i < j < |rs| ensures rs[i].id != rs[j].id {
        IdDetermines(s, i, s, j);
      }
    }
    rs
  }

  /** The tuples of consecutive runs, in order: as many as the runs have entries, all conforming. */
  function Flatten(ss: seq<Section>): (rs: seq<Record>)
    ensures |rs| == EntryCount(ss)
    ensures forall i :: 0 <= i < |rs| ==> Conforms(rs[i])
  {
    if |ss| == 0 then [] else Items(ss[0]) + Flatten(ss[1..])
  }

  /** The number of entries over all runs. */
  function EntryCount(ss: seq<Section>): nat
  {
    if |ss| == 0 then 0 else |ss[0].entries| + EntryCount(ss[1..])
  }

  /** McDonald's burgers, scripts/generate_seed_db.py:28-34. */
  const McdBurgers: Section := Section("mcd", "burger", [
    Entry("빅맥", 6500, 550, "인기,시그니처"),
    Entry("맥스파이시 상하이 버거", 7300, 530, "매운,인기"),
    Entry("1955 버거", 7500, 620, "프리미엄"),
    Entry("쿼터파운더 치즈", 7000, 520, "시그니처"),
    Entry("맥치킨", 3500, 400, "가성비"),
    Entry("더블 쿼터파운더 치즈", 8500, 740, "프리미엄"),
    Entry("치즈버거", 3000, 300, "가성비")
  ])

  /** McDonald's sides, scripts/generate_seed_db.py:36-39. */
  const McdSides: Section := Section("mcd", "side", [
    Entry("프렌치 프라이 (M)", 2800, 340, "인기"),
    Entry("맥너겟 6조각", 3500, 270, "인기"),
    Entry("치즈스틱 3조각", 3000, 280, ""),
    Entry("프렌치 프라이 (L)", 3300, 490, "")
  ])

  /** McDonald's drinks, scripts/generate_seed_db.py:41-43. */
  const McdDrinks: Section := Section("mcd", "drink", [
    Entry("코카콜라 (M)", 2200, 150, ""),
    Entry("아메리카노", 2500, 10, ""),
    Entry("바닐라 쉐이크 (M)", 3300, 530, "")
  ])

  /** Burger King burgers, scripts/generate_seed_db.py:49-55. */
  const BkBurgers: Section := Section("bk", "burger", [
    Entry("와퍼", 8200, 660, "시그니처,인기"),
    Entry("와퍼 주니어", 5200, 370, "가성비"),
    Entry("콰트로 치즈 와퍼", 9500, 730, "프리미엄"),
    Entry("통새우 와퍼", 8800, 580, "인기"),
    Entry("치킨버거", 5000, 420, "가성비"),
    Entry("불고기 와퍼", 7500, 580, ""),
    Entry("몬스터 와퍼", 10900, 870, "프리미엄")
  ])

  /** Burger King sides, scripts/generate_seed_db.py:57-60. */
  const BkSides: Section := Section("bk", "side", [
    Entry("어니언링", 2800, 320, "인기"),
    Entry("프렌치프라이 (M)", 2800, 340, ""),
    Entry("너겟킹 5조각", 3200, 260, ""),
    Entry("치즈프라이", 3500, 410, "")
  ])

  /** Burger King drinks, scripts/generate_seed_db.py:62-64. */
  const BkDrinks: Section := Section("bk", "drink", [
    Entry("코카콜라 (M)", 2200, 150, ""),
    Entry("아메리카노", 2500, 10, ""),
    Entry("쉐이크 (M)", 3500, 540, "")
  ])

  /** KFC burgers, scripts/generate_seed_db.py:70-74. */
  const KfcBurgers: Section := Section("kfc", "burger", [
    Entry("징거버거", 6900, 480, "시그니처,인기"),
    Entry("타워버거", 7500, 560, "인기"),
    Entry("치킨필렛버거", 5500, 420, "가성비"),
    Entry("불고기버거", 5000, 390, "가성비"),
    Entry("더블다운맥스", 8900, 650, "프리미엄")
  ])

  /** KFC sides, scripts/generate_seed_db.py:76-80. */
  const KfcSides: Section := Section("kfc", "side", [
    Entry("핫크리스피치킨 1조각", 3200, 290, "시그니처,인기"),
    Entry("핫크리스피치킨 2조각", 5800, 580, "시그니처"),
    Entry("코울슬로", 2000, 180, ""),
    Entry("비스켓", 1800, 240, ""),
    Entry("프렌치프라이 (M)", 2500, 340, "")
  ])

  /** KFC drinks, scripts/generate_seed_db.py:82-84. */
  const KfcDrinks: Section := Section("kfc", "drink", [
    Entry("코카콜라 (M)", 2100, 150, ""),
    Entry("아메리카노", 2500, 10, ""),
    Entry("커널스위트콘샐러드", 2000, 100, "")
  ])

  /** Mom's Touch burgers, scripts/generate_seed_db.py:90-95. */
  const MomBurgers: Section := Section("mom", "burger", [
    Entry("싸이버거", 4900, 480, "시그니처,인기,가성비"),
    Entry("불싸이버거", 5500, 520, "매운,인기"),
    Entry("인크레더블버거", 6900, 590, "프리미엄"),
    Entry("치즈불싸이버거", 6200, 560, "매운"),
    Entry("흑미새우버거", 5200, 420, ""),
    Entry("딥치즈버거", 5800, 510, "")
  ])

  /** Mom's Touch sides, scripts/generate_seed_db.py:97-100. */
  const MomSides: Section := Section("mom", "side", [
    Entry("후라이드치킨 1조각", 2000, 280, "가성비"),
    Entry("양념치킨 1조각", 2200, 300, ""),
    Entry("감자튀김 (M)", 2500, 340, ""),
    Entry("치즈스틱 3조각", 2800, 260, "")
  ])

  /** Mom's Touch drinks, scripts/generate_seed_db.py:102-104. */
  const MomDrinks: Section := Section("mom", "drink", [
    Entry("코카콜라 (M)", 1800, 150, ""),
    Entry("아메리카노", 2000, 10, ""),
    Entry("레모네이드", 2500, 120, "")
  ])

  /** Lotteria burgers, scripts/generate_seed_db.py:110-116. */
  const LotBurgers: Section := Section("lot", "burger", [
    Entry("불고기버거", 4500, 400, "시그니처,인기,가성비"),
    Entry("AZ버거", 6200, 520, "인기"),
    Entry("한우불고기버거", 6900, 530, "프리미엄"),
    Entry("새우버거", 5500, 410, ""),
    Entry("모짜렐라인더버거", 7200, 580, "프리미엄"),
    Entry("리아 불고기", 5000, 420, "가성비"),
    Entry("데리버거", 3800, 380, "가성비")
  ])

  /** Lotteria sides, scripts/generate_seed_db.py:118-121. */
  const LotSides: Section := Section("lot", "side", [
    Entry("양념감자", 2500, 300, "인기"),
    Entry("어니언링", 2800, 310, ""),
    Entry("치즈스틱", 3000, 270, ""),
    Entry("프렌치프라이 (M)", 2500, 330, "")
  ])

  /** Lotteria drinks, scripts/generate_seed_db.py:123-125. */
  const LotDrinks: Section := Section("lot", "drink", [
    Entry("코카콜라 (M)", 2000, 150, ""),
    Entry("아메리카노", 2300, 10, ""),
    Entry("밀크쉐이크", 3300, 480, "")
  ])

  /** The runs of each franchise, scripts/generate_seed_db.py:24-44, 45-65, 66-85, 86-105, 106-125. */
  const Mcd: seq<Section> := [McdBurgers, McdSides, McdDrinks]
  const Bk: seq<Section> := [BkBurgers, BkSides, BkDrinks]
  const Kfc: seq<Section> := [KfcBurgers, KfcSides, KfcDrinks]
  const Mom: seq<Section> := [MomBurgers, MomSides, MomDrinks]
  const Lot: seq<Section> := [LotBurgers, LotSides, LotDrinks]

  /** The runs of the literal, in source order. */
  const Sections: seq<Section> := Mcd + Bk + Kfc + Mom + Lot

  /** `MENUS`, scripts/generate_seed_db.py:23-126. */
  const Menus: seq<Record> := Flatten(Sections)
}
