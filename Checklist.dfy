/**
 * The static reference data of the inspection form: the 23-item checklist
 * (12 installation items, then 11 check items) and the 4-entry product catalog.
 */
module Checklist {

  /** The two checklist categories, `'설치'` and `'Check'` in the source. */
  datatype Category = Install | Check

  datatype ChecklistItem = ChecklistItem(id: string, caption: string, category: Category)

  /** One selectable product: the stored name and the label shown in the picker. */
  datatype CatalogEntry = CatalogEntry(name: string, caption: string)

  const Items: seq<ChecklistItem> := [
    ChecklistItem("burner_nozzle", "버너 노즐 상태 확인", Install),
    ChecklistItem("ignition_electrode", "점화 전극 상태 확인", Install),
    ChecklistItem("flame_sensor", "화염 감지기 상태 확인", Install),
    ChecklistItem("gas_valve", "가스 밸브 작동 확인", Install),
    ChecklistItem("air_damper", "공기 댐퍼 조절 확인", Install),
    ChecklistItem("heat_exchanger", "열교환기 청소 상태 확인", Install),
    ChecklistItem("exhaust_pipe", "배기관 연결 상태 확인", Install),
    ChecklistItem("insulation", "보온재 설치 상태 확인", Install),
    ChecklistItem("drain_valve", "드레인 밸브 작동 확인", Install),
    ChecklistItem("pressure_gauge", "압력계 정상 작동 확인", Install),
    ChecklistItem("temperature_gauge", "온도계 정상 작동 확인", Install),
    ChecklistItem("safety_valve", "안전밸브 작동 확인", Install),
    ChecklistItem("water_level", "수위 조절 장치 확인", Check),
    ChecklistItem("circulation_pump", "순환펌프 작동 확인", Check),
    ChecklistItem("expansion_tank", "팽창탱크 상태 확인", Check),
    ChecklistItem("direct_return_filter", "직수환수급기필터 상태 확인", Check),
    ChecklistItem("blower", "송풍기 작동 상태 확인", Check),
    ChecklistItem("dual_venturi", "듀얼벤츄리 작동 확인", Check),
    ChecklistItem("pump", "펌프 작동 상태 확인", Check),
    ChecklistItem("mixing_valve", "믹싱밸브 작동 확인", Check),
    ChecklistItem("three_way_valve", "삼방밸브 작동 확인", Check),
    ChecklistItem("control_panel", "제어반 작동 확인", Check),
    ChecklistItem("overall_system", "전체 시스템 통합 작동 확인", Check)
  ]

  const Catalog: seq<CatalogEntry> := [
    CatalogEntry("NPW-351K", "NPW-351K (온수보일러)"),
    CatalogEntry("NCN-45HD", "NCN-45HD (콘덴싱보일러)"),
    CatalogEntry("NCB790", "NCB790 (콘덴싱보일러)"),
    CatalogEntry("NFB-500", "NFB-500 (온수보일러)")
  ]

  /** `items.filter(item => item.category === c)`, order kept. */
  function ItemsIn(items: seq<ChecklistItem>, c: Category): (r: seq<ChecklistItem>)
    ensures |r| <= |items|
    ensures forall i :: 0 <= i < |r| ==> r[i].category == c && r[i] in items
  {
    if |items| == 0 then []
    else (if items[0].category == c then [items[0]] else []) + ItemsIn(items[1..], c)
  }

  /** The filter keeps every item of the category, and only those: membership in both directions. */
  lemma {:induction false} ItemsInMembership(items: seq<ChecklistItem>, c: Category, x: ChecklistItem)
    ensures x in ItemsIn(items, c) <==> x in items && x.category == c
  {
    if |items| > 0 {
      ItemsInMembership(items[1..], c, x);
      assert items == [items[0]] + items[1..];
    }
  }

  /** Filtering a list whose first k items are of category c and the rest are not keeps exactly those k. */
  lemma {:induction false} ItemsInSplit(items: seq<ChecklistItem>, k: nat, c: Category)
    requires k <= |items|
    requires forall i :: 0 <= i < k ==> items[i].category == c
    requires forall i :: k <= i < |items| ==> items[i].category != c
    ensures ItemsIn(items, c) == items[..k]
  {
    if |items| > 0 {
      ItemsInSplit(items[1..], if k == 0 then 0 else k - 1, c);
      if k > 0 {
        assert items[..k] == [items[0]] + items[1..][..k - 1];
      }
    }
  }

  /** The checklist has 23 items: the first 12 are installation items, the last 11 check items. */
  lemma ChecklistCategories()
    ensures |Items| == 23
    ensures forall i :: 0 <= i < 12 ==> Items[i].category == Install
    ensures forall i :: 12 <= i < |Items| ==> Items[i].category == Check
  {
  }

  /** The installation section lists the first 12 items, in definition order. */
  lemma InstallItemsAreFirst()
    ensures ItemsIn(Items, Install) == Items[..12]
    ensures |ItemsIn(Items, Install)| == 12
  {
    ChecklistCategories();
    ItemsInSplit(Items, 12, Install);
  }

  /** The check section lists the last 11 items, in definition order. */
  lemma CheckItemsAreLast()
    ensures ItemsIn(Items, Check) == Items[12..]
    ensures |ItemsIn(Items, Check)| == 11
  {
    ChecklistCategories();
    ItemsInSplitTail(Items, 12, Check);
  }

  /** When the items of category c all sit at index k or later, filtering gives items[k..]. */
  lemma {:induction false} ItemsInSplitTail(items: seq<ChecklistItem>, k: nat, c: Category)
    requires k <= |items|
    requires forall i :: 0 <= i < k ==> items[i].category != c
    requires forall i :: k <= i < |items| ==> items[i].category == c
    ensures ItemsIn(items, c) == items[k..]
  {
    if |items| > 0 {
      if k == 0 {
        ItemsInSplitTail(items[1..], 0, c);
        assert items[1..][0..] == items[1..];
        assert items[0..] == [items[0]] + items[1..];
      } else {
        ItemsInSplitTail(items[1..], k - 1, c);
        assert items[k..] == items[1..][k - 1..];
      }
    }
  }

  /** The item ids, the keys of the answer map. */
  function ItemIds(): set<string>
  {
    set i | 0 <= i < |Items| :: Items[i].id
  }

  predicate DistinctIds(items: seq<ChecklistItem>)
  {
    forall i, j :: 0 <= i < j < |items| ==> items[i].id != items[j].id
  }

  /**
   * A left inverse of the id column: it maps the id of item i back to i, looking only
   * at the id's length and first letter. Its existence is what shows the ids distinct.
   */
  function PositionByKey(id: string): int
  {
    if |id| == 0 then -1
    else match (|id|, id[0])
      case (13, 'b') => 0  case (18, 'i') => 1  case (12, 'f') => 2  case (9, 'g') => 3
      case (10, 'a') => 4  case (14, 'h') => 5  case (12, 'e') => 6  case (10, 'i') => 7
      case (11, 'd') => 8  case (14, 'p') => 9  case (17, 't') => 10 case (12, 's') => 11
      case (11, 'w') => 12 case (16, 'c') => 13 case (14, 'e') => 14 case (20, 'd') => 15
      case (6, 'b') => 16  case (12, 'd') => 17 case (4, 'p') => 18  case (12, 'm') => 19
      case (15, 't') => 20 case (13, 'c') => 21 case (14, 'o') => 22
      case _ => -1
  }

  /** Items whose ids have a left inverse into their positions have distinct ids. */
  lemma KeyedIdsDistinct(items: seq<ChecklistItem>, key: string -> int)
    requires forall i :: 0 <= i < |items| ==> key(items[i].id) == i
    ensures DistinctIds(items)
  {
  }

  /** No two checklist items share an id. */
  lemma ChecklistIdsDistinct()
    ensures DistinctIds(Items)
  {
    forall i | 0 <= i < |Items| ensures PositionByKey(Items[i].id) == i {
      KeyedAt(i);
    }
    KeyedIdsDistinct(Items, PositionByKey);
  }

  /** PositionByKey maps the id of item i back to i, checked item by item. */
  lemma KeyedAt(i: nat)
    requires i < |Items|
    ensures PositionByKey(Items[i].id) == i
  {
    if i < 12 { KeyedInstall(i); } else { KeyedCheck(i); }
  }

  /** KeyedAt over the installation items. */
  lemma KeyedInstall(i: nat)
    requires 0 <= i < 12
    ensures PositionByKey(Items[i].id) == i
  {
    match i
      case 0 => assert PositionByKey(Items[0].id) == 0;
      case 1 => assert PositionByKey(Items[1].id) == 1;
      case 2 => assert PositionByKey(Items[2].id) == 2;
      case 3 => assert PositionByKey(Items[3].id) == 3;
      case 4 => assert PositionByKey(Items[4].id) == 4;
      case 5 => assert PositionByKey(Items[5].id) == 5;
      case 6 => assert PositionByKey(Items[6].id) == 6;
      case 7 => assert PositionByKey(Items[7].id) == 7;
      case 8 => assert PositionByKey(Items[8].id) == 8;
      case 9 => assert PositionByKey(Items[9].id) == 9;
      case 10 => assert PositionByKey(Items[10].id) == 10;
      case _ => assert PositionByKey(Items[11].id) == 11;
  }

  /** KeyedAt over the check items. */
  lemma KeyedCheck(i: nat)
    requires 12 <= i < 23
    ensures PositionByKey(Items[i].id) == i
  {
    match i
      case 12 => assert PositionByKey(Items[12].id) == 12;
      case 13 => assert PositionByKey(Items[13].id) == 13;
      case 14 => assert PositionByKey(Items[14].id) == 14;
      case 15 => assert PositionByKey(Items[15].id) == 15;
      case 16 => assert PositionByKey(Items[16].id) == 16;
      case 17 => assert PositionByKey(Items[17].id) == 17;
      case 18 => assert PositionByKey(Items[18].id) == 18;
      case 19 => assert PositionByKey(Items[19].id) == 19;
      case 20 => assert PositionByKey(Items[20].id) == 20;
      case 21 => assert PositionByKey(Items[21].id) == 21;
      case _ => assert PositionByKey(Items[22].id) == 22;
  }

  function IdsUpTo(items: seq<ChecklistItem>, n: nat): set<string>
    requires n <= |items|
  {
    set i | 0 <= i < n :: items[i].id
  }

  /** Distinct ids over the first n items make a set of n ids. */
  lemma {:induction false} IdsUpToSize(items: seq<ChecklistItem>, n: nat)
    requires n <= |items| && DistinctIds(items)
    ensures |IdsUpTo(items, n)| == n
  {
    if n > 0 {
      IdsUpToSize(items, n - 1);
      assert IdsUpTo(items, n) == IdsUpTo(items, n - 1) + {items[n - 1].id};
      assert items[n - 1].id !in IdsUpTo(items, n - 1);
    }
  }

  /** There are exactly 23 item ids, so a map keyed by all of them has 23 entries. */
  lemma ItemIdsSize()
    ensures |ItemIds()| == 23
  {
    ChecklistIdsDistinct();
    IdsUpToSize(Items, |Items|);
    assert ItemIds() == IdsUpTo(Items, |Items|);
  }

  /** A product name offered by the picker. */
  predicate InCatalog(name: string)
  {
    exists i :: 0 <= i < |Catalog| && Catalog[i].name == name
  }

  /** The picker's empty option `''` is not a catalog name, and catalog names are distinct. */
  lemma CatalogNames()
    ensures !InCatalog("")
    ensures forall i, j :: 0 <= i < j < |Catalog| ==> Catalog[i].name != Catalog[j].name
  {
  }
}
