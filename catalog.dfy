/**
 * The catalog of process definitions (database.py): four groups, each mapping a category to its
 * products by name, and the lookups and tables computed over them. The groups' content is data
 * and is passed in.
 */
module Catalog {
  import opened Wrappers
  import opened Seqs
  import opened Text
  import opened Assoc
  import opened Process
  import opened Sorting

  /** One group of the catalog: category -> product name -> product definition. */
  type Group = Assoc<Assoc<Product>>

  /** API_PROCESSES, DOSAGE_FORM_PROCESSES, BIOLOGICAL_PROCESSES and NOVEL_DOSAGE_FORMS. */
  datatype Groups = Groups(api: Group, dosage: Group, biological: Group, novel: Group)

  /** Python dicts: no category twice in a group, no product twice in a category. */
  predicate WellFormed(g: Groups) {
    && UniqueKeys(g.api) && UniqueKeys(g.dosage) && UniqueKeys(g.biological) && UniqueKeys(g.novel)
  }

  /** The groups in the order the lookups consult them. */
  function GroupOrder(g: Groups): seq<Group> {
    [g.api, g.dosage, g.biological, g.novel]
  }

  // ---------------------------------------------------------------- lookups

  /** `get_all_processes`: the four groups merged with `dict.update`, in group order. */
  function AllProcesses(g: Groups): (all: Group)
    ensures UniqueKeys(all)
    ensures forall c :: c in Keys(all) <==> InSomeGroup(g, c)
  {
    var m1 := Merge([], g.api);
    var m2 := Merge(m1, g.dosage);
    var m3 := Merge(m2, g.biological);
    assert UniqueKeys<Assoc<Product>>([]);
    MergeKeysPrefix([], g.api);
    MergeKeysPrefix(m1, g.dosage);
    MergeKeysPrefix(m2, g.biological);
    MergeKeysPrefix(m3, g.novel);
    MergeKeysMembers([], g.api);
    MergeKeysMembers(m1, g.dosage);
    MergeKeysMembers(m2, g.biological);
    MergeKeysMembers(m3, g.novel);
    Merge(m3, g.novel)
  }

  /** `a.update(b)` holds exactly the keys of `a` and of `b`. */
  lemma MergeKeysMembers<V>(a: Assoc<V>, b: Assoc<V>)
    ensures forall k :: k in Keys(Merge(a, b)) <==> k in Keys(a) || k in Keys(b)
  {
    forall k {
      MergeGet(a, b, k);
    }
  }

  /** The position of the first group holding category `c`, or the number of groups when none does. */
  function FirstHolding(groups: seq<Group>, c: string): (i: nat)
    ensures i <= |groups|
    ensures i < |groups| ==> c in Keys(groups[i])
    ensures forall j :: 0 <= j < i ==> c !in Keys(groups[j])
    decreases |groups|
  {
    if |groups| == 0 then 0
    else if c in Keys(groups[0]) then 0
    else 1 + FirstHolding(groups[1..], c)
  }

  /** The categories of the first group holding `c`, consulted in `order`: what a lookup in that order finds. */
  function FoundIn(order: seq<Group>, c: string): Option<Assoc<Product>> {
    var i := FirstHolding(order, c);
    if i < |order| then Get(order[i], c) else None
  }

  /** A category is in some group. */
  predicate InSomeGroup(g: Groups, c: string) {
    c in Keys(g.api) || c in Keys(g.dosage) || c in Keys(g.biological) || c in Keys(g.novel)
  }

  /** `a.update(b)` with `b` a dict: `b`'s entry wins where it has one. */
  lemma MergeDictGet<V>(a: Assoc<V>, b: Assoc<V>, c: string)
    requires UniqueKeys(b)
    ensures Get(Merge(a, b), c) == if c in Keys(b) then Get(b, c) else Get(a, c)
    ensures c in Keys(Merge(a, b)) <==> c in Keys(a) || c in Keys(b)
  {
    MergeGet(a, b, c);
    LastGetUnique(b, c);
  }

  /** The merged catalog holds a category iff some group does; its entry is the one of the LAST group holding it. */
  lemma AllProcessesGet(g: Groups, c: string)
    requires WellFormed(g)
    ensures Get(AllProcesses(g), c) ==
      if c in Keys(g.novel) then Get(g.novel, c)
      else if c in Keys(g.biological) then Get(g.biological, c)
      else if c in Keys(g.dosage) then Get(g.dosage, c)
      else Get(g.api, c)
    ensures c in Keys(AllProcesses(g)) <==> InSomeGroup(g, c)
  {
    var m1 := Merge([], g.api);
    var m2 := Merge(m1, g.dosage);
    var m3 := Merge(m2, g.biological);
    MergeDictGet([], g.api, c);
    MergeDictGet(m1, g.dosage, c);
    MergeDictGet(m2, g.biological, c);
    MergeDictGet(m3, g.novel, c);
  }

  /** `get_main_categories`: every category of every group, each once. */
  function MainCategories(g: Groups): (r: seq<string>)
    ensures Distinct(r)
    ensures forall c :: c in r <==> InSomeGroup(g, c)
  {
    var all := Keys(g.api) + Keys(g.dosage) + Keys(g.biological) + Keys(g.novel);
    DedupMembers(all);
    Dedup(all)
  }

  /** The category entry a lookup finds, as `get_products` and `get_product_info` branch over the groups. */
  function CategoryEntry(g: Groups, c: string): Option<Assoc<Product>> {
    if c in Keys(g.api) then Get(g.api, c)
    else if c in Keys(g.dosage) then Get(g.dosage, c)
    else if c in Keys(g.biological) then Get(g.biological, c)
    else if c in Keys(g.novel) then Get(g.novel, c)
    else None
  }

  /** `get_products`: the product names of the category in the first group holding it; none for an unknown category. */
  function GetProducts(g: Groups, c: string): (names: seq<string>)
    ensures names == match FoundIn(GroupOrder(g), c) case Some(products) => Keys(products) case None => []
    ensures !InSomeGroup(g, c) ==> names == []
  {
    CategoryEntryFirstGroup(g, c);
    match CategoryEntry(g, c)
    case Some(products) => Keys(products)
    case None => []
  }

  /** `get_product_info`: the product's definition, None (the source's `{}`) when the category or product is unknown. */
  function GetProductInfo(g: Groups, c: string, p: string): (info: Option<Product>)
    ensures info == match FoundIn(GroupOrder(g), c) case Some(products) => Get(products, p) case None => None
    ensures info.Some? <==> p in GetProducts(g, c)
  {
    CategoryEntryFirstGroup(g, c);
    match CategoryEntry(g, c)
    case Some(products) => Get(products, p)
    case None => None
  }

  /** The branch chain consults the groups in the fixed order API, dosage, biological, novel and stops at the first holding `c`. */
  lemma CategoryEntryFirstGroup(g: Groups, c: string)
    ensures CategoryEntry(g, c) == FoundIn(GroupOrder(g), c)
    ensures CategoryEntry(g, c).None? <==> !InSomeGroup(g, c)
  {
    var order := GroupOrder(g);
    var o1 := [g.dosage, g.biological, g.novel];
    var o2 := [g.biological, g.novel];
    var o3 := [g.novel];
    assert order[1..] == o1 && o1[1..] == o2 && o2[1..] == o3 && o3[1..] == [];
    assert FirstHolding(o3, c) == if c in Keys(g.novel) then 0 else 1;
    assert FirstHolding(o2, c) == if c in Keys(g.biological) then 0 else 1 + FirstHolding(o3, c);
    assert FirstHolding(o1, c) == if c in Keys(g.dosage) then 0 else 1 + FirstHolding(o2, c);
    assert FirstHolding(order, c) == if c in Keys(g.api) then 0 else 1 + FirstHolding(o1, c);
  }

  /** An unknown category has no products and no product information. */
  lemma UnknownCategory(g: Groups, c: string, p: string)
    requires !InSomeGroup(g, c)
    ensures GetProducts(g, c) == [] && GetProductInfo(g, c, p) == None
  {
  }

  /** No category is shared by two groups. */
  predicate InOneGroupAtMost(g: Groups, c: string) {
    && (c in Keys(g.api) ==> c !in Keys(g.dosage) && c !in Keys(g.biological) && c !in Keys(g.novel))
    && (c in Keys(g.dosage) ==> c !in Keys(g.biological) && c !in Keys(g.novel))
    && (c in Keys(g.biological) ==> c !in Keys(g.novel))
  }

  /**
   * When no group shares the category with another, the first-group lookup agrees with the merged
   * catalog, whose entry comes from the last group holding the category.
   */
  lemma LookupsAgree(g: Groups, c: string)
    requires WellFormed(g) && InOneGroupAtMost(g, c)
    ensures CategoryEntry(g, c) == Get(AllProcesses(g), c)
  {
    AllProcessesGet(g, c);
  }

  // ---------------------------------------------------------------- traversal

  /** The rows `f` gives for each product of one category, in product order. */
  function CategoryRows<R>(c: string, products: Assoc<Product>, f: (string, string, Product) -> seq<R>): seq<R>
    decreases |products|
  {
    if |products| == 0 then []
    else
      var last := products[|products| - 1];
      CategoryRows(c, products[..|products| - 1], f) + f(c, last.0, last.1)
  }

  /** The rows `f` gives for every (category, product) pair, category by category: the source's nested `.items()` loops. */
  function CatalogRows<R>(all: Group, f: (string, string, Product) -> seq<R>): seq<R>
    decreases |all|
  {
    if |all| == 0 then []
    else
      var last := all[|all| - 1];
      CatalogRows(all[..|all| - 1], f) + CategoryRows(last.0, last.1, f)
  }

  lemma CategoryRowsStep<R>(c: string, products: Assoc<Product>, f: (string, string, Product) -> seq<R>, j: nat)
    requires j < |products|
    ensures CategoryRows(c, products[..j + 1], f) == CategoryRows(c, products[..j], f) + f(c, products[j].0, products[j].1)
  {
    PrefixSnoc(products, j);
  }

  lemma CatalogRowsStep<R>(all: Group, f: (string, string, Product) -> seq<R>, i: nat)
    requires i < |all|
    ensures CatalogRows(all[..i + 1], f) == CatalogRows(all[..i], f) + CategoryRows(all[i].0, all[i].1, f)
  {
    PrefixSnoc(all, i);
  }

  /** `sum(len(products) for products in all.values())`. */
  function ProductCount(all: Group): nat
    decreases |all|
  {
    if |all| == 0 then 0 else ProductCount(all[..|all| - 1]) + |all[|all| - 1].1|
  }

  /** A table with one row per product has as many rows as the catalog has products. */
  lemma {:induction false} OneRowPerProduct<R>(all: Group, f: (string, string, Product) -> seq<R>)
    requires forall c, p, x :: |f(c, p, x)| == 1
    ensures |CatalogRows(all, f)| == ProductCount(all)
    decreases |all|
  {
    if |all| > 0 {
      OneRowPerProduct(all[..|all| - 1], f);
      OneRowPerProductInCategory(all[|all| - 1].0, all[|all| - 1].1, f);
    }
  }

  lemma {:induction false} OneRowPerProductInCategory<R>(c: string, products: Assoc<Product>, f: (string, string, Product) -> seq<R>)
    requires forall c, p, x :: |f(c, p, x)| == 1
    ensures |CategoryRows(c, products, f)| == |products|
    decreases |products|
  {
    if |products| > 0 {
      OneRowPerProductInCategory(c, products[..|products| - 1], f);
    }
  }

  /** A table with at most one row per product has at most as many rows as the catalog has products. */
  lemma {:induction false} AtMostOneRowPerProduct<R>(all: Group, f: (string, string, Product) -> seq<R>)
    requires forall c, p, x :: |f(c, p, x)| <= 1
    ensures |CatalogRows(all, f)| <= ProductCount(all)
    decreases |all|
  {
    if |all| > 0 {
      AtMostOneRowPerProduct(all[..|all| - 1], f);
      AtMostOneRowPerProductInCategory(all[|all| - 1].0, all[|all| - 1].1, f);
    }
  }

  lemma {:induction false} AtMostOneRowPerProductInCategory<R>(c: string, products: Assoc<Product>, f: (string, string, Product) -> seq<R>)
    requires forall c, p, x :: |f(c, p, x)| <= 1
    ensures |CategoryRows(c, products, f)| <= |products|
    decreases |products|
  {
    if |products| > 0 {
      AtMostOneRowPerProductInCategory(c, products[..|products| - 1], f);
    }
  }

  /** `r` is among the rows `f` gives for the product at position `j` of the category at position `i`. */
  ghost predicate RowOfProduct<R>(all: Group, f: (string, string, Product) -> seq<R>, r: R, i: nat, j: nat) {
    i < |all| && j < |all[i].1| && r in f(all[i].0, all[i].1[j].0, all[i].1[j].1)
  }

  /** Exactly the rows of the catalog's products make up the table. */
  lemma {:induction false} CatalogRowsMembers<R>(all: Group, f: (string, string, Product) -> seq<R>, r: R)
    ensures r in CatalogRows(all, f) <==> exists i, j :: RowOfProduct(all, f, r, i, j)
    decreases |all|
  {
    if |all| > 0 {
      var n := |all| - 1;
      var p := all[..n];
      CatalogRowsMembers(p, f, r);
      CategoryRowsMembers(all[n].0, all[n].1, f, r);
      assert CatalogRows(all, f) == CatalogRows(p, f) + CategoryRows(all[n].0, all[n].1, f);
      RowOfProductSplit(all, p, all[n].0, all[n].1, f, r);
    }
  }

  /** A product of the catalog is a product of all but the last category or one of the last. */
  lemma RowOfProductSplit<R>(all: Group, p: Group, c: string, products: Assoc<Product>, f: (string, string, Product) -> seq<R>, r: R)
    requires |all| > 0 && p == all[..|all| - 1] && all[|all| - 1] == (c, products)
    ensures (exists i, j :: RowOfProduct(all, f, r, i, j)) <==>
      (exists i, j :: RowOfProduct(p, f, r, i, j)) ||
      (exists j :: 0 <= j < |products| && r in f(c, products[j].0, products[j].1))
  {
    var n := |all| - 1;
    if exists i, j :: RowOfProduct(p, f, r, i, j) {
      var i: nat, j: nat :| RowOfProduct(p, f, r, i, j);
      assert RowOfProduct(all, f, r, i, j);
    }
    if exists j :: 0 <= j < |products| && r in f(c, products[j].0, products[j].1) {
      var j :| 0 <= j < |products| && r in f(c, products[j].0, products[j].1);
      assert RowOfProduct(all, f, r, n, j);
    }
    if exists i, j :: RowOfProduct(all, f, r, i, j) {
      var i: nat, j: nat :| RowOfProduct(all, f, r, i, j);
      if i < n {
        assert RowOfProduct(p, f, r, i, j);
      }
    }
  }

  lemma {:induction false} CategoryRowsMembers<R>(c: string, products: Assoc<Product>, f: (string, string, Product) -> seq<R>, r: R)
    ensures r in CategoryRows(c, products, f) <==>
      exists j :: 0 <= j < |products| && r in f(c, products[j].0, products[j].1)
    decreases |products|
  {
    if |products| > 0 {
      var n := |products| - 1;
      var p := products[..n];
      CategoryRowsMembers(c, p, f, r);
      if exists j :: 0 <= j < |p| && r in f(c, p[j].0, p[j].1) {
        var j :| 0 <= j < |p| && r in f(c, p[j].0, p[j].1);
        assert products[j] == p[j];
      }
      if exists j :: 0 <= j < |products| && r in f(c, products[j].0, products[j].1) {
        var j :| 0 <= j < |products| && r in f(c, products[j].0, products[j].1);
        if j < n {
          assert p[j] == products[j];
        }
      }
    }
  }

  /** The nested loop over categories and products collecting the rows `f` gives. */
  method CollectRows<R>(all: Group, f: (string, string, Product) -> seq<R>) returns (rows: seq<R>)
    ensures rows == CatalogRows(all, f)
  {
    rows := [];
    for i := 0 to |all|
      invariant rows == CatalogRows(all[..i], f)
    {
      CatalogRowsStep(all, f, i);
      var c := all[i].0;
      var products := all[i].1;
      ghost var before := rows;
      for j := 0 to |products|
        invariant rows == before + CategoryRows(c, products[..j], f)
      {
        CategoryRowsStep(c, products, f, j);
        rows := rows + f(c, products[j].0, products[j].1);
      }
      WholePrefix(products);
    }
    WholePrefix(all);
  }

  // ---------------------------------------------------------------- process summary

  /** The duration keys `get_process_summary` tries, in order. */
  const TimeKeys: seq<string> := ["时间(min)", "时间(h)", "时间(天)", "time(h)", "time(min)"]

  /** Minutes per unit of the value under a time key: ×24×60 when the key holds 天, ×60 when its lower case holds "h", ×1 when it holds "min". */
  function MinutesPerUnit(key: string): real {
    if Contains(key, "天") then 24.0 * 60.0
    else if Contains(Lower(key), "h") then 60.0
    else if Contains(Lower(key), "min") then 1.0
    else 0.0
  }

  /** The position of the first of `keys` the timing fields carry, or |keys| when they carry none. */
  function FirstKey(timing: map<string, Value>, keys: seq<string>): (i: nat)
    ensures i <= |keys|
    ensures i < |keys| ==> keys[i] in timing
    ensures forall j :: 0 <= j < i ==> keys[j] !in timing
    decreases |keys|
  {
    if |keys| == 0 then 0 else if keys[0] in timing then 0 else 1 + FirstKey(timing, keys[1..])
  }

  /** What one step adds to `total_time_min`: its first time field in minutes, 0 when it has none or `float` rejects the value. */
  function StepMinutes(step: Step): real {
    var i := FirstKey(step.timing, TimeKeys);
    if i == |TimeKeys| then 0.0 else KeyMinutes(step.timing, TimeKeys[i])
  }

  /** The minutes recorded under one time key: `float(str(value))` times the key's unit, 0 when `float` fails. */
  function KeyMinutes(timing: map<string, Value>, key: string): real
    requires key in timing
  {
    match FloatOf(timing[key])
    case Some(x) => x * MinutesPerUnit(key)
    case None => 0.0
  }

  /** The inner loop over the time keys, stopping at the first key present. */
  method ReadStepMinutes(step: Step) returns (minutes: real)
    ensures minutes == StepMinutes(step)
  {
    minutes := 0.0;
    var k := 0;
    while k < |TimeKeys|
      invariant 0 <= k <= |TimeKeys|
      invariant forall j :: 0 <= j < k ==> TimeKeys[j] !in step.timing
      invariant minutes == 0.0
    {
      var key := TimeKeys[k];
      if key in step.timing {
        assert FirstKey(step.timing, TimeKeys) == k;
        var v := FloatOf(step.timing[key]);
        if v.Some? {
          if Contains(key, "天") {
            minutes := v.value * 24.0 * 60.0;
          } else if Contains(Lower(key), "h") {
            minutes := v.value * 60.0;
          } else if Contains(Lower(key), "min") {
            minutes := v.value;
          }
        }
        return;
      }
      k := k + 1;
    }
  }

  /** Lower-casing leaves text without ASCII capitals alone. */
  lemma LowerOfNonUpper(s: string)
    requires forall i :: 0 <= i < |s| ==> !('A' <= s[i] <= 'Z')
    ensures Lower(s) == s
  {
  }

  lemma DayKeyUnit()
    ensures MinutesPerUnit(TimeKeys[2]) == 1440.0
  {
    var k := TimeKeys[2];
    assert OccursAt(k, "天", 3);
    ContainsFromAt(k, "天", 3);
  }

  /** A key without 天 or a capital that holds "h" reads hours. */
  lemma HourKeyUnit(k: string, at: nat)
    requires '天' !in k && forall i :: 0 <= i < |k| ==> !('A' <= k[i] <= 'Z')
    requires OccursAt(k, "h", at)
    ensures MinutesPerUnit(k) == 60.0
  {
    NotContainsMissingChar(k, "天", '天');
    LowerOfNonUpper(k);
    ContainsFromAt(k, "h", at);
  }

  /** A key without 天, 'h' or a capital that holds "min" reads minutes. */
  lemma MinuteKeyUnit(k: string, at: nat)
    requires '天' !in k && 'h' !in k && forall i :: 0 <= i < |k| ==> !('A' <= k[i] <= 'Z')
    requires OccursAt(k, "min", at)
    ensures MinutesPerUnit(k) == 1.0
  {
    NotContainsMissingChar(k, "天", '天');
    LowerOfNonUpper(k);
    NotContainsMissingChar(k, "h", 'h');
    ContainsFromAt(k, "min", at);
  }

  /** The minutes per unit of each time key, by position. */
  function UnitOfKeyAt(i: nat): real
    requires i < |TimeKeys|
  {
    if i == 2 then 1440.0 else if i == 1 || i == 3 then 60.0 else 1.0
  }

  /** The first key present is found. */
  lemma FirstKeyIs(timing: map<string, Value>, keys: seq<string>, i: nat)
    requires i < |keys| && keys[i] in timing
    requires forall j :: 0 <= j < i ==> keys[j] !in timing
    ensures FirstKey(timing, keys) == i
  {
  }

  /** The five keys read minutes, hours, days, hours and minutes. */
  lemma KeyUnitAt(i: nat)
    requires i < |TimeKeys|
    ensures MinutesPerUnit(TimeKeys[i]) == UnitOfKeyAt(i)
  {
    if i == 0 {
      ChineseMinuteKeyUnit();
    } else if i == 1 {
      ChineseHourKeyUnit();
    } else if i == 2 {
      DayKeyUnit();
    } else if i == 3 {
      EnglishHourKeyUnit();
    } else {
      EnglishMinuteKeyUnit();
    }
  }

  lemma ChineseMinuteKeyUnit()
    ensures MinutesPerUnit(TimeKeys[0]) == 1.0
  {
    MinuteKeyUnit(TimeKeys[0], 3);
  }

  lemma ChineseHourKeyUnit()
    ensures MinutesPerUnit(TimeKeys[1]) == 60.0
  {
    HourKeyUnit(TimeKeys[1], 3);
  }

  lemma EnglishHourKeyUnit()
    ensures MinutesPerUnit(TimeKeys[3]) == 60.0
  {
    HourKeyUnit(TimeKeys[3], 5);
  }

  lemma EnglishMinuteKeyUnit()
    ensures MinutesPerUnit(TimeKeys[4]) == 1.0
  {
    MinuteKeyUnit(TimeKeys[4], 5);
  }

  /** The first time key present decides: the step adds what is recorded under that key and ignores any later one. */
  lemma StepMinutesFirstKey(step: Step, i: nat)
    requires i < |TimeKeys| && TimeKeys[i] in step.timing
    requires forall j :: 0 <= j < i ==> TimeKeys[j] !in step.timing
    ensures StepMinutes(step) == KeyMinutes(step.timing, TimeKeys[i])
  {
    FirstKeyIs(step.timing, TimeKeys, i);
  }

  /** A step carrying none of the time keys adds nothing. */
  lemma StepMinutesNoKey(step: Step)
    requires forall j :: 0 <= j < |TimeKeys| ==> TimeKeys[j] !in step.timing
    ensures StepMinutes(step) == 0.0
  {
  }

  function PatLength(step: Step): nat { |step.pat| }

  function ParamLength(step: Step): nat { |step.params| }

  function EquipmentLength(step: Step): nat { |step.equipment| }

  /** The equipment names of the steps, as the source's `equipment_set`. */
  function EquipmentSet(steps: seq<Step>): set<string>
    decreases |steps|
  {
    if |steps| == 0 then {} else EquipmentSet(steps[..|steps| - 1]) + Elements(steps[|steps| - 1].equipment)
  }

  lemma EquipmentSetStep(steps: seq<Step>, i: nat)
    requires i < |steps|
    ensures EquipmentSet(steps[..i + 1]) == EquipmentSet(steps[..i]) + Elements(steps[i].equipment)
  {
    PrefixSnoc(steps, i);
  }

  /** A name is in the set exactly when some step lists it. */
  lemma {:induction false} EquipmentSetMembers(steps: seq<Step>, e: string)
    ensures e in EquipmentSet(steps) <==> exists i :: 0 <= i < |steps| && e in steps[i].equipment
    decreases |steps|
  {
    if |steps| > 0 {
      var p := steps[..|steps| - 1];
      EquipmentSetMembers(p, e);
      if e in EquipmentSet(p) {
        var i :| 0 <= i < |p| && e in p[i].equipment;
        assert steps[i] == p[i];
      }
      if exists i :: 0 <= i < |steps| && e in steps[i].equipment {
        var i :| 0 <= i < |steps| && e in steps[i].equipment;
        if i < |p| {
          assert p[i] == steps[i];
        }
      }
    }
  }

  /** `description[:100] + '...'` when the description exceeds 100 characters. */
  function ShortDescription(d: string): string {
    if |d| > 100 then d[..100] + "..." else d
  }

  /** A description of at most 100 characters stays; a longer one keeps its first 100 and gains "...". */
  lemma ShortDescriptionShape(d: string)
    ensures |d| <= 100 ==> ShortDescription(d) == d
    ensures |d| > 100 ==> (|ShortDescription(d)| == 103
      && ShortDescription(d)[..100] == d[..100] && ShortDescription(d)[100..] == "...")
  {
  }

  datatype SummaryRow = SummaryRow(
    category: string,          // 工艺类别
    product: string,           // 产品类型
    gmpRisk: string,           // GMP风险等级
    stepCount: nat,            // 工艺步骤数
    totalMinutes: real,        // 总生产时间(分钟)
    patCount: nat,             // PAT应用数量
    parameterCount: nat,       // 关键参数总数
    equipmentCount: nat,       // 关键设备数
    featureCount: nat,         // 关键特征数
    description: string)       // 描述

  /** The summary row of one product. */
  function SummaryRowOf(c: string, p: string, x: Product): SummaryRow {
    SummaryRow(c, p, x.gmpClass.GetOr("未分类"), |x.steps|, Sum(x.steps, StepMinutes),
      SumNat(x.steps, PatLength), SumNat(x.steps, ParamLength), |EquipmentSet(x.steps)|,
      |x.keyFeatures|, ShortDescription(x.description))
  }

  function SummaryRows(c: string, p: string, x: Product): seq<SummaryRow> {
    [SummaryRowOf(c, p, x)]
  }

  /** The loop over one product's steps that accumulates time, PAT entries, equipment and parameters. */
  method SummarizeProduct(c: string, p: string, x: Product) returns (row: SummaryRow)
    ensures row == SummaryRowOf(c, p, x)
  {
    var steps := x.steps;
    var totalMinutes := 0.0;
    var patCount := 0;
    var equipment: set<string> := {};
    var parameterCount := 0;
    for i := 0 to |steps|
      invariant totalMinutes == Sum(steps[..i], StepMinutes)
      invariant patCount == SumNat(steps[..i], PatLength)
      invariant equipment == EquipmentSet(steps[..i])
      invariant parameterCount == SumNat(steps[..i], ParamLength)
    {
      SumStep(steps, StepMinutes, i);
      SumNatStep(steps, PatLength, i);
      EquipmentSetStep(steps, i);
      SumNatStep(steps, ParamLength, i);
      var step := steps[i];
      var minutes := ReadStepMinutes(step);
      totalMinutes := totalMinutes + minutes;
      patCount := patCount + |step.pat|;
      equipment := equipment + Elements(step.equipment);
      parameterCount := parameterCount + |step.params|;
    }
    WholePrefix(steps);
    var description := x.description;
    row := SummaryRow(c, p, x.gmpClass.GetOr("未分类"), |steps|, totalMinutes, patCount, parameterCount,
      |equipment|, |x.keyFeatures|, if |description| > 100 then description[..100] + "..." else description);
  }

  /** `get_process_summary`: one row per product of the merged catalog, category by category. */
  method GetProcessSummary(g: Groups) returns (rows: seq<SummaryRow>)
    ensures rows == CatalogRows(AllProcesses(g), SummaryRows)
  {
    var all := AllProcesses(g);
    rows := [];
    for i := 0 to |all|
      invariant rows == CatalogRows(all[..i], SummaryRows)
    {
      CatalogRowsStep(all, SummaryRows, i);
      var categoryRows := SummarizeCategory(all[i].0, all[i].1);
      rows := rows + categoryRows;
    }
    WholePrefix(all);
  }

  /** The loop over the products of one category. */
  method SummarizeCategory(c: string, products: Assoc<Product>) returns (rows: seq<SummaryRow>)
    ensures rows == CategoryRows(c, products, SummaryRows)
  {
    rows := [];
    for j := 0 to |products|
      invariant rows == CategoryRows(c, products[..j], SummaryRows)
    {
      CategoryRowsStep(c, products, SummaryRows, j);
      var row := SummarizeProduct(c, products[j].0, products[j].1);
      rows := rows + [row];
    }
    WholePrefix(products);
  }

  /** The summary has exactly one row per product. */
  lemma SummaryRowCount(g: Groups)
    ensures |CatalogRows(AllProcesses(g), SummaryRows)| == ProductCount(AllProcesses(g))
  {
    OneRowPerProduct(AllProcesses(g), SummaryRows);
  }

  /** The distinct equipment of a product never exceeds the equipment entries its steps list. */
  lemma {:induction false} EquipmentCountBound(steps: seq<Step>)
    ensures |EquipmentSet(steps)| <= SumNat(steps, EquipmentLength)
    decreases |steps|
  {
    if |steps| > 0 {
      var p := steps[..|steps| - 1];
      var es := steps[|steps| - 1].equipment;
      EquipmentCountBound(p);
      ElementsSize(es);
      assert |EquipmentSet(p) + Elements(es)| <= |EquipmentSet(p)| + |Elements(es)|;
    }
  }
}
