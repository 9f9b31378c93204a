/** The dashboard of the local-storage generation (components/Dashboard.tsx):
    totals folded over the sales and products, the sales grouped by day for the
    chart, and the best-selling product names. The grouping folds into a
    dictionary updated in place; the dictionary's key order (insertion order)
    is kept beside it as a sequence. */
module RootDashboard {
  import opened Seqs
  import opened RootTypes
  import RootPos
  import RootApp

  function SaleTotal(s: Sale): int { s.total }
  function LineQuantity(item: CartItem): int { item.quantity }
  function ItemName(item: CartItem): string { item.Name() }
  function StockOf(p: Product): int { p.stock }

  /** Units in one sale. */
  function UnitsIn(s: Sale): int { SumOf(s.items, LineQuantity) }

  /** `totalRevenue`. */
  function TotalRevenue(sales: seq<Sale>): (r: int)
    ensures sales == [] ==> r == 0
    ensures (forall i :: 0 <= i < |sales| ==> sales[i].total >= 0) ==> r >= 0
  {
    SumOfSign(sales, SaleTotal);
    SumOf(sales, SaleTotal)
  }

  /** `productsSold`: the item quantities of every sale. */
  function ProductsSold(sales: seq<Sale>): (r: int)
    ensures sales == [] ==> r == 0
    ensures (forall i, j :: 0 <= i < |sales| && 0 <= j < |sales[i].items| ==> sales[i].items[j].quantity >= 0) ==> r >= 0
  {
    UnitsNonnegative(sales);
    SumOf(sales, UnitsIn)
  }

  /** Sales whose quantities are non-negative sell a non-negative number of units. */
  lemma UnitsNonnegative(sales: seq<Sale>)
    ensures (forall i, j :: 0 <= i < |sales| && 0 <= j < |sales[i].items| ==> sales[i].items[j].quantity >= 0) ==>
      SumOf(sales, UnitsIn) >= 0
  {
    forall i | 0 <= i < |sales| {
      SumOfSign(sales[i].items, LineQuantity);
    }
    SumOfSign(sales, UnitsIn);
  }

  /** `totalInventory`. */
  function TotalInventory(products: seq<Product>): (r: int)
    ensures products == [] ==> r == 0
    ensures (forall i :: 0 <= i < |products| ==> products[i].stock >= 0) ==> r >= 0
  {
    SumOfSign(products, StockOf);
    SumOf(products, StockOf)
  }

  /** Recording a sale raises the revenue by the cart total, and the sales
      count by one. */
  lemma RevenueAfterSale(sales: seq<Sale>, cart: seq<CartItem>, id: string, date: string)
    ensures TotalRevenue([RootApp.NewSale(cart, id, date)] + sales) == TotalRevenue(sales) + RootPos.CartTotal(cart)
    ensures |[RootApp.NewSale(cart, id, date)] + sales| == |sales| + 1
  {
    SumOfCons(RootApp.NewSale(cart, id, date), sales, SaleTotal);
  }

  /** One cart line that names a listed product takes its units out of the
      inventory. */
  lemma DebitOneInventory(products: seq<Product>, line: CartItem)
    requires IndexOfId(products, line.Id()) != -1
    ensures TotalInventory(RootApp.DebitOne(products, line)) == TotalInventory(products) - line.quantity
  {
    var i := IndexOfId(products, line.Id());
    var debited := products[i].(stock := products[i].stock - line.quantity);
    assert RootApp.DebitOne(products, line) == products[i := debited];
    assert StockOf(debited) == StockOf(products[i]) - line.quantity;
    SumOfUpdate(products, i, debited, StockOf);
  }

  /** When every cart line names a listed product, the stock update takes
      exactly the sold units out of the inventory. */
  lemma {:induction false} InventoryAfterDebit(products: seq<Product>, cart: seq<CartItem>)
    requires forall k :: 0 <= k < |cart| ==> IndexOfId(products, cart[k].Id()) != -1
    ensures TotalInventory(RootApp.DebitAll(products, cart)) == TotalInventory(products) - SumOf(cart, LineQuantity)
    decreases |cart|
  {
    if cart != [] {
      var init, line := cart[..|cart| - 1], cart[|cart| - 1];
      assert forall k :: 0 <= k < |init| ==> init[k] == cart[k];
      InventoryAfterDebit(products, init);
      var before := RootApp.DebitAll(products, init);
      RootApp.IndexOfIdSameIds(before, products, line.Id());
      DebitOneInventory(before, line);
    }
  }

  /** A sale conserves units: what leaves the inventory shows up as sold. */
  lemma SaleConservesUnits(products: seq<Product>, sales: seq<Sale>, cart: seq<CartItem>, id: string, date: string)
    requires RootPos.CartInvariant(cart, products)
    ensures TotalInventory(RootApp.DebitAll(products, cart)) + ProductsSold([RootApp.NewSale(cart, id, date)] + sales)
         == TotalInventory(products) + ProductsSold(sales)
  {
    forall k | 0 <= k < |cart|
      ensures IndexOfId(products, cart[k].Id()) != -1
    {
      assert Lookup(products, cart[k].Id()).Some?;
    }
    InventoryAfterDebit(products, cart);
    SumOfCons(RootApp.NewSale(cart, id, date), sales, UnitsIn);
  }

  /** The distinct keys of `xs` in the order they are first met: the key order
      of a dictionary filled by a left-to-right fold. */
  function KeysInOrder<T, K(==)>(xs: seq<T>, key: T -> K): (ks: seq<K>)
    ensures forall i, j :: 0 <= i < j < |ks| ==> ks[i] != ks[j]
    ensures forall i :: 0 <= i < |xs| ==> key(xs[i]) in ks
    ensures forall k :: k in ks ==> exists i :: 0 <= i < |xs| && key(xs[i]) == k
    decreases |xs|
  {
    if xs == [] then []
    else
      var init := xs[..|xs| - 1];
      var ks := KeysInOrder(init, key);
      assert forall i :: 0 <= i < |init| ==> init[i] == xs[i];
      if key(xs[|xs| - 1]) in ks then ks else ks + [key(xs[|xs| - 1])]
  }

  /** The value a fold `acc[k] = (acc[k] || 0) + val(x)` accumulates under `k`. */
  function KeyTotal<T, K(==)>(xs: seq<T>, key: T -> K, val: T -> int, k: K): int
    decreases |xs|
  {
    if xs == [] then 0
    else KeyTotal(xs[..|xs| - 1], key, val, k) + (if key(xs[|xs| - 1]) == k then val(xs[|xs| - 1]) else 0)
  }

  /** A key never met accumulates nothing. */
  lemma {:induction false} KeyTotalAbsent<T, K>(xs: seq<T>, key: T -> K, val: T -> int, k: K)
    requires k !in KeysInOrder(xs, key)
    ensures KeyTotal(xs, key, val, k) == 0
    decreases |xs|
  {
    if xs != [] {
      KeyTotalAbsent(xs[..|xs| - 1], key, val, k);
    }
  }

  /** The accumulated values of the keys `ks`, added up. */
  function KeySums<T, K(==)>(ks: seq<K>, xs: seq<T>, key: T -> K, val: T -> int): int
    decreases |ks|
  {
    if ks == [] then 0
    else KeySums(ks[..|ks| - 1], xs, key, val) + KeyTotal(xs, key, val, ks[|ks| - 1])
  }

  /** One more element adds its value to the sum over the keys when its key is
      among them. */
  lemma {:induction false} KeySumsStep<T, K>(ks: seq<K>, xs: seq<T>, x: T, key: T -> K, val: T -> int)
    requires forall i, j :: 0 <= i < j < |ks| ==> ks[i] != ks[j]
    ensures KeySums(ks, xs + [x], key, val) == KeySums(ks, xs, key, val) + (if key(x) in ks then val(x) else 0)
    decreases |ks|
  {
    if ks != [] {
      var init, k := ks[..|ks| - 1], ks[|ks| - 1];
      KeySumsStep(init, xs, x, key, val);
      assert (xs + [x])[..|xs|] == xs;
      assert key(x) in ks <==> key(x) in init || key(x) == k;
      assert !(key(x) in init && key(x) == k);
    }
  }

  /** Grouping loses nothing: the groups' values add up to the sum of all
      values. */
  lemma {:induction false} GroupedSumsToWhole<T, K>(xs: seq<T>, key: T -> K, val: T -> int)
    ensures KeySums(KeysInOrder(xs, key), xs, key, val) == SumOf(xs, val)
    decreases |xs|
  {
    if xs != [] {
      var init, x := xs[..|xs| - 1], xs[|xs| - 1];
      assert xs == init + [x];
      var ks := KeysInOrder(init, key);
      GroupedSumsToWhole(init, key, val);
      KeySumsStep(ks, init, x, key, val);
      assert SumOf(xs, val) == SumOf(init, val) + val(x);
      if key(x) in ks {
        assert KeysInOrder(xs, key) == ks;
      } else {
        var ks' := ks + [key(x)];
        assert KeysInOrder(xs, key) == ks';
        assert ks'[..|ks|] == ks;
        KeyTotalAbsent(init, key, val, key(x));
        assert KeyTotal(xs, key, val, key(x)) == val(x);
        assert KeySums(ks', xs, key, val) == KeySums(ks, xs, key, val) + val(x);
      }
    }
  }

  /** The fold into a dictionary (`acc[k] = (acc[k] || 0) + val(x)`), with the
      dictionary's keys in insertion order. */
  method GroupTotals<T, K(==)>(xs: seq<T>, key: T -> K, val: T -> int) returns (keys: seq<K>, acc: map<K, int>)
    ensures keys == KeysInOrder(xs, key)
    ensures forall k :: k in acc <==> k in keys
    ensures forall k :: k in acc ==> acc[k] == KeyTotal(xs, key, val, k)
  {
    keys := [];
    acc := map[];
    var i := 0;
    while i < |xs|
      invariant 0 <= i <= |xs|
      invariant keys == KeysInOrder(xs[..i], key)
      invariant forall k :: k in acc <==> k in keys
      invariant forall k :: k in acc ==> acc[k] == KeyTotal(xs[..i], key, val, k)
    {
      var k := key(xs[i]);
      var previous := 0;
      if k in acc {
        previous := acc[k];
      } else {
        KeyTotalAbsent(xs[..i], key, val, k);
        keys := keys + [k];
      }
      acc := acc[k := previous + val(xs[i])];
      assert xs[..i + 1][..i] == xs[..i];
      i := i + 1;
    }
    assert xs[..i] == xs;
  }

  /** A bar of the sales chart: a day and the revenue of that day. */
  datatype DayPoint = DayPoint(name: string, ventas: int)

  /** The day key of a sale, given the locale's date rendering. */
  function SaleDay(dayOf: string -> string): Sale -> string
  {
    (s: Sale) => dayOf(s.date)
  }

  /** The days' revenues add up to the total revenue. */
  lemma DayTotalsSumToRevenue(sales: seq<Sale>, dayOf: string -> string)
    ensures KeySums(KeysInOrder(sales, SaleDay(dayOf)), sales, SaleDay(dayOf), SaleTotal) == TotalRevenue(sales)
  {
    GroupedSumsToWhole(sales, SaleDay(dayOf), SaleTotal);
  }

  /** `salesByDay` and `chartData`: at most seven bars, for the first seven
      days met in the sales list (not the latest ones), each with that day's
      revenue. */
  method SalesChart(sales: seq<Sale>, dayOf: string -> string) returns (chart: seq<DayPoint>)
    ensures |chart| == if |KeysInOrder(sales, SaleDay(dayOf))| < 7 then |KeysInOrder(sales, SaleDay(dayOf))| else 7
    ensures forall i :: 0 <= i < |chart| ==>
      chart[i] == DayPoint(KeysInOrder(sales, SaleDay(dayOf))[i],
                           KeyTotal(sales, SaleDay(dayOf), SaleTotal, KeysInOrder(sales, SaleDay(dayOf))[i]))
  {
    var days, byDay := GroupTotals(sales, SaleDay(dayOf), SaleTotal);
    var points := seq(|days|, i requires 0 <= i < |days| => DayPoint(days[i], byDay[days[i]]));
    chart := Take(points, 7);
  }

  /** Every item of every sale, in order (`sales.flatMap(s => s.items)`). */
  function Flatten(sales: seq<Sale>): seq<CartItem>
    decreases |sales|
  {
    if sales == [] then [] else Flatten(sales[..|sales| - 1]) + sales[|sales| - 1].items
  }

  /** The flattened items are exactly the items of the sales. */
  lemma {:induction false} FlattenMembers(sales: seq<Sale>)
    ensures forall i, j :: 0 <= i < |sales| && 0 <= j < |sales[i].items| ==> sales[i].items[j] in Flatten(sales)
    ensures forall k :: 0 <= k < |Flatten(sales)| ==> exists i :: 0 <= i < |sales| && Flatten(sales)[k] in sales[i].items
    decreases |sales|
  {
    if sales != [] {
      var init, last := sales[..|sales| - 1], sales[|sales| - 1];
      FlattenMembers(init);
      var r := Flatten(sales);
      assert r == Flatten(init) + last.items;
      forall i, j | 0 <= i < |sales| && 0 <= j < |sales[i].items|
        ensures sales[i].items[j] in r
      {
        if i < |init| {
          assert sales[i] == init[i];
        } else {
          assert r[|Flatten(init)| + j] == sales[i].items[j];
        }
      }
      forall k | 0 <= k < |Flatten(sales)|
        ensures exists i :: 0 <= i < |sales| && Flatten(sales)[k] in sales[i].items
      {
        if k < |Flatten(init)| {
          var i :| 0 <= i < |init| && Flatten(init)[k] in init[i].items;
          assert sales[i] == init[i];
        } else {
          assert r[k] == last.items[k - |Flatten(init)|];
          assert r[k] in sales[|sales| - 1].items;
        }
      }
    } else {
      assert Flatten(sales) == [];
    }
  }

  /** The units sold are the quantities of the flattened items. */
  lemma {:induction false} SoldIsFlattenedQuantity(sales: seq<Sale>)
    ensures ProductsSold(sales) == SumOf(Flatten(sales), LineQuantity)
    decreases |sales|
  {
    if sales != [] {
      SoldIsFlattenedQuantity(sales[..|sales| - 1]);
      SumOfConcat(Flatten(sales[..|sales| - 1]), sales[|sales| - 1].items, LineQuantity);
    }
  }

  /** The per-name totals of the best-seller list add up to the units sold. */
  lemma NameTotalsSumToSold(sales: seq<Sale>)
    ensures KeySums(KeysInOrder(Flatten(sales), ItemName), Flatten(sales), ItemName, LineQuantity) == ProductsSold(sales)
  {
    SoldIsFlattenedQuantity(sales);
    GroupedSumsToWhole(Flatten(sales), ItemName, LineQuantity);
  }

  /** An entry of `Object.entries(topProducts)`: a product name and its units. */
  datatype TopEntry = TopEntry(name: string, quantity: int)

  predicate SortedDesc(l: seq<TopEntry>)
  {
    forall i, j :: 0 <= i < j < |l| ==> l[i].quantity >= l[j].quantity
  }

  /** Inserting `e` in front of the first entry it is not below. */
  function Insert(e: TopEntry, l: seq<TopEntry>): (r: seq<TopEntry>)
    ensures multiset(r) == multiset(l) + multiset{e}
    decreases |l|
  {
    if l == [] || e.quantity >= l[0].quantity then [e] + l
    else
      assert l == [l[0]] + l[1..];
      [l[0]] + Insert(e, l[1..])
  }

  lemma {:induction false} InsertSorted(e: TopEntry, l: seq<TopEntry>)
    requires SortedDesc(l)
    ensures SortedDesc(Insert(e, l))
    decreases |l|
  {
    if l != [] && e.quantity < l[0].quantity {
      InsertSorted(e, l[1..]);
      var r := Insert(e, l[1..]);
      forall x | x in r ensures x.quantity <= l[0].quantity {
        assert x in multiset(r);
      }
      assert Insert(e, l) == [l[0]] + r;
    }
  }

  /** The stable sort by descending quantity (`sort(([, a], [, b]) => b - a)`). */
  function SortDesc(l: seq<TopEntry>): (r: seq<TopEntry>)
    ensures multiset(r) == multiset(l)
    ensures SortedDesc(r)
    decreases |l|
  {
    if l == [] then []
    else
      assert l == [l[0]] + l[1..];
      InsertSorted(l[0], SortDesc(l[1..]));
      Insert(l[0], SortDesc(l[1..]))
  }

  function WithQuantity(q: int): TopEntry -> bool
  {
    (e: TopEntry) => e.quantity == q
  }

  /** Insertion puts the new entry in front of the entries of equal quantity. */
  lemma {:induction false} InsertStable(e: TopEntry, l: seq<TopEntry>, q: int)
    ensures Filter(Insert(e, l), WithQuantity(q)) ==
      if e.quantity == q then [e] + Filter(l, WithQuantity(q)) else Filter(l, WithQuantity(q))
    decreases |l|
  {
    var p := WithQuantity(q);
    if l == [] || e.quantity >= l[0].quantity {
      FilterCons(e, l, p);
    } else {
      InsertStable(e, l[1..], q);
      FilterCons(l[0], Insert(e, l[1..]), p);
      FilterCons(l[0], l[1..], p);
      assert l == [l[0]] + l[1..];
    }
  }

  /** The sort is stable: entries of equal quantity keep their order. */
  lemma {:induction false} SortStable(l: seq<TopEntry>, q: int)
    ensures Filter(SortDesc(l), WithQuantity(q)) == Filter(l, WithQuantity(q))
    decreases |l|
  {
    if l != [] {
      SortStable(l[1..], q);
      InsertStable(l[0], SortDesc(l[1..]), q);
      FilterCons(l[0], l[1..], WithQuantity(q));
      assert l == [l[0]] + l[1..];
    }
  }

  /** Among entries of equal quantity, the best-seller list keeps the order in
      which their names were first met: its entries of quantity `q` are the
      first ones of that quantity among all the per-name totals. */
  lemma TopTiesKeepFirstSeenOrder(items: seq<CartItem>, q: int)
    ensures var top := Take(SortDesc(NameEntries(items)), 5);
      var ties := Filter(NameEntries(items), WithQuantity(q));
      |Filter(top, WithQuantity(q))| <= |ties| && Filter(top, WithQuantity(q)) == ties[..|Filter(top, WithQuantity(q))|]
  {
    var sorted := SortDesc(NameEntries(items));
    SortStable(NameEntries(items), q);
    FilterPrefix(sorted, |Take(sorted, 5)|, WithQuantity(q));
  }

  /** The first `n` entries of a sorted list are at least as large as every
      entry left out. */
  lemma TakeSortedIsTop(l: seq<TopEntry>, n: nat)
    requires SortedDesc(l)
    ensures forall e, i :: e in l && e !in Take(l, n) && 0 <= i < |Take(l, n)| ==> e.quantity <= Take(l, n)[i].quantity
  {
    var t := Take(l, n);
    forall e, i | e in l && e !in t && 0 <= i < |t|
      ensures e.quantity <= t[i].quantity
    {
      var j :| 0 <= j < |l| && l[j] == e;
      assert t[i] == l[i];
      if j < |t| {
        assert false;
      }
    }
  }

  /** An element met twice is counted twice. */
  lemma RepeatCounted<T>(s: seq<T>, i: nat, j: nat)
    requires i < j < |s| && s[i] == s[j]
    ensures multiset(s)[s[i]] >= 2
  {
    assert s == s[..i] + [s[i]] + s[i + 1..j] + [s[j]] + s[j + 1..];
  }

  /** In a sequence without repetitions every element is counted at most once. */
  lemma {:induction false} DistinctCountedOnce<T>(s: seq<T>, x: T)
    requires forall i, j :: 0 <= i < j < |s| ==> s[i] != s[j]
    ensures multiset(s)[x] <= 1
  {
    if s != [] {
      assert s == [s[0]] + s[1..];
      DistinctCountedOnce(s[1..], x);
      if x == s[0] {
        assert x !in s[1..];
      }
    }
  }

  /** Sorting entries with pairwise different names keeps the names pairwise
      different. */
  lemma SortKeepsNamesDistinct(entries: seq<TopEntry>)
    requires forall i, j :: 0 <= i < j < |entries| ==> entries[i].name != entries[j].name
    ensures forall i, j :: 0 <= i < j < |SortDesc(entries)| ==> SortDesc(entries)[i].name != SortDesc(entries)[j].name
  {
    var sorted := SortDesc(entries);
    forall i, j | 0 <= i < j < |sorted|
      ensures sorted[i].name != sorted[j].name
    {
      if sorted[i].name == sorted[j].name {
        var a, b := sorted[i], sorted[j];
        assert a in multiset(entries) && b in multiset(entries);
        var x :| 0 <= x < |entries| && entries[x] == a;
        var y :| 0 <= y < |entries| && entries[y] == b;
        assert x == y;
        RepeatCounted(sorted, i, j);
        DistinctCountedOnce(entries, a);
      }
    }
  }

  /** `Object.entries` of the per-name totals of `items`, in key order. */
  function NameEntries(items: seq<CartItem>): (es: seq<TopEntry>)
    ensures |es| == |KeysInOrder(items, ItemName)|
    ensures forall i :: 0 <= i < |es| ==>
      es[i] == TopEntry(KeysInOrder(items, ItemName)[i], KeyTotal(items, ItemName, LineQuantity, KeysInOrder(items, ItemName)[i]))
  {
    var names := KeysInOrder(items, ItemName);
    seq(|names|, i requires 0 <= i < |names| => TopEntry(names[i], KeyTotal(items, ItemName, LineQuantity, names[i])))
  }

  /** The first five of the sorted entries: as many as there are entries up
      to five, largest first, all drawn from the entries, and no entry left out
      larger than a kept one. */
  lemma TopFromEntries(entries: seq<TopEntry>)
    ensures var top := Take(SortDesc(entries), 5);
      && |top| == (if |entries| < 5 then |entries| else 5)
      && SortedDesc(top)
      && (forall i :: 0 <= i < |top| ==> top[i] in entries)
      && (forall x, i :: x in entries && x !in top && 0 <= i < |top| ==> x.quantity <= top[i].quantity)
  {
    var sorted := SortDesc(entries);
    var top := Take(sorted, 5);
    assert |sorted| == |multiset(sorted)| == |multiset(entries)| == |entries|;
    forall i | 0 <= i < |top|
      ensures top[i] in entries
    {
      assert top[i] == sorted[i] && sorted[i] in multiset(entries);
    }
    TakeSortedIsTop(sorted, 5);
    forall x | x in entries
      ensures x in sorted
    {
      assert x in multiset(sorted);
    }
  }

  /** Every entry of the per-name totals is a sold name with its own total. */
  lemma NameEntriesAreTotals(items: seq<CartItem>)
    ensures forall e :: e in NameEntries(items) ==>
      e.name in KeysInOrder(items, ItemName) && e.quantity == KeyTotal(items, ItemName, LineQuantity, e.name)
  {
    var entries := NameEntries(items);
    forall e | e in entries
      ensures e.name in KeysInOrder(items, ItemName) && e.quantity == KeyTotal(items, ItemName, LineQuantity, e.name)
    {
      var x :| 0 <= x < |entries| && entries[x] == e;
    }
  }

  /** The top list of entries with pairwise different names has pairwise
      different names. */
  lemma TopKeepsNamesDistinct(entries: seq<TopEntry>)
    requires forall i, j :: 0 <= i < j < |entries| ==> entries[i].name != entries[j].name
    ensures var top := Take(SortDesc(entries), 5);
      forall i, j :: 0 <= i < j < |top| ==> top[i].name != top[j].name
  {
    var sorted := SortDesc(entries);
    SortKeepsNamesDistinct(entries);
    var top := Take(sorted, 5);
    assert forall i :: 0 <= i < |top| ==> top[i] == sorted[i];
  }

  /** The best-seller list of `items`: as many entries as names up to five,
      largest first, each a name with its own total, and no name twice. */
  lemma TopEntriesAreTotals(items: seq<CartItem>)
    ensures var top := Take(SortDesc(NameEntries(items)), 5);
      && |top| == (if |KeysInOrder(items, ItemName)| < 5 then |KeysInOrder(items, ItemName)| else 5)
      && SortedDesc(top)
      && (forall i :: 0 <= i < |top| ==>
            top[i].name in KeysInOrder(items, ItemName) &&
            top[i].quantity == KeyTotal(items, ItemName, LineQuantity, top[i].name))
      && (forall i, j :: 0 <= i < j < |top| ==> top[i].name != top[j].name)
  {
    var entries := NameEntries(items);
    TopFromEntries(entries);
    NameEntriesAreTotals(items);
    TopKeepsNamesDistinct(entries);
  }

  /** No name left out of the best-seller list sold more than a listed one. */
  lemma TopEntriesAreTop(items: seq<CartItem>)
    ensures var top := Take(SortDesc(NameEntries(items)), 5);
      forall k, i :: k in KeysInOrder(items, ItemName) &&
                     TopEntry(k, KeyTotal(items, ItemName, LineQuantity, k)) !in top && 0 <= i < |top| ==>
        KeyTotal(items, ItemName, LineQuantity, k) <= top[i].quantity
  {
    var names := KeysInOrder(items, ItemName);
    var entries := NameEntries(items);
    TopFromEntries(entries);
    forall k | k in names
      ensures TopEntry(k, KeyTotal(items, ItemName, LineQuantity, k)) in entries
    {
      var x :| 0 <= x < |names| && names[x] == k;
      assert entries[x] == TopEntry(k, KeyTotal(items, ItemName, LineQuantity, k));
    }
  }

  /** `topProducts` and `sortedTopProducts`: the units sold per product name,
      at most five entries, largest first, each the total of its name, every
      name sold left out selling no more than any listed one. */
  method TopProducts(sales: seq<Sale>) returns (top: seq<TopEntry>)
    ensures top == Take(SortDesc(NameEntries(Flatten(sales))), 5)
    ensures |top| == if |KeysInOrder(Flatten(sales), ItemName)| < 5 then |KeysInOrder(Flatten(sales), ItemName)| else 5
    ensures SortedDesc(top)
    ensures forall i :: 0 <= i < |top| ==>
      top[i].name in KeysInOrder(Flatten(sales), ItemName) &&
      top[i].quantity == KeyTotal(Flatten(sales), ItemName, LineQuantity, top[i].name)
    ensures forall i, j :: 0 <= i < j < |top| ==> top[i].name != top[j].name
    ensures forall k, i :: k in KeysInOrder(Flatten(sales), ItemName) &&
                           TopEntry(k, KeyTotal(Flatten(sales), ItemName, LineQuantity, k)) !in top && 0 <= i < |top| ==>
      KeyTotal(Flatten(sales), ItemName, LineQuantity, k) <= top[i].quantity
  {
    var items := Flatten(sales);
    var names, totals := GroupTotals(items, ItemName, LineQuantity);
    var entries := seq(|names|, i requires 0 <= i < |names| => TopEntry(names[i], totals[names[i]]));
    assert entries == NameEntries(items);
    TopEntriesAreTotals(items);
    TopEntriesAreTop(items);
    top := Take(SortDesc(entries), 5);
  }
}
