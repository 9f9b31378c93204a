/** The dashboard of the Supabase generation (src/components/Dashboard.tsx):
    revenue, the count of products running low, the list sizes, and the most
    recent sales. */
module SrcDashboard {
  import opened Seqs
  import opened SrcTypes

  /** The stock at or below which a product counts as running low. */
  const LowStockThreshold: int := 10

  function SaleTotal(s: Sale): int { s.total }

  predicate IsLowStock(p: Product) { p.stock <= LowStockThreshold }

  /** `totalRevenue`. */
  function TotalRevenue(sales: seq<Sale>): (r: int)
    ensures sales == [] ==> r == 0
    ensures (forall i :: 0 <= i < |sales| ==> sales[i].total >= 0) ==> r >= 0
  {
    SumOfSign(sales, SaleTotal);
    SumOf(sales, SaleTotal)
  }

  /** A sale put in front of the list adds its total to the revenue. */
  lemma RevenueAfterInsert(s: Sale, sales: seq<Sale>)
    ensures TotalRevenue([s] + sales) == s.total + TotalRevenue(sales)
  {
    SumOfConcat([s], sales, SaleTotal);
    assert [s][..0] == [];
  }

  /** `lowStockItems`: the number of products whose stock is 10 or less. */
  function LowStockCount(products: seq<Product>): (n: nat)
    ensures n == Count(products, IsLowStock)
    ensures n <= |products|
  {
    |Filter(products, IsLowStock)|
  }

  /** The count is zero exactly when no product is low, and the whole list
      exactly when every product is. */
  lemma LowStockExtremes(products: seq<Product>)
    ensures LowStockCount(products) == 0 <==> forall i :: 0 <= i < |products| ==> products[i].stock > LowStockThreshold
    ensures LowStockCount(products) == |products| <==> forall i :: 0 <= i < |products| ==> products[i].stock <= LowStockThreshold
  {
    CountExtremes(products, IsLowStock);
  }

  /** The "Ventas Recientes" list: the first five sales, or all when fewer. */
  function RecentSales(sales: seq<Sale>): (r: seq<Sale>)
    ensures |r| == if |sales| < 5 then |sales| else 5
    ensures r == sales[..|r|]
  {
    Take(sales, 5)
  }

  /** A sale put in front of the list heads the recent sales, followed by the
      recent sales before it but the fifth. */
  lemma RecentAfterInsert(s: Sale, sales: seq<Sale>)
    ensures RecentSales([s] + sales) == [s] + Take(sales, 4)
  {
  }
}
