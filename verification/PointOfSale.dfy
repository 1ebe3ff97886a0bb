/** Point-of-sale stock: what selling and reversing whole baskets does to it. */
module PointOfSale {
  import opened Sums
  import opened Rows

  datatype Product = Product(stationId: Id, section: string, price: real, stock: real, tracked: bool, active: bool)
  datatype Line = Line(productId: Id, quantity: real)
  datatype Item = Item(productId: Id, quantity: real, unitPrice: real, lineTotal: real)
  datatype PosSale = PosSale(stationId: Id, section: string, totalAmount: real, items: seq<Item>, isReversed: bool)
  datatype SaleRequest = SaleRequest(stationId: Id, section: string, lines: seq<Line>)
  datatype Shop = Shop(products: seq<Product>, sales: seq<PosSale>)

  datatype PosFault =
    | NotAuthorised | InvalidSection | NoItems | BadQuantity | ProductNotFound | WrongStation
    | WrongSection | InactiveProduct | OutOfStock | SaleNotFound | AlreadyReversed

  const SECTIONS := {"mart", "service_station", "tyre_shop", "other"}

  // ---------------------------------------------------------------- specification

  function LineFault(products: seq<Product>, d: SaleRequest, line: Line): Option<PosFault> {
    if line.quantity <= 0.0 then Some(BadQuantity)
    else if line.productId >= |products| then Some(ProductNotFound)
    else
      var product := products[line.productId];
      if product.stationId != d.stationId then Some(WrongStation)
      else if product.section != d.section then Some(WrongSection)
      else if !product.active then Some(InactiveProduct)
      else if product.tracked && product.stock < line.quantity then Some(OutOfStock)
      else None
  }

  /** The fault of the first line that has one. */
  function FirstFault(products: seq<Product>, d: SaleRequest, lines: seq<Line>): (r: Option<PosFault>)
    ensures r.None? <==> forall i :: 0 <= i < |lines| ==> LineFault(products, d, lines[i]).None?
  {
    if lines == [] then None
    else
      var earlier := FirstFault(products, d, lines[..|lines| - 1]);
      if earlier.Some? then earlier else LineFault(products, d, lines[|lines| - 1])
  }

  function SaleFault(shop: Shop, authorised: bool, d: SaleRequest): Option<PosFault> {
    if !authorised then Some(NotAuthorised)
    else if d.section !in SECTIONS then Some(InvalidSection)
    else if d.lines == [] then Some(NoItems)
    else FirstFault(shop.products, d, d.lines)
  }

  function ItemOf(product: Product, line: Line): Item {
    Item(line.productId, line.quantity, product.price, line.quantity * product.price)
  }

  predicate LinesKnown(products: seq<Product>, lines: seq<Line>) {
    forall i :: 0 <= i < |lines| ==> lines[i].productId < |products|
  }

  /** The lines as they are booked, at today's prices. */
  function Priced(products: seq<Product>, lines: seq<Line>): (r: seq<Item>)
    requires LinesKnown(products, lines)
    ensures |r| == |lines|
  {
    if lines == [] then []
    else Priced(products, lines[..|lines| - 1]) + [ItemOf(products[lines[|lines| - 1].productId], lines[|lines| - 1])]
  }

  function LineTotal(): Item -> real { (x: Item) => x.lineTotal }

  function QuantityFor(p: Id): Item -> real { (x: Item) => if x.productId == p then x.quantity else 0.0 }

  function StockAfter(product: Product, quantity: real, back: bool): real {
    if !product.tracked then product.stock else if back then product.stock + quantity else product.stock - quantity
  }

  /** Every tracked product's stock, moved by all its lines: out of stock, or back into it. */
  function Moved(products: seq<Product>, items: seq<Item>, back: bool): (r: seq<Product>)
    ensures |r| == |products|
    ensures forall p :: 0 <= p < |r| ==>
      r[p] == products[p].(stock := StockAfter(products[p], Sum(items, QuantityFor(p)), back))
  {
    seq(|products|, p requires 0 <= p < |products| =>
      products[p].(stock := StockAfter(products[p], Sum(items, QuantityFor(p)), back)))
  }

  function SaleOf(products: seq<Product>, d: SaleRequest): PosSale
    requires LinesKnown(products, d.lines)
  {
    var items := Priced(products, d.lines);
    PosSale(d.stationId, d.section, Sum(items, LineTotal()), items, false)
  }

  function SaleEffect(shop: Shop, authorised: bool, d: SaleRequest): Shop
    requires SaleFault(shop, authorised, d).None?
  {
    LinesExist(shop.products, d);
    var sale := SaleOf(shop.products, d);
    Shop(Moved(shop.products, sale.items, false), shop.sales + [sale])
  }

  lemma LinesExist(products: seq<Product>, d: SaleRequest)
    requires FirstFault(products, d, d.lines).None?
    ensures LinesKnown(products, d.lines)
  {
    assert forall i :: 0 <= i < |d.lines| ==> LineFault(products, d, d.lines[i]).None?;
  }

  function ReverseFault(shop: Shop, authorised: bool, i: Id): Option<PosFault> {
    if i >= |shop.sales| then Some(SaleNotFound)
    else if !authorised then Some(NotAuthorised)
    else if shop.sales[i].isReversed then Some(AlreadyReversed)
    else None
  }

  function ReverseEffect(shop: Shop, i: Id): Shop
    requires i < |shop.sales|
  {
    Shop(Moved(shop.products, shop.sales[i].items, true), shop.sales[i := shop.sales[i].(isReversed := true)])
  }

  // ---------------------------------------------------------------- the service

  class Till {
    var shop: Shop

    constructor (s: Shop)
      ensures shop == s
    {
      shop := s;
    }

    /** Moves the stock of the item's product, if it is tracked. */
    method MoveStock(items: seq<Item>, k: nat, back: bool, ghost products: seq<Product>)
      requires k < |items| && shop.products == Moved(products, items[..k], back)
      modifies this
      ensures shop == old(shop).(products := Moved(products, items[..k + 1], back))
    {
      var item := items[k];
      assert items[..k + 1] == items[..k] + [item];
      SumsAppend(items[..k], item);
      if item.productId < |shop.products| && shop.products[item.productId].tracked {
        var product := shop.products[item.productId];
        var stock := if back then product.stock + item.quantity else product.stock - item.quantity;
        shop := shop.(products := shop.products[item.productId := product.(stock := stock)]);
      }
      assert shop.products == Moved(products, items[..k + 1], back);
    }

    /** The first pass over the basket: checks each line against today's stock and totals it. */
    method CollectItems(d: SaleRequest) returns (f: Option<PosFault>, items: seq<Item>, total: real)
      ensures f == FirstFault(shop.products, d, d.lines)
      ensures f.None? ==> LinesKnown(shop.products, d.lines)
      ensures f.None? ==> items == Priced(shop.products, d.lines) && total == Sum(items, LineTotal())
    {
      f, items, total := None, [], 0.0;
      for i := 0 to |d.lines|
        invariant FirstFault(shop.products, d, d.lines[..i]).None? && f.None?
        invariant LinesKnown(shop.products, d.lines[..i])
        invariant items == Priced(shop.products, d.lines[..i]) && total == Sum(items, LineTotal())
      {
        var line := d.lines[i];
        FaultAt(shop.products, d, d.lines, i);
        f := CheckLine(d, line);
        if f.Some? { return; }
        var product := shop.products[line.productId];
        var item := ItemOf(product, line);
        assert d.lines[..i + 1][..i] == d.lines[..i];
        SumAppend(items, item, LineTotal());
        items := items + [item];
        total := total + item.lineTotal;
      }
      assert d.lines[..|d.lines|] == d.lines;
    }

    method CheckLine(d: SaleRequest, line: Line) returns (f: Option<PosFault>)
      ensures f == LineFault(shop.products, d, line)
    {
      if line.quantity <= 0.0 { return Some(BadQuantity); }
      if line.productId >= |shop.products| { return Some(ProductNotFound); }
      var product := shop.products[line.productId];
      if product.stationId != d.stationId { return Some(WrongStation); }
      if product.section != d.section { return Some(WrongSection); }
      if !product.active { return Some(InactiveProduct); }
      if product.tracked && product.stock < line.quantity { return Some(OutOfStock); }
      return None;
    }

    method CreateSale(authorised: bool, d: SaleRequest) returns (r: Option<PosFault>)
      modifies this
      ensures r == SaleFault(old(shop), authorised, d)
      ensures shop == if r.Some? then old(shop) else SaleEffect(old(shop), authorised, d)
    {
      if !authorised { return Some(NotAuthorised); }
      if d.section !in SECTIONS { return Some(InvalidSection); }
      if d.lines == [] { return Some(NoItems); }
      var f, items, total := CollectItems(d);
      if f.Some? { return f; }
      shop := shop.(sales := shop.sales + [PosSale(d.stationId, d.section, total, items, false)]);
      NothingMoved(shop.products, items, false);
      for k := 0 to |items|
        invariant shop.sales == old(shop).sales + [PosSale(d.stationId, d.section, total, items, false)]
        invariant shop.products == Moved(old(shop).products, items[..k], false)
      {
        MoveStock(items, k, false, old(shop).products);
      }
      assert items[..|items|] == items;
      return None;
    }

    method ReverseSale(authorised: bool, i: Id) returns (r: Option<PosFault>)
      modifies this
      ensures r == ReverseFault(old(shop), authorised, i)
      ensures shop == if r.Some? then old(shop) else ReverseEffect(old(shop), i)
    {
      if i >= |shop.sales| { return Some(SaleNotFound); }
      if !authorised { return Some(NotAuthorised); }
      if shop.sales[i].isReversed { return Some(AlreadyReversed); }
      var items := shop.sales[i].items;
      NothingMoved(shop.products, items, true);
      for k := 0 to |items|
        invariant shop.sales == old(shop).sales
        invariant shop.products == Moved(old(shop).products, items[..k], true)
      {
        MoveStock(items, k, true, old(shop).products);
      }
      assert items[..|items|] == items;
      shop := shop.(sales := shop.sales[i := shop.sales[i].(isReversed := true)]);
      return None;
    }
  }

  lemma NothingMoved(products: seq<Product>, items: seq<Item>, back: bool)
    ensures Moved(products, items[..0], back) == products
  {
  }

  /** A fault at the first faulty line is the fault of the whole basket. */
  lemma {:induction false} FaultAt(products: seq<Product>, d: SaleRequest, lines: seq<Line>, i: nat)
    requires i < |lines| && FirstFault(products, d, lines[..i]).None?
    ensures FirstFault(products, d, lines[..i + 1]) == LineFault(products, d, lines[i])
    ensures LineFault(products, d, lines[i]).Some? ==>
      FirstFault(products, d, lines) == LineFault(products, d, lines[i])
    decreases |lines|
  {
    assert lines[..i + 1][..i] == lines[..i];
    if i + 1 < |lines| {
      var last := |lines| - 1;
      assert lines[..last][..i] == lines[..i];
      FaultAt(products, d, lines[..last], i);
    } else {
      assert lines[..i + 1] == lines;
    }
  }

  // ---------------------------------------------------------------- selling and taking back

  /** An accepted sale lowers each tracked product's stock by exactly the sum of its lines, leaves
      the others alone, and totals its lines; reversing it at once restores every stock, also when
      lines repeat a product. */
  lemma SellAndTakeBack(shop: Shop, d: SaleRequest)
    requires SaleFault(shop, true, d).None?
    ensures
      var sold := SaleEffect(shop, true, d);
      && ReverseFault(sold, true, |shop.sales|).None?
      && ReverseEffect(sold, |shop.sales|).products == shop.products
      && sold.sales[|shop.sales|].totalAmount == Sum(sold.sales[|shop.sales|].items, LineTotal())
  {
    var sold := SaleEffect(shop, true, d);
    var back := ReverseEffect(sold, |shop.sales|);
    forall p | 0 <= p < |shop.products| ensures back.products[p] == shop.products[p] {
    }
  }

  /** What a request's lines cost at today's prices. */
  function Cost(products: seq<Product>, lines: seq<Line>): real
    requires LinesKnown(products, lines)
  {
    if lines == [] then 0.0
    else
      var line := lines[|lines| - 1];
      Cost(products, lines[..|lines| - 1]) + line.quantity * products[line.productId].price
  }

  lemma {:induction false} LinesCost(products: seq<Product>, lines: seq<Line>)
    requires LinesKnown(products, lines)
    ensures Sum(Priced(products, lines), LineTotal()) == Cost(products, lines)
  {
    if lines != [] {
      var last := |lines| - 1;
      LinesCost(products, lines[..last]);
      SumAppend(Priced(products, lines[..last]), ItemOf(products[lines[last].productId], lines[last]), LineTotal());
    }
  }

  lemma {:induction false} LinesPriced(products: seq<Product>, lines: seq<Line>, i: nat)
    requires LinesKnown(products, lines) && i < |lines|
    ensures Priced(products, lines)[i] == ItemOf(products[lines[i].productId], lines[i])
  {
    if i < |lines| - 1 {
      LinesPriced(products, lines[..|lines| - 1], i);
    }
  }

  /** What the till asks of a request and of its products. */
  predicate Sellable(shop: Shop, d: SaleRequest) {
    && (d.section == "mart" || d.section == "service_station" || d.section == "tyre_shop" || d.section == "other")
    && d.lines != []
    && forall i :: 0 <= i < |d.lines| ==>
         && d.lines[i].quantity > 0.0 && d.lines[i].productId < |shop.products|
         && var product := shop.products[d.lines[i].productId];
         && product.stationId == d.stationId && product.section == d.section && product.active
         && (product.tracked ==> d.lines[i].quantity <= product.stock)
  }

  lemma AcceptedIfSellable(shop: Shop, d: SaleRequest)
    ensures SaleFault(shop, true, d).None? <==> Sellable(shop, d)
  {
    if SaleFault(shop, true, d).None? || Sellable(shop, d) {
      forall i | 0 <= i < |d.lines| ensures LineFault(shop.products, d, d.lines[i]).None? {
      }
    }
  }

  /** The item is the line at the product's price. */
  predicate Booked(item: Item, products: seq<Product>, line: Line) {
    && item.productId == line.productId < |products| && item.quantity == line.quantity
    && item.unitPrice == products[line.productId].price && item.lineTotal == item.quantity * item.unitPrice
  }

  /** The sale stands, books each line at the product's price, and totals what the lines cost. */
  ghost predicate BooksLines(sale: PosSale, products: seq<Product>, d: SaleRequest) {
    && sale.stationId == d.stationId && sale.section == d.section && !sale.isReversed
    && LinesKnown(products, d.lines) && sale.totalAmount == Cost(products, d.lines) && |sale.items| == |d.lines|
    && forall i :: 0 <= i < |d.lines| ==> Booked(sale.items[i], products, d.lines[i])
  }

  /** A request is accepted exactly when its lines can be sold one by one, and then adds one sale that
      books them. */
  lemma SaleBooksLines(shop: Shop, d: SaleRequest)
    ensures SaleFault(shop, true, d).None? <==> Sellable(shop, d)
    ensures SaleFault(shop, false, d).Some?
    ensures Sellable(shop, d) ==>
      var sales := SaleEffect(shop, true, d).sales;
      && |sales| == |shop.sales| + 1 && sales[..|shop.sales|] == shop.sales
      && BooksLines(sales[|shop.sales|], shop.products, d)
  {
    AcceptedIfSellable(shop, d);
    if Sellable(shop, d) {
      LinesExist(shop.products, d);
      LinesCost(shop.products, d.lines);
      forall i | 0 <= i < |d.lines| ensures Booked(SaleOf(shop.products, d).items[i], shop.products, d.lines[i]) {
        LinesPriced(shop.products, d.lines, i);
      }
    }
  }

  predicate DistinctProducts(lines: seq<Line>) {
    forall i, j :: 0 <= i < j < |lines| ==> lines[i].productId != lines[j].productId
  }

  /** How much of a product the lines of a request ask for together. */
  function Asked(lines: seq<Line>, p: Id): real {
    if lines == [] then 0.0
    else
      var line := lines[|lines| - 1];
      Asked(lines[..|lines| - 1], p) + if line.productId == p then line.quantity else 0.0
  }

  lemma {:induction false} BookedAsAsked(products: seq<Product>, lines: seq<Line>, p: Id)
    requires LinesKnown(products, lines)
    ensures Sum(Priced(products, lines), QuantityFor(p)) == Asked(lines, p)
  {
    if lines != [] {
      var last := |lines| - 1;
      BookedAsAsked(products, lines[..last], p);
      SumAppend(Priced(products, lines[..last]), ItemOf(products[lines[last].productId], lines[last]), QuantityFor(p));
    }
  }

  /** With one line per product, the lines ask for a product at most once. */
  lemma {:induction false} OneLineEach(lines: seq<Line>, p: Id)
    requires DistinctProducts(lines)
    ensures Asked(lines, p) == 0.0
            || exists i :: 0 <= i < |lines| && lines[i].productId == p && Asked(lines, p) == lines[i].quantity
    ensures (forall i :: 0 <= i < |lines| ==> lines[i].productId != p) ==> Asked(lines, p) == 0.0
  {
    if lines != [] {
      var last := |lines| - 1;
      OneLineEach(lines[..last], p);
      assert forall i :: 0 <= i < last ==> lines[..last][i] == lines[i];
    }
  }

  lemma OneLineFits(products: seq<Product>, d: SaleRequest, p: Id)
    requires FirstFault(products, d, d.lines).None? && p < |products| && products[p].tracked
    ensures forall i :: 0 <= i < |d.lines| && d.lines[i].productId == p ==> d.lines[i].quantity <= products[p].stock
  {
    assert forall i :: 0 <= i < |d.lines| ==> LineFault(products, d, d.lines[i]).None?;
  }

  /** An accepted request takes from a tracked product what its lines ask for together, so the stock
      stays non-negative exactly when that is no more than there was; a request whose lines name
      distinct products never asks for more. */
  lemma StockStaysNonNegative(shop: Shop, d: SaleRequest, p: Id)
    requires SaleFault(shop, true, d).None? && p < |shop.products| && shop.products[p].tracked
    ensures
      var sold := SaleEffect(shop, true, d);
      && sold.products[p].stock == shop.products[p].stock - Asked(d.lines, p)
      && (sold.products[p].stock >= 0.0 <==> Asked(d.lines, p) <= shop.products[p].stock)
      && (DistinctProducts(d.lines) && shop.products[p].stock >= 0.0 ==> sold.products[p].stock >= 0.0)
  {
    LinesExist(shop.products, d);
    BookedAsAsked(shop.products, d.lines, p);
    if DistinctProducts(d.lines) {
      OneLineEach(d.lines, p);
      OneLineFits(shop.products, d, p);
    }
  }

  /** A basket naming one product twice is checked line by line: each line may pass while both
      together overdraw the stock. */
  lemma TwinLinesOverdraw(shop: Shop, d: SaleRequest, line: Line)
    requires SaleFault(shop, true, d).None? && d.lines == [line, line]
    requires line.productId < |shop.products| && shop.products[line.productId].tracked
    ensures
      var p := line.productId;
      && SaleEffect(shop, true, d).products[p].stock == shop.products[p].stock - line.quantity - line.quantity
      && (SaleEffect(shop, true, d).products[p].stock < 0.0 <==> shop.products[p].stock < line.quantity + line.quantity)
  {
    StockStaysNonNegative(shop, d, line.productId);
    assert [line, line][..1] == [line] && [line][..0] == [];
    assert Asked([line], line.productId) == line.quantity;
  }

  const FIVE_LEFT := Shop([Product(0, "mart", 1.0, 5.0, true, true)], [])
  const TWICE_THREE := SaleRequest(0, "mart", [Line(0, 3.0), Line(0, 3.0)])

  /** Two lines of three are accepted against a stock of five, and leave it at minus one. */
  lemma TwinLinesAccepted()
    ensures SaleFault(FIVE_LEFT, true, TWICE_THREE).None?
    ensures SaleEffect(FIVE_LEFT, true, TWICE_THREE).products[0].stock == -1.0
  {
    assert LineFault(FIVE_LEFT.products, TWICE_THREE, Line(0, 3.0)).None?;
    TwinLinesOverdraw(FIVE_LEFT, TWICE_THREE, Line(0, 3.0));
  }

  // ---------------------------------------------------------------- whole runs

  datatype PosCall = Sell(authorised: bool, request: SaleRequest) | TakeBack(authorised: bool, saleId: Id)

  function Step(shop: Shop, call: PosCall): Shop {
    match call
    case Sell(a, d) => if SaleFault(shop, a, d).None? then SaleEffect(shop, a, d) else shop
    case TakeBack(a, i) => if ReverseFault(shop, a, i).None? then ReverseEffect(shop, i) else shop
  }

  function Run(shop: Shop, calls: seq<PosCall>): Shop {
    if calls == [] then shop else Step(Run(shop, calls[..|calls| - 1]), calls[|calls| - 1])
  }

  /** What of a product has left with a sale that stands. */
  function SoldOf(p: Id): PosSale -> real {
    (s: PosSale) => if s.isReversed then 0.0 else Sum(s.items, QuantityFor(p))
  }

  /** After any run of sales and reversals, a tracked product's stock is what it was less everything
      in sales that stand, and an untracked one's has not moved. */
  lemma {:induction false} StockConservation(shop: Shop, calls: seq<PosCall>, p: Id)
    requires shop.sales == [] && p < |shop.products|
    ensures
      var now := Run(shop, calls);
      && |now.products| == |shop.products|
      && now.products[p] == shop.products[p].(stock :=
           shop.products[p].stock - if shop.products[p].tracked then Sum(now.sales, SoldOf(p)) else 0.0)
  {
    if calls != [] {
      var last := |calls| - 1;
      var s := Run(shop, calls[..last]);
      StockConservation(shop, calls[..last], p);
      match calls[last]
      case Sell(a, d) =>
        if SaleFault(s, a, d).None? {
          LinesExist(s.products, d);
          SumAppend(s.sales, SaleOf(s.products, d), SoldOf(p));
        }
      case TakeBack(a, i) =>
        if ReverseFault(s, a, i).None? {
          SumUpdate(s.sales, i, s.sales[i].(isReversed := true), SoldOf(p));
        }
    }
  }
}
