/** Item validation with a price snapshot (`validateAndPrepareItems`) and
    stock reservation and release (`decrementStock`, `incrementStock`).

    As written, every item is checked against the stock the product had
    before the order, and every item is then subtracted: two lines naming the
    same product can each pass and together overdraw it
    (DuplicateItemOverdrawsStock). ValidateAndPrepareItemsCumulative is the
    corrected check, which counts what earlier lines of the same order already
    take of the product; the corrected checkout (OrderService.CreateCorrected)
    is built on it, while checkout as written uses ValidateAndPrepareItems. */
module Reservation {
  import opened Seqs
  import opened Model
  import opened Products

  /** One line of an order request as the client sent it: the product id
      ("" when it is missing or falsy) and the quantity (None when it is
      missing or not an integer). */
  datatype ItemRequest = ItemRequest(productId: string, quantity: Option<int>)

  /** A valid product id and a positive integer quantity. */
  predicate WellFormed(it: ItemRequest)
  {
    it.productId != "" && it.quantity.Some? && it.quantity.value > 0
  }

  /** The total quantity that `items` take of product `pid`. */
  function QtyFor(items: seq<LineItem>, pid: string): int
    decreases |items|
  {
    if |items| == 0 then 0
    else
      var last := items[|items| - 1];
      QtyFor(items[..|items| - 1], pid) + (if last.productId == pid then last.quantity else 0)
  }

  /** The checks of one loop iteration of validateAndPrepareItems, in their
      order. `reserved` is what earlier lines of the same order already take
      of the product: always 0 as written, the running total when corrected. */
  function CheckItem(ps: seq<Product>, it: ItemRequest, reserved: int): (r: Result<LineItem>)
    ensures r == Err(ValidationError) <==> !WellFormed(it)
    ensures r == Err(NotFound) <==>
      WellFormed(it) && (Find(ps, HasProductId(it.productId)).None? || !Find(ps, HasProductId(it.productId)).value.isActive)
    ensures r == Err(InsufficientStock) <==>
      && WellFormed(it) && Find(ps, HasProductId(it.productId)).Some?
      && Find(ps, HasProductId(it.productId)).value.isActive
      && Find(ps, HasProductId(it.productId)).value.stock < reserved + it.quantity.value
    ensures r.Ok? ==>
      && WellFormed(it)
      && Find(ps, HasProductId(it.productId)).Some?
      && Find(ps, HasProductId(it.productId)).value.isActive
      && Find(ps, HasProductId(it.productId)).value.stock >= reserved + it.quantity.value
      && r.value == LineItem(it.productId, it.quantity.value, Find(ps, HasProductId(it.productId)).value.price)
  {
    if !WellFormed(it) then Err(ValidationError)
    else match Find(ps, HasProductId(it.productId))
      case None => Err(NotFound)
      case Some(p) =>
        if !p.isActive then Err(NotFound)
        else if p.stock < reserved + it.quantity.value then Err(InsufficientStock)
        else Ok(LineItem(it.productId, it.quantity.value, p.price))
  }

  /** The rest of the loop of validateAndPrepareItems once `prior` lines are
      prepared: the first failing item's error, or all prepared lines. */
  function PrepareFrom(ps: seq<Product>, items: seq<ItemRequest>, prior: seq<LineItem>,
                       cumulative: bool): Result<seq<LineItem>>
    decreases |items|
  {
    if |items| == 0 then Ok(prior)
    else
      var reserved := if cumulative then QtyFor(prior, items[0].productId) else 0;
      match CheckItem(ps, items[0], reserved)
      case Err(e) => Err(e)
      case Ok(li) => PrepareFrom(ps, items[1..], prior + [li], cumulative)
  }

  /** What validateAndPrepareItems returns for `items` against store `ps`:
      an empty list is a validation error. */
  function Prepared(ps: seq<Product>, items: seq<ItemRequest>, cumulative: bool): Result<seq<LineItem>>
  {
    if |items| == 0 then Err(ValidationError) else PrepareFrom(ps, items, [], cumulative)
  }

  /** The line item frozen for request `it`: same product and quantity, the
      unit price the active product has now. */
  predicate Snapshot(ps: seq<Product>, it: ItemRequest, li: LineItem)
  {
    && WellFormed(it)
    && Find(ps, HasProductId(it.productId)).Some?
    && Find(ps, HasProductId(it.productId)).value.isActive
    && li == LineItem(it.productId, it.quantity.value, Find(ps, HasProductId(it.productId)).value.price)
  }

  // ----- validation as written -----

  /** `validateAndPrepareItems`, as written: each item is checked against the
      unchanged store. It reads the store and changes nothing. */
  method ValidateAndPrepareItems(products: ProductRepository, items: seq<ItemRequest>)
    returns (r: Result<seq<LineItem>>)
    ensures r == Prepared(products.products, items, false)
  {
    if |items| == 0 {
      return Err(ValidationError);
    }
    var prepared: seq<LineItem> := [];
    var i := 0;
    while i < |items|
      invariant 0 <= i <= |items|
      invariant PrepareFrom(products.products, items[i..], prepared, false)
             == PrepareFrom(products.products, items, [], false)
    {
      assert items[i..][0] == items[i] && items[i..][1..] == items[i + 1..];
      var item := items[i];
      if item.productId == "" || item.quantity.None? || item.quantity.value <= 0 {
        return Err(ValidationError);
      }
      var quantity := item.quantity.value;
      var product := products.FindById(item.productId);
      if product.None? || !product.value.isActive {
        return Err(NotFound);
      }
      if product.value.stock < quantity {
        return Err(InsufficientStock);
      }
      prepared := prepared + [LineItem(item.productId, quantity, product.value.price)];
      i := i + 1;
    }
    assert items[|items|..] == [];
    return Ok(prepared);
  }

  /** As written, the items pass exactly when each passes its own check
      against the unchanged store. */
  lemma {:induction false} PrepareFromAsWritten(ps: seq<Product>, items: seq<ItemRequest>, prior: seq<LineItem>)
    ensures PrepareFrom(ps, items, prior, false).Ok? <==>
            forall i :: 0 <= i < |items| ==> CheckItem(ps, items[i], 0).Ok?
    decreases |items|
  {
    if |items| > 0 && CheckItem(ps, items[0], 0).Ok? {
      var c := CheckItem(ps, items[0], 0);
      assert PrepareFrom(ps, items, prior, false) == PrepareFrom(ps, items[1..], prior + [c.value], false);
      PrepareFromAsWritten(ps, items[1..], prior + [c.value]);
      assert forall i :: 1 <= i < |items| ==> items[1..][i - 1] == items[i];
    }
  }

  /** As written, the prepared lines are the lines each item's own check
      yields, in request order, after the `prior` ones. */
  lemma {:induction false} PrepareFromAsWrittenLines(ps: seq<Product>, items: seq<ItemRequest>, prior: seq<LineItem>)
    requires PrepareFrom(ps, items, prior, false).Ok?
    ensures var v := PrepareFrom(ps, items, prior, false).value;
            && |v| == |prior| + |items| && v[..|prior|] == prior
            && forall i :: 0 <= i < |items| ==>
                 CheckItem(ps, items[i], 0).Ok? && v[|prior| + i] == CheckItem(ps, items[i], 0).value
    decreases |items|
  {
    if |items| > 0 {
      var c := CheckItem(ps, items[0], 0);
      assert c.Ok?;
      var v := PrepareFrom(ps, items[1..], prior + [c.value], false).value;
      assert PrepareFrom(ps, items, prior, false).value == v;
      PrepareFromAsWrittenLines(ps, items[1..], prior + [c.value]);
      PrefixStep(v, prior, c.value);
      forall i | 0 < i < |items|
        ensures CheckItem(ps, items[i], 0).Ok? && v[|prior| + i] == CheckItem(ps, items[i], 0).value
      {
        assert items[1..][i - 1] == items[i];
        assert |prior + [c.value]| + (i - 1) == |prior| + i;
      }
    }
  }

  /** As written, the error raised is that of the first item that fails its
      own check. */
  lemma {:induction false} PrepareFromFirstError(ps: seq<Product>, items: seq<ItemRequest>,
                                                 prior: seq<LineItem>, k: nat)
    requires k < |items|
    requires forall j :: 0 <= j < k ==> CheckItem(ps, items[j], 0).Ok?
    requires CheckItem(ps, items[k], 0).Err?
    ensures PrepareFrom(ps, items, prior, false) == Err(CheckItem(ps, items[k], 0).error)
    decreases k
  {
    if k > 0 {
      assert items[1..][k - 1] == items[k];
      PrepareFromFirstError(ps, items[1..], prior + [CheckItem(ps, items[0], 0).value], k - 1);
    }
  }

  /** Whatever the policy, every prepared line is the snapshot of its
      request, in request order. */
  lemma {:induction false} PrepareFromSnapshot(ps: seq<Product>, items: seq<ItemRequest>,
                                               prior: seq<LineItem>, cumulative: bool)
    requires PrepareFrom(ps, items, prior, cumulative).Ok?
    ensures var v := PrepareFrom(ps, items, prior, cumulative).value;
            && |v| == |prior| + |items| && v[..|prior|] == prior
            && forall i :: 0 <= i < |items| ==> Snapshot(ps, items[i], v[|prior| + i])
    decreases |items|
  {
    if |items| > 0 {
      var reserved := if cumulative then QtyFor(prior, items[0].productId) else 0;
      var li := CheckItem(ps, items[0], reserved).value;
      var v := PrepareFrom(ps, items[1..], prior + [li], cumulative).value;
      assert PrepareFrom(ps, items, prior, cumulative).value == v;
      PrepareFromSnapshot(ps, items[1..], prior + [li], cumulative);
      PrefixStep(v, prior, li);
      forall i | 0 <= i < |items| ensures Snapshot(ps, items[i], v[|prior| + i]) {
        if i == 0 {
          CheckedIsSnapshot(ps, items[0], reserved);
        } else {
          assert items[1..][i - 1] == items[i];
          assert |prior + [li]| + (i - 1) == |prior| + i;
        }
      }
    }
  }

  /** A line the item check accepts is the snapshot of its request. */
  lemma CheckedIsSnapshot(ps: seq<Product>, it: ItemRequest, reserved: int)
    requires CheckItem(ps, it, reserved).Ok?
    ensures Snapshot(ps, it, CheckItem(ps, it, reserved).value)
  {
  }

  /** The first `|prior|` lines of `v` are `prior` once its first
      `|prior| + 1` lines are `prior + [x]`. */
  lemma PrefixStep<T>(v: seq<T>, prior: seq<T>, x: T)
    requires |v| >= |prior| + 1 && v[..|prior| + 1] == prior + [x]
    ensures v[..|prior|] == prior && v[|prior|] == x
  {
    assert v[..|prior| + 1][..|prior|] == v[..|prior|];
    assert v[..|prior| + 1][|prior|] == v[|prior|];
  }

  // ----- validation corrected -----

  /** validateAndPrepareItems with the evident intent restored: an item is
      checked against the stock left once the earlier lines of the same order
      are taken into account. */
  method ValidateAndPrepareItemsCumulative(products: ProductRepository, items: seq<ItemRequest>)
    returns (r: Result<seq<LineItem>>)
    ensures r == Prepared(products.products, items, true)
  {
    if |items| == 0 {
      return Err(ValidationError);
    }
    var prepared: seq<LineItem> := [];
    var i := 0;
    while i < |items|
      invariant 0 <= i <= |items|
      invariant PrepareFrom(products.products, items[i..], prepared, true)
             == PrepareFrom(products.products, items, [], true)
    {
      assert items[i..][0] == items[i] && items[i..][1..] == items[i + 1..];
      var item := items[i];
      if item.productId == "" || item.quantity.None? || item.quantity.value <= 0 {
        return Err(ValidationError);
      }
      var quantity := item.quantity.value;
      var product := products.FindById(item.productId);
      if product.None? || !product.value.isActive {
        return Err(NotFound);
      }
      var reserved := QtyFor(prepared, item.productId);
      if product.value.stock < reserved + quantity {
        return Err(InsufficientStock);
      }
      prepared := prepared + [LineItem(item.productId, quantity, product.value.price)];
      i := i + 1;
    }
    assert items[|items|..] == [];
    return Ok(prepared);
  }

  /** The first index holding a product's id: the one the stores' lookups
      return for that id. */
  predicate IsFirst(ps: seq<Product>, k: nat)
    requires k < |ps|
  {
    forall j :: 0 <= j < k ==> ps[j].id != ps[k].id
  }

  /** The stock of every product covers what `items` take of it (or they take
      nothing of it). */
  predicate Covers(ps: seq<Product>, items: seq<LineItem>)
  {
    forall k :: 0 <= k < |ps| && IsFirst(ps, k) ==>
      QtyFor(items, ps[k].id) == 0 || QtyFor(items, ps[k].id) <= ps[k].stock
  }

  /** The first index holding `pid` is the index the lookup finds. */
  lemma FirstIsFound(ps: seq<Product>, pid: string, k: nat)
    requires k < |ps| && IsFirst(ps, k) && ps[k].id == pid
    ensures ProductIndex(ps, pid) == Some(k)
  {
    FirstIndexUnique(ps, HasProductId(pid), k);
  }

  /** The corrected check only accepts orders whose lines, added up per
      product, fit in each product's stock. */
  lemma {:induction false} CumulativeCovers(ps: seq<Product>, items: seq<ItemRequest>, prior: seq<LineItem>)
    requires Covers(ps, prior)
    requires PrepareFrom(ps, items, prior, true).Ok?
    ensures Covers(ps, PrepareFrom(ps, items, prior, true).value)
    decreases |items|
  {
    if |items| > 0 {
      var it := items[0];
      var reserved := QtyFor(prior, it.productId);
      var li := CheckItem(ps, it, reserved).value;
      var next := prior + [li];
      assert next[..|next| - 1] == prior;
      forall k | 0 <= k < |ps| && IsFirst(ps, k)
        ensures QtyFor(next, ps[k].id) == 0 || QtyFor(next, ps[k].id) <= ps[k].stock
      {
        if ps[k].id == it.productId {
          FirstIsFound(ps, it.productId, k);
          assert Find(ps, HasProductId(it.productId)).value == ps[k];
        }
      }
      CumulativeCovers(ps, items[1..], next);
    }
  }

  /** When no two lines name the same product, the corrected check and the
      check as written agree on every store. */
  lemma {:induction false} DistinctIdsAgree(ps: seq<Product>, items: seq<ItemRequest>, prior: seq<LineItem>)
    requires forall i :: 0 <= i < |items| ==> QtyFor(prior, items[i].productId) == 0
    requires forall i, j :: 0 <= i < j < |items| ==> items[i].productId != items[j].productId
    ensures PrepareFrom(ps, items, prior, true) == PrepareFrom(ps, items, prior, false)
    decreases |items|
  {
    if |items| > 0 {
      var c := CheckItem(ps, items[0], 0);
      if c.Ok? {
        var next := prior + [c.value];
        assert next[..|next| - 1] == prior;
        forall i | 0 <= i < |items[1..]|
          ensures QtyFor(next, items[1..][i].productId) == 0
        {
          assert items[1..][i] == items[i + 1];
        }
        DistinctIdsAgree(ps, items[1..], next);
      }
    }
  }

  /** No two requested items name the same product. */
  predicate DistinctProducts(items: seq<ItemRequest>)
  {
    forall i, j :: 0 <= i < j < |items| ==> items[i].productId != items[j].productId
  }

  /** An order that names each product once gets the same outcome, lines
      or error, from the check as written and from the corrected one. */
  lemma DistinctPrepared(ps: seq<Product>, items: seq<ItemRequest>)
    requires DistinctProducts(items)
    ensures Prepared(ps, items, false) == Prepared(ps, items, true)
  {
    if |items| > 0 {
      DistinctIdsAgree(ps, items, []);
    }
  }

  // ----- stock reservation and release -----

  function Delta(release: bool, q: int): int
  {
    if release then q else -q
  }

  /** One iteration of decrementStock (release = false) or incrementStock
      (release = true): the product found for the line, if any, has its stock
      moved by the quantity; a line whose product is absent is skipped. */
  function AdjustOne(ps: seq<Product>, li: LineItem, release: bool, now: int): seq<Product>
  {
    match ProductIndex(ps, li.productId)
    case None => ps
    case Some(k) => ps[k := ps[k].(stock := ps[k].stock + Delta(release, li.quantity), updatedAt := now)]
  }

  /** The store after decrementStock / incrementStock over `items`. */
  function AdjustAll(ps: seq<Product>, items: seq<LineItem>, release: bool, now: int): seq<Product>
    decreases |items|
  {
    if |items| == 0 then ps
    else AdjustOne(AdjustAll(ps, items[..|items| - 1], release, now), items[|items| - 1], release, now)
  }

  /** `a` is `b` except possibly for its stock and its update time. */
  predicate SameButStock(a: Product, b: Product)
  {
    a.(stock := b.stock, updatedAt := b.updatedAt) == b
  }

  /** Stock bookkeeping: reserving or releasing `items` moves the stock of
      each product by the total quantity the items take of it, and changes
      nothing else of any product. */
  lemma {:induction false} AdjustAllEffect(ps: seq<Product>, items: seq<LineItem>, release: bool, now: int)
    ensures |AdjustAll(ps, items, release, now)| == |ps|
    ensures forall k :: 0 <= k < |ps| ==> SameButStock(AdjustAll(ps, items, release, now)[k], ps[k])
    ensures forall k :: 0 <= k < |ps| ==>
      AdjustAll(ps, items, release, now)[k].stock
        == ps[k].stock + Delta(release, if IsFirst(ps, k) then QtyFor(items, ps[k].id) else 0)
    decreases |items|
  {
    if |items| > 0 {
      var init := items[..|items| - 1];
      var li := items[|items| - 1];
      AdjustAllEffect(ps, init, release, now);
      var mid := AdjustAll(ps, init, release, now);
      var res := AdjustAll(ps, items, release, now);
      assert res == AdjustOne(mid, li, release, now);
      assert forall j :: 0 <= j < |ps| ==> mid[j].id == ps[j].id;
      match ProductIndex(mid, li.productId)
      case None =>
        forall k | 0 <= k < |ps|
          ensures res[k].stock == ps[k].stock + Delta(release, if IsFirst(ps, k) then QtyFor(items, ps[k].id) else 0)
        {
          assert !HasProductId(li.productId)(mid[k]);
        }
      case Some(k0) =>
        assert mid[k0].id == li.productId;
        forall k | 0 <= k < |ps|
          ensures SameButStock(res[k], ps[k])
          ensures res[k].stock == ps[k].stock + Delta(release, if IsFirst(ps, k) then QtyFor(items, ps[k].id) else 0)
        {
          if k == k0 {
            forall j | 0 <= j < k0 ensures ps[j].id != ps[k0].id {
              assert !HasProductId(li.productId)(mid[j]);
            }
          }
        }
    }
  }

  /** Releasing what was reserved gives every product back its stock,
      whatever happened to the products' update times. */
  lemma ReleaseUndoesReserve(ps: seq<Product>, items: seq<LineItem>, t1: int, t2: int)
    ensures var back := AdjustAll(AdjustAll(ps, items, false, t1), items, true, t2);
            && |back| == |ps|
            && forall k :: 0 <= k < |ps| ==> back[k] == ps[k].(updatedAt := back[k].updatedAt)
  {
    var mid := AdjustAll(ps, items, false, t1);
    AdjustAllEffect(ps, items, false, t1);
    AdjustAllEffect(mid, items, true, t2);
    var back := AdjustAll(mid, items, true, t2);
    forall k | 0 <= k < |ps|
      ensures back[k] == ps[k].(updatedAt := back[k].updatedAt)
    {
      assert IsFirst(mid, k) == IsFirst(ps, k) by {
        assert forall j :: 0 <= j < |ps| ==> mid[j].id == ps[j].id;
      }
    }
  }

  predicate NonNegStock(ps: seq<Product>)
  {
    forall j :: 0 <= j < |ps| ==> ps[j].stock >= 0
  }

  /** Reserving lines that the stock covers keeps every stock non-negative. */
  lemma ReserveKeepsStockNonNegative(ps: seq<Product>, items: seq<LineItem>, now: int)
    requires NonNegStock(ps) && Covers(ps, items)
    ensures NonNegStock(AdjustAll(ps, items, false, now))
  {
    AdjustAllEffect(ps, items, false, now);
  }

  /** Releasing lines of positive quantity never lowers a stock, so it keeps
      every stock non-negative. */
  lemma {:induction false} ReleaseKeepsStockNonNegative(ps: seq<Product>, items: seq<LineItem>, now: int)
    requires NonNegStock(ps)
    requires forall i :: 0 <= i < |items| ==> items[i].quantity > 0
    ensures NonNegStock(AdjustAll(ps, items, true, now))
  {
    AdjustAllEffect(ps, items, true, now);
    forall k | 0 <= k < |ps| ensures QtyFor(items, ps[k].id) >= 0 {
      QtyForNonNegative(items, ps[k].id);
    }
  }

  lemma {:induction false} QtyForNonNegative(items: seq<LineItem>, pid: string)
    requires forall i :: 0 <= i < |items| ==> items[i].quantity > 0
    ensures QtyFor(items, pid) >= 0
    decreases |items|
  {
    if |items| > 0 {
      QtyForNonNegative(items[..|items| - 1], pid);
    }
  }

  /** An order whose lines pass the corrected check can be reserved without
      any stock going negative. */
  lemma CumulativeReservationKeepsStock(ps: seq<Product>, items: seq<ItemRequest>, now: int)
    requires NonNegStock(ps)
    requires Prepared(ps, items, true).Ok?
    ensures NonNegStock(AdjustAll(ps, Prepared(ps, items, true).value, false, now))
  {
    CumulativeCovers(ps, items, []);
    ReserveKeepsStockNonNegative(ps, Prepared(ps, items, true).value, now);
  }

  /** The defect as written: one pen in stock, an order of two lines of one
      pen each passes validation, and reserving it leaves the stock at -1.
      The corrected check rejects the same order. */
  lemma DuplicateItemOverdrawsStock()
    ensures var ps := [Product("p1", "Pen", "", 1000, 1, true, 0, 0)];
            var items := [ItemRequest("p1", Some(1)), ItemRequest("p1", Some(1))];
            && Prepared(ps, items, false).Ok?
            && |AdjustAll(ps, Prepared(ps, items, false).value, false, 0)| == 1
            && AdjustAll(ps, Prepared(ps, items, false).value, false, 0)[0].stock == -1
            && Prepared(ps, items, true) == Err(InsufficientStock)
  {
    var ps := [Product("p1", "Pen", "", 1000, 1, true, 0, 0)];
    var items := [ItemRequest("p1", Some(1)), ItemRequest("p1", Some(1))];
    var li := LineItem("p1", 1, 1000);
    assert HasProductId("p1")(ps[0]);
    assert Find(ps, HasProductId("p1")) == Some(ps[0]);
    assert CheckItem(ps, items[0], 0) == Ok(li);
    assert CheckItem(ps, items[1], 0) == Ok(li);
    PrepareFromAsWritten(ps, items, []);
    PrepareFromAsWrittenLines(ps, items, []);
    var v := Prepared(ps, items, false).value;
    assert v == [li, li];
    AdjustAllEffect(ps, v, false, 0);
    assert IsFirst(ps, 0);
    assert [li, li][..1] == [li] && [li][..0] == [];
    assert QtyFor([li], "p1") == 1;
    assert QtyFor(v, "p1") == 2;
    assert items[1..] == [items[1]];
    assert CheckItem(ps, items[1], 1) == Err(InsufficientStock);
  }

  /** The write-back of one loop iteration is the step AdjustOne describes. */
  lemma UpdateIsAdjust(ps: seq<Product>, li: LineItem, release: bool, now: int)
    requires ProductIndex(ps, li.productId).Some?
    ensures var k := ProductIndex(ps, li.productId).value;
            UpdatedProducts(ps, ps[k].id, NoProductChange.(stock := Some(ps[k].stock + Delta(release, li.quantity))), now)
            == AdjustOne(ps, li, release, now)
  {
    var k := ProductIndex(ps, li.productId).value;
    assert ps[k].id == li.productId;
  }

  lemma AdjustAllStep(ps: seq<Product>, items: seq<LineItem>, i: nat, release: bool, now: int)
    requires i < |items|
    ensures AdjustAll(ps, items[..i + 1], release, now) == AdjustOne(AdjustAll(ps, items[..i], release, now), items[i], release, now)
  {
    assert items[..i + 1][..i] == items[..i];
  }

  /** The body of the loops of decrementStock (release = false) and
      incrementStock (release = true): look the product up, and if it is
      there write back its stock moved by the line's quantity. */
  method AdjustLine(products: ProductRepository, item: LineItem, release: bool, now: int)
    modifies products
    ensures products.products == AdjustOne(old(products.products), item, release, now)
  {
    ghost var before := products.products;
    var product := products.FindById(item.productId);
    if product.Some? {
      var newStock := if release then product.value.stock + item.quantity else product.value.stock - item.quantity;
      var _ := products.UpdateProduct(product.value.id, NoProductChange.(stock := Some(newStock)), now);
      UpdateIsAdjust(before, item, release, now);
    }
  }

  /** `decrementStock`: reserves the lines of an order. */
  method DecrementStock(products: ProductRepository, items: seq<LineItem>, now: int)
    modifies products
    ensures products.products == AdjustAll(old(products.products), items, false, now)
  {
    ghost var start := products.products;
    var i := 0;
    while i < |items|
      invariant 0 <= i <= |items|
      invariant products.products == AdjustAll(start, items[..i], false, now)
    {
      AdjustLine(products, items[i], false, now);
      AdjustAllStep(start, items, i, false, now);
      i := i + 1;
    }
    assert items[..|items|] == items;
  }

  /** `incrementStock`: releases the lines of an order; a product that is no
      longer in the store is skipped. Soft-deleted products are still in the
      store and get their stock back. */
  method IncrementStock(products: ProductRepository, items: seq<LineItem>, now: int)
    modifies products
    ensures products.products == AdjustAll(old(products.products), items, true, now)
  {
    ghost var start := products.products;
    var i := 0;
    while i < |items|
      invariant 0 <= i <= |items|
      invariant products.products == AdjustAll(start, items[..i], true, now)
    {
      AdjustLine(products, items[i], true, now);
      AdjustAllStep(start, items, i, true, now);
      i := i + 1;
    }
    assert items[..|items|] == items;
  }
}
