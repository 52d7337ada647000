/** The sales service: it checks a sale against the customer directory and
    the product catalog, prices it, and records it only once every check
    has passed; its read paths attach the customer's data best-effort. */
module Sales {
  import opened Wrappers
  import opened Lists

  // ---------------------------------------------------------------------
  // Collaborator lookups
  // ---------------------------------------------------------------------

  /** What one `GET <service>/<resource>/<id>` call produced: a transport
      failure (timeout, refused connection), or a response with its status
      code, the `success` flag of its JSON body and its `data` member. */
  datatype Reply<R> = TransportError | Response(status: int, success: bool, data: Option<R>)

  /** How a lookup reads a reply: a record only for status 200 with a
      truthy `success`; every other outcome is the same "not found". */
  function Decide<R>(reply: Reply<R>): (found: Option<R>)
    ensures found.Some? ==> reply == Response(200, true, found)
    ensures reply.TransportError? || reply.status != 200 || !reply.success ==> found.None?
    ensures reply.Response? && reply.status == 200 && reply.success ==> found == reply.data
  {
    match reply
    case TransportError => None
    case Response(status, success, data) => if status == 200 && success then data else None
  }

  /** The customer record as the customer service sends it (`id`, `nome`,
      `telefone`, `email`); the sales service passes it on whole. */
  datatype Customer = Customer(id: int, name: string, phone: string, email: string)

  /** The product record as the sales service reads it; prices in cents. */
  datatype Product = Product(id: int, name: string, price: int)

  /** The network as seen from this service: the reply each id's lookup gets. */
  type Directory = int -> Reply<Customer>
  type Catalog = int -> Reply<Product>

  // ---------------------------------------------------------------------
  // Validation and aggregation
  // ---------------------------------------------------------------------

  /** One requested line: a product id and the `quantidade` member, if sent. */
  datatype ItemRequest = ItemRequest(productId: int, quantity: Option<int>)

  /** A validated line: name and unit price snapshotted from the catalog. */
  datatype Line = Line(productId: int, productName: string, quantity: int, unitPrice: int, lineTotal: int)

  /** What validation hands to the store: the customer, the lines, the total. */
  datatype Validated = Validated(customer: Customer, lines: seq<Line>, total: int)

  datatype SaleError =
    | NoData                      // 'Dados não fornecidos'
    | CustomerAndItemsRequired    // 'Cliente e produtos são obrigatórios'
    | CustomerNotFound            // 'Cliente não encontrado'
    | ProductNotFound(productId: int)  // 'Produto ID <id> não encontrado'
    | InvalidQuantity             // 'Quantidade deve ser maior que zero'

  /** A missing `quantidade` counts as 0. */
  function QuantityOf(item: ItemRequest): int {
    item.quantity.GetOr(0)
  }

  function LineFor(p: Product, quantity: int): Line {
    Line(p.id, p.name, quantity, p.price, p.price * quantity)
  }

  /** One item: product lookup first, then the quantity check. */
  function CheckItem(catalog: Catalog, item: ItemRequest): Result<Line, SaleError> {
    match Decide(catalog(item.productId))
    case None => Failure(ProductNotFound(item.productId))
    case Some(p) =>
      if QuantityOf(item) <= 0 then Failure(InvalidQuantity) else Success(LineFor(p, QuantityOf(item)))
  }


  /** The lines of a request, or the error of its first failing item. */
  function ValidateItems(catalog: Catalog, items: seq<ItemRequest>): Result<seq<Line>, SaleError>
    decreases |items|
  {
    if items == [] then Success([])
    else match CheckItem(catalog, items[0])
      case Failure(e) => Failure(e)
      case Success(line) => Prepend([line], ValidateItems(catalog, items[1..]))
  }

  function SumTotals(lines: seq<Line>): int
    decreases |lines|
  {
    if lines == [] then 0 else SumTotals(lines[..|lines| - 1]) + lines[|lines| - 1].lineTotal
  }

  /** The outcome `validar_venda` computes: customer first, then the items. */
  function Validate(customers: Directory, catalog: Catalog, customerId: int, items: seq<ItemRequest>): Result<Validated, SaleError> {
    match Decide(customers(customerId))
    case None => Failure(CustomerNotFound)
    case Some(c) =>
      match ValidateItems(catalog, items)
      case Failure(e) => Failure(e)
      case Success(lines) => Success(Validated(c, lines, SumTotals(lines)))
  }

  /** `validar_venda`: the loop that looks up, checks and prices each item. */
  method ValidateSale(customers: Directory, catalog: Catalog, customerId: int, items: seq<ItemRequest>)
    returns (r: Result<Validated, SaleError>)
    ensures r == Validate(customers, catalog, customerId, items)
  {
    var customer := Decide(customers(customerId));
    if customer.None? {
      return Failure(CustomerNotFound);
    }
    var lines: seq<Line> := [];
    var total := 0;
    var i := 0;
    assert items[0..] == items;
    PrependEmpty(ValidateItems(catalog, items));
    while i < |items|
      invariant 0 <= i <= |items|
      invariant total == SumTotals(lines)
      invariant ValidateItems(catalog, items) == Prepend(lines, ValidateItems(catalog, items[i..]))
    {
      var item := items[i];
      assert items[i..][0] == item && items[i..][1..] == items[i + 1..];
      var quantity := item.quantity.GetOr(0);
      var product := Decide(catalog(item.productId));
      if product.None? {
        return Failure(ProductNotFound(item.productId));
      }
      if quantity <= 0 {
        return Failure(InvalidQuantity);
      }
      var line := LineFor(product.value, quantity);
      PrependPrepend(lines, [line], ValidateItems(catalog, items[i + 1..]));
      assert (lines + [line])[..|lines|] == lines;
      lines := lines + [line];
      total := total + line.lineTotal;
      i := i + 1;
    }
    assert items[|items|..] == [] && lines + [] == lines;
    return Success(Validated(customer.value, lines, total));
  }

  // ---------------------------------------------------------------------
  // Properties of validation
  // ---------------------------------------------------------------------

  /** Items validate exactly when every item passes, and then line j is item j's line. */
  lemma {:induction false} ValidateItemsSucceeds(catalog: Catalog, items: seq<ItemRequest>)
    ensures ValidateItems(catalog, items).Success?
        <==> forall j :: 0 <= j < |items| ==> CheckItem(catalog, items[j]).Success?
    ensures ValidateItems(catalog, items).Success? ==>
              && |ValidateItems(catalog, items).value| == |items|
              && forall j :: 0 <= j < |items| ==>
                   ValidateItems(catalog, items).value[j] == CheckItem(catalog, items[j]).value
    decreases |items|
  {
    if items != [] {
      ValidateItemsSucceeds(catalog, items[1..]);
      assert forall j :: 1 <= j < |items| ==> items[1..][j - 1] == items[j];
      if CheckItem(catalog, items[0]).Success? && ValidateItems(catalog, items[1..]).Success? {
        var rest := ValidateItems(catalog, items[1..]).value;
        assert ValidateItems(catalog, items).value == [CheckItem(catalog, items[0]).value] + rest;
      }
      if !(forall j :: 0 <= j < |items| ==> CheckItem(catalog, items[j]).Success?) {
        var k :| 0 <= k < |items| && CheckItem(catalog, items[k]).Failure?;
        if k > 0 {
          assert CheckItem(catalog, items[1..][k - 1]).Failure?;
        }
      }
    }
  }

  /** The first failing item decides the error, whatever comes after it. */
  lemma {:induction false} ValidateItemsFirstFailure(catalog: Catalog, items: seq<ItemRequest>, k: nat)
    requires k < |items| && CheckItem(catalog, items[k]).Failure?
    requires forall j :: 0 <= j < k ==> CheckItem(catalog, items[j]).Success?
    ensures ValidateItems(catalog, items) == Failure(CheckItem(catalog, items[k]).error)
    decreases k
  {
    if k > 0 {
      assert forall j :: 0 <= j < k - 1 ==> items[1..][j] == items[j + 1];
      ValidateItemsFirstFailure(catalog, items[1..], k - 1);
    }
  }

  /** All or nothing: validation succeeds exactly when the customer is found
      and every item names a product that is found with a positive quantity;
      the lines then follow the items one by one, and the total is their sum. */
  lemma ValidateAllOrNothing(customers: Directory, catalog: Catalog, customerId: int, items: seq<ItemRequest>)
    ensures Validate(customers, catalog, customerId, items).Success?
        <==> && Decide(customers(customerId)).Some?
             && forall j :: 0 <= j < |items| ==>
                  Decide(catalog(items[j].productId)).Some? && QuantityOf(items[j]) > 0
    ensures Validate(customers, catalog, customerId, items).Success? ==>
              var v := Validate(customers, catalog, customerId, items).value;
              && v.customer == Decide(customers(customerId)).value
              && |v.lines| == |items|
              && (forall j :: 0 <= j < |items| ==>
                    v.lines[j] == LineFor(Decide(catalog(items[j].productId)).value, QuantityOf(items[j])))
              && v.total == SumTotals(v.lines)
  {
    ValidateItemsSucceeds(catalog, items);
  }

  /** An unknown customer fails the request before any item is considered:
      the result is the same for every catalog and every list of items. */
  lemma CustomerCheckedFirst(customers: Directory, catalog: Catalog, customerId: int, items: seq<ItemRequest>)
    requires Decide(customers(customerId)).None?
    ensures Validate(customers, catalog, customerId, items) == Failure(CustomerNotFound)
  {
  }

  /** The first bad item names the error: an unknown product reports
      ProductNotFound with its id even when its quantity is not positive;
      a known product with a missing or non-positive quantity reports
      InvalidQuantity. Earlier valid items do not yield a partial result. */
  lemma ValidateReportsFirstBadItem(customers: Directory, catalog: Catalog, customerId: int, items: seq<ItemRequest>, k: nat)
    requires Decide(customers(customerId)).Some?
    requires k < |items|
    requires forall j :: 0 <= j < k ==> Decide(catalog(items[j].productId)).Some? && QuantityOf(items[j]) > 0
    requires Decide(catalog(items[k].productId)).None? || QuantityOf(items[k]) <= 0
    ensures Validate(customers, catalog, customerId, items)
         == if Decide(catalog(items[k].productId)).None? then Failure(ProductNotFound(items[k].productId))
            else Failure(InvalidQuantity)
  {
    assert forall j :: 0 <= j < k ==> CheckItem(catalog, items[j]).Success?;
    ValidateItemsFirstFailure(catalog, items, k);
  }

  lemma {:induction false} SumTotalsPositive(lines: seq<Line>)
    requires forall j :: 0 <= j < |lines| ==> lines[j].lineTotal > 0
    ensures lines == [] <==> SumTotals(lines) == 0
    ensures SumTotals(lines) >= 0
    decreases |lines|
  {
    if lines != [] {
      SumTotalsPositive(lines[..|lines| - 1]);
    }
  }

  /** Every product the catalog can return has a positive price. */
  ghost predicate PositivePrices(catalog: Catalog) {
    forall id :: Decide(catalog(id)).Some? ==> Decide(catalog(id)).value.price > 0
  }

  /** Against a catalog whose prices are positive, an accepted sale's total
      is positive, and it is 0 only for an empty list of items. */
  lemma ValidatedTotalZeroOnlyWhenEmpty(customers: Directory, catalog: Catalog, customerId: int, items: seq<ItemRequest>)
    requires PositivePrices(catalog)
    requires Validate(customers, catalog, customerId, items).Success?
    ensures var v := Validate(customers, catalog, customerId, items).value;
            v.total >= 0 && (v.total == 0 <==> items == [])
  {
    ValidateAllOrNothing(customers, catalog, customerId, items);
    var v := Validate(customers, catalog, customerId, items).value;
    forall j | 0 <= j < |v.lines|
      ensures v.lines[j].lineTotal > 0
    {
      var p := Decide(catalog(items[j].productId)).value;
      assert p.price > 0 && QuantityOf(items[j]) > 0;
      assert v.lines[j].lineTotal == p.price * QuantityOf(items[j]);
    }
    SumTotalsPositive(v.lines);
  }

  /** The directory and catalog of the worked example below. */
  function ExampleCustomers(id: int): Reply<Customer> {
    if id == 7 then Response(200, true, Some(Customer(7, "Ana", "(11) 91234-5678", "ana@example.com"))) else Response(404, false, None)
  }

  function ExampleCatalog(id: int): Reply<Product> {
    if id == 1 then Response(200, true, Some(Product(1, "Caneta", 1000)))
    else if id == 2 then Response(200, true, Some(Product(2, "Caderno", 550)))
    else Response(404, false, None)
  }

  /** Customer 7 buys 2 of product 1 at 10.00 and 3 of product 2 at 5.50:
      lines of 20.00 and 16.50, total 36.50; a request naming the absent
      product 999 fails with ProductNotFound(999). */
  lemma WorkedExample()
    ensures Validate(ExampleCustomers, ExampleCatalog, 7, [ItemRequest(1, Some(2)), ItemRequest(2, Some(3))])
         == Success(Validated(Customer(7, "Ana", "(11) 91234-5678", "ana@example.com"),
                              [Line(1, "Caneta", 2, 1000, 2000), Line(2, "Caderno", 3, 550, 1650)],
                              3650))
    ensures Validate(ExampleCustomers, ExampleCatalog, 7, [ItemRequest(999, Some(1))]) == Failure(ProductNotFound(999))
  {
    var items := [ItemRequest(1, Some(2)), ItemRequest(2, Some(3))];
    var lines := [Line(1, "Caneta", 2, 1000, 2000), Line(2, "Caderno", 3, 550, 1650)];
    assert items[1..] == [items[1]] && items[1..][1..] == [];
    assert CheckItem(ExampleCatalog, items[0]) == Success(lines[0]);
    assert CheckItem(ExampleCatalog, items[1]) == Success(lines[1]);
    assert ValidateItems(ExampleCatalog, []) == Success([]);
    assert [lines[1]] + [] == [lines[1]];
    assert ValidateItems(ExampleCatalog, items[1..]) == Success([lines[1]]);
    assert [lines[0]] + [lines[1]] == lines;
    assert ValidateItems(ExampleCatalog, items) == Success(lines);
    assert lines[..1] == [lines[0]] && lines[..1][..0] == [];
    assert SumTotals(lines) == 3650;
  }

  // ---------------------------------------------------------------------
  // The request gate of `criar_venda`
  // ---------------------------------------------------------------------

  /** The JSON body of `POST /vendas`. NoBody stands for a missing or falsy
      body (including `{}`); a member that is absent or `null` is None. */
  datatype Body = NoBody | Body(customerId: Option<int>, items: Option<seq<ItemRequest>>)

  /** The checks made before validation: a body, and a truthy `cliente_id`
      (0 is falsy) and a non-empty `produtos`. */
  function Gate(body: Body): Result<(int, seq<ItemRequest>), SaleError> {
    match body
    case NoBody => Failure(NoData)
    case Body(customerId, items) =>
      if customerId.None? || customerId.value == 0 || items.None? || items.value == [] then
        Failure(CustomerAndItemsRequired)
      else
        Success((customerId.value, items.value))
  }

  /** The decision `criar_venda` takes for a body. */
  function Admit(customers: Directory, catalog: Catalog, body: Body): Result<Validated, SaleError> {
    match Gate(body)
    case Failure(e) => Failure(e)
    case Success(request) => Validate(customers, catalog, request.0, request.1)
  }

  /** A request the gate refuses fails the same way whatever the collaborators
      would answer: no lookup decides it. An admitted request names a truthy
      customer and at least one item. */
  lemma GateDecidesFirst(customers: Directory, catalog: Catalog, body: Body)
    ensures Gate(body).Failure? ==> Admit(customers, catalog, body) == Failure(Gate(body).error)
    ensures Admit(customers, catalog, body).Success? ==>
              && body.Body? && body.customerId.Some? && body.customerId.value != 0
              && body.items.Some? && |body.items.value| > 0
              && |Admit(customers, catalog, body).value.lines| == |body.items.value|
  {
    if Admit(customers, catalog, body).Success? {
      ValidateAllOrNothing(customers, catalog, body.customerId.value, body.items.value);
    }
  }

  // ---------------------------------------------------------------------
  // The sale store
  // ---------------------------------------------------------------------

  /** A stored sale header: the line items are not stored. */
  datatype SaleRow = SaleRow(id: int, customerId: int, total: int, status: string)

  const Completed: string := "concluida"

  /** The `vendas` table: rows in insertion order, with the next id the
      table will assign. */
  class OrderStore {
    var rows: seq<SaleRow>
    var nextId: int

    ghost predicate Valid()
      reads this
    {
      && (forall i, j :: 0 <= i < j < |rows| ==> rows[i].id < rows[j].id)
      && (forall i :: 0 <= i < |rows| ==> 1 <= rows[i].id < nextId)
      && nextId >= 1
    }

    constructor ()
      ensures Valid() && rows == [] && nextId == 1
    {
      rows := [];
      nextId := 1;
    }

    /** `INSERT INTO vendas`: one new row under a fresh id. */
    method Insert(customerId: int, total: int, status: string) returns (id: int)
      requires Valid()
      modifies this
      ensures Valid()
      ensures id == old(nextId) && nextId == old(nextId) + 1
      ensures rows == old(rows) + [SaleRow(id, customerId, total, status)]
      ensures forall i :: 0 <= i < |old(rows)| ==> old(rows)[i].id != id
    {
      id := nextId;
      rows := rows + [SaleRow(id, customerId, total, status)];
      nextId := nextId + 1;
    }

    /** `SELECT * FROM vendas WHERE id = ...`. */
    function Find(id: int): (r: Option<SaleRow>)
      reads this
      ensures r.Some? ==> r.value in rows && r.value.id == id
      ensures r.None? ==> forall i :: 0 <= i < |rows| ==> rows[i].id != id
    {
      match FindFirst(rows, (row: SaleRow) => row.id == id)
      case None => None
      case Some(k) => Some(rows[k])
    }
  }

  /** `SELECT * FROM vendas ORDER BY id DESC` over rows kept in insertion order. */
  function NewestFirst(rows: seq<SaleRow>): (r: seq<SaleRow>)
    ensures |r| == |rows|
    ensures forall i :: 0 <= i < |rows| ==> r[i] == rows[|rows| - 1 - i]
    decreases |rows|
  {
    if rows == [] then [] else [rows[|rows| - 1]] + NewestFirst(rows[..|rows| - 1])
  }

  /** The sale `criar_venda` answers with. */
  datatype Sale = Sale(id: int, customerId: int, lines: seq<Line>, total: int, status: string, customer: Customer)

  /** `criar_venda`: the gate, then validation, and the insert only after
      validation has fully succeeded. */
  method CreateSale(store: OrderStore, customers: Directory, catalog: Catalog, body: Body)
    returns (r: Result<Sale, SaleError>)
    requires store.Valid()
    modifies store
    ensures store.Valid()
    ensures r.Failure? <==> Admit(customers, catalog, body).Failure?
    ensures r.Failure? ==>
              && r.error == Admit(customers, catalog, body).error
              && store.rows == old(store.rows) && store.nextId == old(store.nextId)
    ensures r.Success? ==>
              var v := Admit(customers, catalog, body).value;
              var customerId := body.customerId.value;
              && r.value == Sale(old(store.nextId), customerId, v.lines, v.total, Completed, v.customer)
              && store.rows == old(store.rows) + [SaleRow(old(store.nextId), customerId, v.total, Completed)]
              && store.nextId == old(store.nextId) + 1
  {
    if body.NoBody? {
      return Failure(NoData);
    }
    if body.customerId.None? || body.customerId.value == 0 || body.items.None? || body.items.value == [] {
      return Failure(CustomerAndItemsRequired);
    }
    var customerId := body.customerId.value;
    var validated := ValidateSale(customers, catalog, customerId, body.items.value);
    if validated.Failure? {
      return Failure(validated.error);
    }
    var id := store.Insert(customerId, validated.value.total, Completed);
    r := Success(Sale(id, customerId, validated.value.lines, validated.value.total, Completed, validated.value.customer));
  }

  // ---------------------------------------------------------------------
  // Read paths
  // ---------------------------------------------------------------------

  /** The customer `{id, nome}` a listed sale carries. */
  datatype CustomerSummary = CustomerSummary(id: int, name: string)

  datatype ListedSale = ListedSale(row: SaleRow, customer: Option<CustomerSummary>)

  datatype FoundSale = FoundSale(row: SaleRow, customer: Option<Customer>)

  function Summary(c: Option<Customer>): Option<CustomerSummary> {
    match c
    case None => None
    case Some(customer) => Some(CustomerSummary(customer.id, customer.name))
  }

  /** `listar_vendas`: every row, newest first, each with its customer's
      summary when the lookup succeeds and None when it does not. */
  method ListSales(store: OrderStore, customers: Directory) returns (listed: seq<ListedSale>)
    requires store.Valid()
    ensures |listed| == |store.rows|
    ensures forall i :: 0 <= i < |listed| ==> listed[i].row == store.rows[|store.rows| - 1 - i]
    ensures forall i :: 0 <= i < |listed| ==>
              listed[i].customer == Summary(Decide(customers(listed[i].row.customerId)))
    ensures forall i, j :: 0 <= i < j < |listed| ==> listed[i].row.id > listed[j].row.id
  {
    var raw := NewestFirst(store.rows);
    listed := [];
    var i := 0;
    while i < |raw|
      invariant 0 <= i <= |raw|
      invariant |listed| == i
      invariant forall k :: 0 <= k < i ==> listed[k].row == raw[k]
      invariant forall k :: 0 <= k < i ==>
                  listed[k].customer == Summary(Decide(customers(listed[k].row.customerId)))
    {
      var row := raw[i];
      var customer := Decide(customers(row.customerId));
      listed := listed + [ListedSale(row, Summary(customer))];
      i := i + 1;
    }
  }

  /** `buscar_venda`: not found when no row has the id; otherwise the row
      with the full customer record, or None when the lookup fails. */
  method GetSale(store: OrderStore, customers: Directory, id: int) returns (r: Option<FoundSale>)
    ensures r.None? <==> forall i :: 0 <= i < |store.rows| ==> store.rows[i].id != id
    ensures r.Some? ==> && r.value.row in store.rows && r.value.row.id == id
                        && r.value.customer == Decide(customers(r.value.row.customerId))
  {
    var row := store.Find(id);
    if row.None? {
      return None;
    }
    var customer := Decide(customers(row.value.customerId));
    return Some(FoundSale(row.value, customer));
  }
}
