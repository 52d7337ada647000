/** How the services meet: the replies the catalog and the customer service
    give the sales service's lookups, and the payload the front end posts. */
module Integration {
  import opened Wrappers
  import Sales
  import Catalog
  import Clients
  import Frontend

  /** The reply `GET /produtos/:id` sends for a table holding `products`:
      200 with the product, or 404 with `success: false`. */
  function CatalogReply(products: seq<Catalog.Product>, id: int): Sales.Reply<Sales.Product> {
    match Catalog.IndexOf(products, Some(id))
    case None => Sales.Response(404, false, None)
    case Some(k) => Sales.Response(200, true, Some(Sales.Product(products[k].id, products[k].name, products[k].price)))
  }

  /** The reply `GET /clientes/:id` sends for a directory. */
  function DirectoryReply(d: Clients.Directory, id: int): Sales.Reply<Sales.Customer> {
    match Clients.Get(d, Some(id))
    case None => Sales.Response(404, false, None)
    case Some(c) => Sales.Response(200, true, Some(Sales.Customer(c.id, c.name, c.phone, c.email)))
  }

  /** The sales service's product lookup finds a product exactly when the
      catalog holds one with that id, and reads back that product. */
  lemma ProductLookupAgrees(products: seq<Catalog.Product>, nextId: int, id: int)
    requires Catalog.WellFormed(products, nextId)
    ensures Sales.Decide(CatalogReply(products, id)).Some?
        <==> exists i :: 0 <= i < |products| && products[i].id == id
    ensures forall i :: 0 <= i < |products| && products[i].id == id ==>
              Sales.Decide(CatalogReply(products, id))
              == Some(Sales.Product(id, products[i].name, products[i].price))
  {
    forall i | 0 <= i < |products| && products[i].id == id
      ensures Sales.Decide(CatalogReply(products, id)) == Some(Sales.Product(id, products[i].name, products[i].price))
    {
      Catalog.IndexOfUnique(products, nextId, id, i);
    }
  }

  /** The customer lookup finds a customer exactly when the directory holds one. */
  lemma CustomerLookupAgrees(d: Clients.Directory, id: int)
    ensures Sales.Decide(DirectoryReply(d, id)).Some?
        <==> exists i :: 0 <= i < |d.clients| && d.clients[i].id == id
  {
  }

  /** A well-formed catalog only returns positive prices, so a sale it
      validates has a positive total. */
  lemma AcceptedSaleTotalIsPositive(customers: Sales.Directory, products: seq<Catalog.Product>, nextId: int,
                                    customerId: int, items: seq<Sales.ItemRequest>)
    requires Catalog.WellFormed(products, nextId)
    requires items != []
    requires Sales.Validate(customers, id => CatalogReply(products, id), customerId, items).Success?
    ensures Sales.Validate(customers, id => CatalogReply(products, id), customerId, items).value.total > 0
  {
    var catalog: Sales.Catalog := id => CatalogReply(products, id);
    assert Sales.PositivePrices(catalog);
    Sales.ValidatedTotalZeroOnlyWhenEmpty(customers, catalog, customerId, items);
  }

  /** The body the front end posts for a payload. */
  function SaleRequest(p: Frontend.Payload): Sales.Body {
    Sales.Body(Some(p.clientId), Some(seq(|p.items|, i requires 0 <= i < |p.items| =>
                                            Sales.ItemRequest(p.items[i].productId, Some(p.items[i].quantity)))))
  }

  /** A payload built from an accepted form never fails the sales service's
      quantity check; it passes the request gate exactly when the client id
      is not 0. */
  lemma FormPayloadPassesQuantityCheck(customers: Sales.Directory, catalog: Sales.Catalog,
                                       clientId: Option<string>, ids: seq<string>, quantities: seq<string>)
    requires Frontend.Submission(clientId, ids, quantities).Success?
    ensures var body := SaleRequest(Frontend.Submission(clientId, ids, quantities).value);
            && Sales.Admit(customers, catalog, body) != Failure(Sales.InvalidQuantity)
            && (Sales.Gate(body).Success? <==> Frontend.Submission(clientId, ids, quantities).value.clientId != 0)
  {
    var p := Frontend.Submission(clientId, ids, quantities).value;
    Frontend.AcceptedPayloadIsPositive(clientId, ids, quantities);
    var body := SaleRequest(p);
    var items := body.items.value;
    assert forall j :: 0 <= j < |items| ==> Sales.QuantityOf(items[j]) > 0;
    if Sales.Gate(body).Success? && Sales.Decide(customers(p.clientId)).Some?
       && Sales.Admit(customers, catalog, body).Failure? {
      Sales.ValidateAllOrNothing(customers, catalog, p.clientId, items);
      var k :| 0 <= k < |items| && !(Sales.Decide(catalog(items[k].productId)).Some? && Sales.QuantityOf(items[k]) > 0);
      var first := FirstBad(catalog, items, k);
      Sales.ValidateReportsFirstBadItem(customers, catalog, p.clientId, items, first);
    }
  }

  /** The position of the first item whose product is not found or whose
      quantity is not positive, given one at `k`. */
  lemma FirstBad(catalog: Sales.Catalog, items: seq<Sales.ItemRequest>, k: nat) returns (first: nat)
    requires k < |items|
    requires !(Sales.Decide(catalog(items[k].productId)).Some? && Sales.QuantityOf(items[k]) > 0)
    ensures first <= k
    ensures !(Sales.Decide(catalog(items[first].productId)).Some? && Sales.QuantityOf(items[first]) > 0)
    ensures forall j :: 0 <= j < first ==>
              Sales.Decide(catalog(items[j].productId)).Some? && Sales.QuantityOf(items[j]) > 0
    decreases k
  {
    if j :| 0 <= j < k && !(Sales.Decide(catalog(items[j].productId)).Some? && Sales.QuantityOf(items[j]) > 0) {
      first := FirstBad(catalog, items, j);
    } else {
      first := k;
    }
  }
}
