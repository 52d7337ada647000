/** The product service: an in-memory table of products with an id counter,
    and the handlers that read, add, change and remove entries. */
module Catalog {
  import opened Wrappers
  import opened Lists

  /** A product; `valor` is held in cents. */
  datatype Product = Product(id: int, name: string, description: string, price: int)

  /** The `nome`, `descricao` and `valor` members of a request body, if sent. */
  datatype ProductInput = ProductInput(name: Option<string>, description: Option<string>, price: Option<int>)

  datatype CatalogError =
    | NotFound          // 404 'Produto não encontrado'
    | MissingField      // 400 'Nome, descrição e valor são obrigatórios'
    | NonPositivePrice  // 400 'Valor deve ser maior que zero'

  /** JavaScript truthiness of a string member: present and non-empty. */
  predicate Given(s: Option<string>) {
    s.Some? && s.value != ""
  }

  /** JavaScript truthiness of a numeric member: present and not 0. */
  predicate GivenPrice(p: Option<int>) {
    p.Some? && p.value != 0
  }

  /** `produtos.findIndex(p => p.id === id)` for the id `parseInt` read from
      the path; None stands for NaN, which equals no id. */
  function IndexOf(products: seq<Product>, id: Option<int>): (k: Option<nat>)
    ensures k.Some? ==> id.Some? && k.value < |products| && products[k.value].id == id.value
    ensures k.None? ==> id.None? || forall i :: 0 <= i < |products| ==> products[i].id != id.value
  {
    match id
    case None => None
    case Some(n) => FindFirst(products, (p: Product) => p.id == n)
  }

  /** The table invariant: ids are unique, each is below the counter, and
      each price is positive (creation and update admit no other). */
  ghost predicate WellFormed(products: seq<Product>, nextId: int) {
    && (forall i, j :: 0 <= i < j < |products| ==> products[i].id != products[j].id)
    && (forall i :: 0 <= i < |products| ==> products[i].id < nextId)
    && (forall i :: 0 <= i < |products| ==> products[i].price > 0)
  }

  function SeedProducts(): seq<Product> {
    [ Product(1, "Notebook Dell", "Notebook Dell Inspiron 15", 250000),
      Product(2, "Mouse Logitech", "Mouse sem fio Logitech MX", 15000),
      Product(3, "Teclado Mecânico", "Teclado mecânico RGB", 30000),
      Product(4, "Camiseta", "Camiseta básica de algodão", 5000),
      Product(5, "Boné", "Boné estiloso com aba curva", 3000) ]
  }

  /** The checks of `POST /produtos`, in order. */
  function CheckNew(input: ProductInput): Option<CatalogError> {
    if !Given(input.name) || !Given(input.description) || !GivenPrice(input.price) then Some(MissingField)
    else if input.price.value <= 0 then Some(NonPositivePrice)
    else None
  }

  /** The field assignments of `PUT /produtos/:id`: each truthy member replaces its field. */
  function Patch(p: Product, input: ProductInput): Product {
    p.(name := if Given(input.name) then input.name.value else p.name,
       description := if Given(input.description) then input.description.value else p.description,
       price := if GivenPrice(input.price) then input.price.value else p.price)
  }

  lemma RemoveAtWellFormed(products: seq<Product>, nextId: int, k: nat)
    requires WellFormed(products, nextId) && k < |products|
    ensures WellFormed(products[..k] + products[k + 1..], nextId)
  {
    var rest := products[..k] + products[k + 1..];
    assert forall i :: 0 <= i < |rest| ==> rest[i] == products[if i < k then i else i + 1];
  }

  class ProductTable {
    var products: seq<Product>
    var nextId: int

    ghost predicate Valid()
      reads this
    {
      WellFormed(products, nextId)
    }

    /** The seed table: ids 1 to 5, counter at 6. */
    constructor ()
      ensures Valid() && products == SeedProducts() && nextId == 6
    {
      products := SeedProducts();
      nextId := 6;
    }

    /** `GET /produtos/:id`: the product with that id, or not found. */
    function Get(id: Option<int>): (r: Option<Product>)
      reads this
      ensures r.Some? <==> id.Some? && exists i :: 0 <= i < |products| && products[i].id == id.value
      ensures r.Some? ==> r.value.id == id.value && r.value in products
    {
      match IndexOf(products, id)
      case None => None
      case Some(k) => Some(products[k])
    }

    /** `POST /produtos`: on success one entry is appended under the old
        counter and the counter moves on by one; on rejection nothing changes. */
    method Create(input: ProductInput) returns (r: Result<Product, CatalogError>)
      requires Valid()
      modifies this
      ensures Valid()
      ensures r.Failure? <==> CheckNew(input).Some?
      ensures r.Failure? <==> !(Given(input.name) && Given(input.description) && input.price.Some? && input.price.value > 0)
      ensures r.Failure? ==> r.error == CheckNew(input).value && products == old(products) && nextId == old(nextId)
      ensures r.Success? ==>
                && r.value == Product(old(nextId), input.name.value, input.description.value, input.price.value)
                && products == old(products) + [r.value]
                && nextId == old(nextId) + 1
    {
      var error := CheckNew(input);
      if error.Some? {
        return Failure(error.value);
      }
      var product := Product(nextId, input.name.value, input.description.value, input.price.value);
      nextId := nextId + 1;
      products := products + [product];
      return Success(product);
    }

    /** `PUT /produtos/:id`: an unknown id is not found, then a truthy
        non-positive price is refused, and both change nothing; otherwise
        only the matched entry changes, and only in its supplied fields. */
    method Update(id: Option<int>, input: ProductInput) returns (r: Result<Product, CatalogError>)
      requires Valid()
      modifies this
      ensures Valid() && nextId == old(nextId) && |products| == |old(products)|
      ensures IndexOf(old(products), id).None? ==> r == Failure(NotFound)
      ensures IndexOf(old(products), id).Some? && GivenPrice(input.price) && input.price.value < 0 ==>
                r == Failure(NonPositivePrice)
      ensures r.Success? <==>
                IndexOf(old(products), id).Some? && !(GivenPrice(input.price) && input.price.value < 0)
      ensures r.Failure? ==> products == old(products)
      ensures r.Success? ==>
                var k := IndexOf(old(products), id).value;
                && products == old(products)[k := Patch(old(products)[k], input)]
                && r.value == products[k]
                && products[k].id == old(products)[k].id
                && products[k].name == (if Given(input.name) then input.name.value else old(products)[k].name)
                && products[k].description ==
                     (if Given(input.description) then input.description.value else old(products)[k].description)
                && products[k].price == (if GivenPrice(input.price) then input.price.value else old(products)[k].price)
      ensures !Given(input.name) && !Given(input.description) && !GivenPrice(input.price) ==>
                products == old(products)
    {
      var k := IndexOf(products, id);
      if k.None? {
        return Failure(NotFound);
      }
      if GivenPrice(input.price) && input.price.value <= 0 {
        return Failure(NonPositivePrice);
      }
      products := products[k.value := Patch(products[k.value], input)];
      return Success(products[k.value]);
    }

    /** `DELETE /produtos/:id`: removes exactly the matched entry and keeps
        the order of the others; an unknown id changes nothing. */
    method Delete(id: Option<int>) returns (r: Result<Product, CatalogError>)
      requires Valid()
      modifies this
      ensures Valid() && nextId == old(nextId)
      ensures IndexOf(old(products), id).None? ==> r == Failure(NotFound) && products == old(products)
      ensures IndexOf(old(products), id).Some? ==>
                var k := IndexOf(old(products), id).value;
                && r == Success(old(products)[k])
                && products == old(products)[..k] + old(products)[k + 1..]
    {
      var k := IndexOf(products, id);
      if k.None? {
        return Failure(NotFound);
      }
      RemoveAtWellFormed(products, nextId, k.value);
      r := Success(products[k.value]);
      products := products[..k.value] + products[k.value + 1..];
    }
  }

  /** In a well-formed table the entry an id selects is the only one with that id. */
  lemma IndexOfUnique(products: seq<Product>, nextId: int, id: int, i: nat)
    requires WellFormed(products, nextId)
    requires i < |products| && products[i].id == id
    ensures IndexOf(products, Some(id)) == Some(i)
  {
  }
}
