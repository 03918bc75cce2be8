/** The CRM record store and the mutations of the CRM API that write to it:
    create a customer, create customers in bulk, create a product and create
    an order. Each table is a sequence of records in insertion order, and each
    has a counter that hands out the next primary key. */
module Crm {
  import opened Records
  import opened Phone
  import opened Validation
  import opened Bulk
  import opened Orders

  const InvalidCustomerMessage := "Invalid customer ID."
  const NoValidProductsMessage := "No valid products found for provided IDs."

  /** Keys are unique within each table, and every order names a stored
      customer and only stored products. */
  predicate Consistent(cs: seq<Customer>, ps: seq<Product>, os: seq<Order>, nextC: nat, nextP: nat, nextO: nat) {
    && CustomerIdsOk(cs, nextC)
    && ProductIdsOk(ps, nextP)
    && OrderIdsOk(os, nextO)
    && forall i :: 0 <= i < |os| ==> os[i].customerId in CustomerIds(cs) && os[i].productIds <= ProductIds(ps)
  }

  class Store {
    var customers: seq<Customer>
    var products: seq<Product>
    var orders: seq<Order>
    var nextCustomerId: nat
    var nextProductId: nat
    var nextOrderId: nat

    ghost predicate Valid()
      reads this
    {
      Consistent(customers, products, orders, nextCustomerId, nextProductId, nextOrderId)
    }

    /** An empty store; keys start at 1. */
    constructor ()
      ensures Valid()
      ensures customers == [] && products == [] && orders == []
      ensures nextCustomerId == 1 && nextProductId == 1 && nextOrderId == 1
    {
      customers, products, orders := [], [], [];
      nextCustomerId, nextProductId, nextOrderId := 1, 1, 1;
    }

    /** Rejects an email some customer already has, then a phone that is
        present, non-empty and of neither format; otherwise stores one new
        customer with the given values and confirms it with a message. */
    method CreateCustomer(name: string, email: string, phone: Option<string>, now: Timestamp) returns (r: Result<CustomerCreated>)
      requires Valid()
      modifies this`customers, this`nextCustomerId
      ensures Valid()
      ensures EmailTaken(old(customers), email) ==> r == Err(EmailExistsMessage)
      ensures CheckCustomer(old(customers), email, phone).Some? ==>
        && r == Err(CheckCustomer(old(customers), email, phone).value)
        && customers == old(customers) && nextCustomerId == old(nextCustomerId)
      ensures CheckCustomer(old(customers), email, phone) == None ==>
        && r == Ok(CustomerCreated(Customer(old(nextCustomerId), name, email, phone, now), CustomerCreatedMessage))
        && customers == old(customers) + [r.value.customer]
        && nextCustomerId == old(nextCustomerId) + 1
      ensures r.Ok? ==> r.value.customer.id !in CustomerIds(old(customers))
      ensures EmailsDistinct(old(customers)) ==> EmailsDistinct(customers)
    {
      if EmailTaken(customers, email) {
        return Err(EmailExistsMessage);
      }
      if !PhoneAccepted(phone) {
        return Err(InvalidPhoneMessage);
      }
      var customer := Customer(nextCustomerId, name, email, phone, now);
      assert CustomerIds(customers + [customer]) == CustomerIds(customers) + {customer.id};
      customers := customers + [customer];
      nextCustomerId := nextCustomerId + 1;
      r := Ok(CustomerCreated(customer, CustomerCreatedMessage));
    }

    /** Processes the items in order; an item whose email is already stored
        (including by an earlier item of the batch) or whose phone is
        malformed becomes an error string, every other item is stored. */
    method BulkCreateCustomers(input: seq<CustomerInput>, now: Timestamp) returns (created: seq<Customer>, errors: seq<string>)
      requires Valid()
      modifies this`customers, this`nextCustomerId
      ensures Valid()
      ensures Run(Start(old(customers), old(nextCustomerId)), input, now) == BulkState(customers, nextCustomerId, created, errors)
      ensures |created| + |errors| == |input|
      ensures customers == old(customers) + created
      ensures EmailsDistinct(old(customers)) ==> EmailsDistinct(customers)
    {
      ghost var start := Start(customers, nextCustomerId);
      created, errors := [], [];
      var i := 0;
      while i < |input|
        invariant 0 <= i <= |input|
        invariant Run(start, input[..i], now) == BulkState(customers, nextCustomerId, created, errors)
      {
        var data := input[i];
        if EmailTaken(customers, data.email) {
          errors := errors + [DuplicateEmailError(data.email)];
        } else if !PhoneAccepted(data.phone) {
          errors := errors + [InvalidPhoneError(data.name)];
        } else {
          var customer := Customer(nextCustomerId, data.name, data.email, data.phone, now);
          customers := customers + [customer];
          nextCustomerId := nextCustomerId + 1;
          created := created + [customer];
        }
        assert input[..i + 1][..i] == input[..i];
        i := i + 1;
      }
      assert input[..|input|] == input;
      RunAccounting(start.store, start.nextId, input, now);
      RunKeepsIdsOk(start.store, start.nextId, input, now);
      if EmailsDistinct(start.store) {
        RunKeepsEmailsDistinct(start.store, start.nextId, input, now);
      }
      assert CustomerIds(old(customers)) <= CustomerIds(customers);
    }

    /** Rejects a price that is not positive, then a negative stock;
        otherwise stores one new product. The stock defaults to 0. */
    method CreateProduct(name: string, price: int, stock: Option<int>) returns (r: Result<Product>)
      requires Valid()
      modifies this`products, this`nextProductId
      ensures Valid()
      ensures CheckProduct(price, StockOrDefault(stock)).Some? ==>
        && r == Err(CheckProduct(price, StockOrDefault(stock)).value)
        && products == old(products) && nextProductId == old(nextProductId)
      ensures CheckProduct(price, StockOrDefault(stock)) == None ==>
        && r == Ok(Product(old(nextProductId), name, price, StockOrDefault(stock)))
        && products == old(products) + [r.value]
        && nextProductId == old(nextProductId) + 1
      ensures r.Ok? ==> r.value.id !in ProductIds(old(products)) && r.value.price > 0 && r.value.stock >= 0
    {
      var s := StockOrDefault(stock);
      if price <= 0 {
        return Err(InvalidPriceMessage);
      }
      if s < 0 {
        return Err(InvalidStockMessage);
      }
      var product := Product(nextProductId, name, price, s);
      assert ProductIds(products + [product]) == ProductIds(products) + {product.id};
      products := products + [product];
      nextProductId := nextProductId + 1;
      r := Ok(product);
    }

    /** Writes back a product loaded from position `i` (the record's `save`):
        its key stays the same, so the store stays consistent. */
    method SaveProduct(i: nat, p: Product)
      requires Valid()
      requires i < |products| && p.id == products[i].id
      modifies this`products
      ensures Valid()
      ensures products == old(products)[i := p]
    {
      assert ProductIds(products[i := p]) == ProductIds(products) by {
        forall x | x in ProductIds(products) ensures x in ProductIds(products[i := p]) {
          var k :| 0 <= k < |products| && products[k].id == x;
          assert products[i := p][k].id == x;
        }
      }
      products := products[i := p];
    }

    /** Rejects an unknown customer, then a request that names no stored
        product; otherwise stores one order for the customer, linked to the
        selected products, with their price sum as total and the given date
        or else `now`. */
    method CreateOrder(customerId: nat, productIds: seq<nat>, orderDate: Option<Timestamp>, now: Timestamp) returns (r: Result<Order>)
      requires Valid()
      modifies this`orders, this`nextOrderId
      ensures Valid()
      ensures customerId !in CustomerIds(customers) ==>
        r == Err(InvalidCustomerMessage) && orders == old(orders) && nextOrderId == old(nextOrderId)
      ensures customerId in CustomerIds(customers) && Selected(products, productIds) == [] ==>
        r == Err(NoValidProductsMessage) && orders == old(orders) && nextOrderId == old(nextOrderId)
      ensures r.Ok? <==> customerId in CustomerIds(customers) && ProductIds(products) * (set x | x in productIds) != {}
      ensures r.Ok? ==>
        && r.value == Order(old(nextOrderId), customerId, SelectedIds(products, productIds),
                            Total(Selected(products, productIds)),
                            if orderDate.Some? then orderDate.value else now)
        && orders == old(orders) + [r.value]
        && nextOrderId == old(nextOrderId) + 1
      ensures r.Ok? && (forall p :: p in products ==> p.price > 0) ==> r.value.totalAmount > 0
    {
      if customerId !in CustomerIds(customers) {
        return Err(InvalidCustomerMessage);
      }
      var chosen := Selected(products, productIds);
      if chosen == [] {
        assert SelectedIds(products, productIds) == {};
        return Err(NoValidProductsMessage);
      }
      assert chosen[0].id in SelectedIds(products, productIds);
      var date := if orderDate.Some? then orderDate.value else now;
      var order := Order(nextOrderId, customerId, SelectedIds(products, productIds), Total(chosen), date);
      orders := orders + [order];
      nextOrderId := nextOrderId + 1;
      r := Ok(order);
    }
  }
}
