/** The records of the CRM store. Their shapes follow the fields the API
    exposes for each model: a customer has an id, name, email, optional phone
    and creation time; a product an id, name, price and stock; an order an id,
    its customer, its set of products, a total and a date. */
module Records {

  datatype Option<T> = None | Some(value: T)

  /** The outcome of a mutation: the stored record, or the message of the
      validation error it raised. */
  datatype Result<T> = Ok(value: T) | Err(message: string)

  /** A point in time; the representation (seconds, microseconds) is immaterial here. */
  type Timestamp = int

  datatype Customer = Customer(id: nat, name: string, email: string, phone: Option<string>, createdAt: Timestamp)

  /** `price` is a whole number of cents. */
  datatype Product = Product(id: nat, name: string, price: int, stock: int)

  /** `productIds` is the many-to-many link; `totalAmount` is in cents. */
  datatype Order = Order(id: nat, customerId: nat, productIds: set<nat>, totalAmount: int, orderDate: Timestamp)

  /** What a successful customer creation returns: the stored customer and
      the confirmation message. */
  datatype CustomerCreated = CustomerCreated(customer: Customer, message: string)

  /** One item of a bulk customer creation request. */
  datatype CustomerInput = CustomerInput(name: string, email: string, phone: Option<string>)

  /** The primary keys of a table are pairwise distinct and below the next key to hand out. */
  predicate CustomerIdsOk(cs: seq<Customer>, next: nat) {
    && (forall i :: 0 <= i < |cs| ==> cs[i].id < next)
    && (forall i, j :: 0 <= i < j < |cs| ==> cs[i].id != cs[j].id)
  }

  /** No two products share a key. */
  predicate ProductIdsDistinct(ps: seq<Product>) {
    forall i, j :: 0 <= i < j < |ps| ==> ps[i].id != ps[j].id
  }

  predicate ProductIdsOk(ps: seq<Product>, next: nat) {
    && (forall i :: 0 <= i < |ps| ==> ps[i].id < next)
    && ProductIdsDistinct(ps)
  }

  predicate OrderIdsOk(os: seq<Order>, next: nat) {
    && (forall i :: 0 <= i < |os| ==> os[i].id < next)
    && (forall i, j :: 0 <= i < j < |os| ==> os[i].id != os[j].id)
  }

  function CustomerIds(cs: seq<Customer>): set<nat> {
    set c | c in cs :: c.id
  }

  function ProductIds(ps: seq<Product>): set<nat> {
    set p | p in ps :: p.id
  }
}
