/** The input checks the single-record mutations run before they write:
    email uniqueness and phone format for customers, price and stock for
    products. Each check yields the message of the error it raises, or None. */
module Validation {
  import opened Records
  import opened Phone

  const EmailExistsMessage := "Email already exists."
  const InvalidPhoneMessage := "Invalid phone number format."
  const CustomerCreatedMessage := "Customer created successfully."
  const InvalidPriceMessage := "Price must be positive."
  const InvalidStockMessage := "Stock cannot be negative."

  /** Some stored customer already has this email (exact string equality). */
  predicate EmailTaken(cs: seq<Customer>, email: string) {
    exists i :: 0 <= i < |cs| && cs[i].email == email
  }

  predicate EmailsDistinct(cs: seq<Customer>) {
    forall i, j :: 0 <= i < j < |cs| ==> cs[i].email != cs[j].email
  }

  /** Adding a customer whose email is not taken keeps emails distinct. */
  lemma EmailsDistinctAppend(cs: seq<Customer>, c: Customer)
    requires EmailsDistinct(cs) && !EmailTaken(cs, c.email)
    ensures EmailsDistinct(cs + [c])
  {
  }

  /** The checks of customer creation, in the source's order: the email
      first, then the phone. */
  function CheckCustomer(cs: seq<Customer>, email: string, phone: Option<string>): (r: Option<string>)
    ensures r == None <==>
      && !EmailTaken(cs, email)
      && (phone.None? || phone.value == "" || IsInternationalPhone(phone.value) || IsDashedPhone(phone.value))
    ensures EmailTaken(cs, email) ==> r == Some(EmailExistsMessage)
    ensures !EmailTaken(cs, email) && r.Some? ==> r == Some(InvalidPhoneMessage)
  {
    PhoneAcceptedExact(phone);
    if EmailTaken(cs, email) then Some(EmailExistsMessage)
    else if !PhoneAccepted(phone) then Some(InvalidPhoneMessage)
    else None
  }

  /** The checks of product creation: the price first, then the stock. */
  function CheckProduct(price: int, stock: int): (r: Option<string>)
    ensures r == None <==> price > 0 && stock >= 0
    ensures price <= 0 ==> r == Some(InvalidPriceMessage)
    ensures price > 0 && stock < 0 ==> r == Some(InvalidStockMessage)
  {
    if price <= 0 then Some(InvalidPriceMessage)
    else if stock < 0 then Some(InvalidStockMessage)
    else None
  }

  /** The stock argument defaults to 0 when it is not supplied. */
  function StockOrDefault(stock: Option<int>): int {
    if stock.Some? then stock.value else 0
  }
}
