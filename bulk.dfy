/** Bulk customer creation as a function of the store: the items are
    processed in order, each one either saved as a customer or turned into
    an error string, and each item is checked against the customers saved
    by the items before it. */
module Bulk {
  import opened Records
  import opened Phone
  import opened Validation

  /** The error of an item whose email is taken; the email can be read
      back from between the fixed prefix and suffix. */
  function DuplicateEmailError(email: string): (r: string)
    ensures |r| == |email| + 22
    ensures r[6..|r| - 16] == email
  {
    "Email " + email + " already exists."
  }

  /** The error of an item whose phone is malformed; it names the item. */
  function InvalidPhoneError(name: string): (r: string)
    ensures |r| == |name| + 26
    ensures r[25..|r| - 1] == name
  {
    "Invalid phone format for " + name + "."
  }

  /** The customer table with its next key, and the two result lists. */
  datatype BulkState = BulkState(store: seq<Customer>, nextId: nat, created: seq<Customer>, errors: seq<string>)

  function Start(store: seq<Customer>, nextId: nat): BulkState {
    BulkState(store, nextId, [], [])
  }

  /** One iteration of the loop over the input items: the item lands in
      exactly one of the two lists, and it is created exactly when its email
      is not stored yet and its phone passes. */
  function Step(st: BulkState, item: CustomerInput, now: Timestamp): (r: BulkState)
    ensures |r.created| + |r.errors| == |st.created| + |st.errors| + 1
    ensures r.created != st.created <==> !EmailTaken(st.store, item.email) && PhoneAccepted(item.phone)
  {
    if EmailTaken(st.store, item.email) then
      st.(errors := st.errors + [DuplicateEmailError(item.email)])
    else if !PhoneAccepted(item.phone) then
      st.(errors := st.errors + [InvalidPhoneError(item.name)])
    else
      var c := Customer(st.nextId, item.name, item.email, item.phone, now);
      st.(store := st.store + [c], nextId := st.nextId + 1, created := st.created + [c])
  }

  /** The state after the loop has processed all of `items`. */
  function Run(st: BulkState, items: seq<CustomerInput>, now: Timestamp): (r: BulkState)
    ensures |r.created| + |r.errors| == |st.created| + |st.errors| + |items|
    decreases |items|
  {
    if items == [] then st
    else Step(Run(st, items[..|items| - 1], now), items[|items| - 1], now)
  }

  /** Every item lands in exactly one of the two lists, and the store grows
      by exactly the created customers, which take consecutive keys. */
  lemma {:induction false} RunAccounting(store: seq<Customer>, nextId: nat, items: seq<CustomerInput>, now: Timestamp)
    ensures var r := Run(Start(store, nextId), items, now);
      && |r.created| + |r.errors| == |items|
      && r.store == store + r.created
      && r.nextId == nextId + |r.created|
      && forall k :: 0 <= k < |r.created| ==> r.created[k].id == nextId + k
    decreases |items|
  {
    if items != [] {
      RunAccounting(store, nextId, items[..|items| - 1], now);
    }
  }

  /** Keys stay distinct and below the next key. */
  lemma {:induction false} RunKeepsIdsOk(store: seq<Customer>, nextId: nat, items: seq<CustomerInput>, now: Timestamp)
    requires CustomerIdsOk(store, nextId)
    ensures var r := Run(Start(store, nextId), items, now);
      CustomerIdsOk(r.store, r.nextId) && r.nextId >= nextId
    decreases |items|
  {
    if items != [] {
      RunKeepsIdsOk(store, nextId, items[..|items| - 1], now);
    }
  }

  /** If the stored emails are pairwise distinct before the batch, they are
      pairwise distinct after it. */
  lemma {:induction false} RunKeepsEmailsDistinct(store: seq<Customer>, nextId: nat, items: seq<CustomerInput>, now: Timestamp)
    requires EmailsDistinct(store)
    ensures EmailsDistinct(Run(Start(store, nextId), items, now).store)
    decreases |items|
  {
    if items != [] {
      var prev := Run(Start(store, nextId), items[..|items| - 1], now);
      RunKeepsEmailsDistinct(store, nextId, items[..|items| - 1], now);
      var item := items[|items| - 1];
      if !EmailTaken(prev.store, item.email) && PhoneAccepted(item.phone) {
        EmailsDistinctAppend(prev.store, Customer(prev.nextId, item.name, item.email, item.phone, now));
      }
    }
  }

  /** Every created customer carries the name, email and phone of some input
      item whose phone passed the check, is stamped with `now`, and has an
      email no customer of the original store has. */
  lemma {:induction false} RunCreatedFromItems(store: seq<Customer>, nextId: nat, items: seq<CustomerInput>, now: Timestamp)
    ensures var r := Run(Start(store, nextId), items, now);
      forall c :: c in r.created ==>
        && c.createdAt == now
        && !EmailTaken(store, c.email)
        && exists i :: 0 <= i < |items| && items[i] == CustomerInput(c.name, c.email, c.phone) && PhoneAccepted(items[i].phone)
    decreases |items|
  {
    if items != [] {
      var init := items[..|items| - 1];
      var prev := Run(Start(store, nextId), init, now);
      RunCreatedFromItems(store, nextId, init, now);
      RunAccounting(store, nextId, init, now);
      var r := Run(Start(store, nextId), items, now);
      forall c | c in r.created
        ensures && c.createdAt == now
                && !EmailTaken(store, c.email)
                && exists i :: 0 <= i < |items| && items[i] == CustomerInput(c.name, c.email, c.phone) && PhoneAccepted(items[i].phone)
      {
        if c in prev.created {
          var i :| 0 <= i < |init| && init[i] == CustomerInput(c.name, c.email, c.phone) && PhoneAccepted(init[i].phone);
          assert items[i] == init[i];
        } else {
          var last := |items| - 1;
          assert items[last] == CustomerInput(c.name, c.email, c.phone);
          assert forall j :: 0 <= j < |store| ==> prev.store[j] == store[j];
        }
      }
    }
  }

  /** An item whose email belongs to a customer created earlier in the same
      batch is rejected with the duplicate-email error, and nothing else changes. */
  lemma RunRejectsRepeatedEmail(store: seq<Customer>, nextId: nat, items: seq<CustomerInput>, c: Customer, item: CustomerInput, now: Timestamp)
    requires c in Run(Start(store, nextId), items, now).created
    requires item.email == c.email
    ensures var prev := Run(Start(store, nextId), items, now);
      Run(Start(store, nextId), items + [item], now) == prev.(errors := prev.errors + [DuplicateEmailError(item.email)])
  {
    var prev := Run(Start(store, nextId), items, now);
    RunAccounting(store, nextId, items, now);
    var k :| 0 <= k < |prev.created| && prev.created[k] == c;
    assert prev.store[|store| + k] == c;
    assert (items + [item])[..|items|] == items;
  }

  /** One valid item and one repeating its email: one customer, one error
      naming the email. */
  lemma OneValidOneDuplicate(store: seq<Customer>, nextId: nat, a: CustomerInput, b: CustomerInput, now: Timestamp)
    requires !EmailTaken(store, a.email) && PhoneAccepted(a.phone)
    requires b.email == a.email
    ensures var r := Run(Start(store, nextId), [a, b], now);
      && r.created == [Customer(nextId, a.name, a.email, a.phone, now)]
      && r.errors == ["Email " + a.email + " already exists."]
  {
    var s0 := Start(store, nextId);
    assert [a][..0] == [];
    assert Run(s0, [a], now) == Step(s0, a, now);
    var s1 := Step(s0, a, now);
    assert [a, b][..1] == [a];
    assert Run(s0, [a, b], now) == Step(s1, b, now);
    assert s1.store[|store|].email == b.email;
  }

  /** An item whose email is neither in the original table nor among the
      customers created earlier in the batch, and whose phone passes, is
      created with the next key, and no error is added. */
  lemma RunCreatesFreshItem(store: seq<Customer>, nextId: nat, items: seq<CustomerInput>, item: CustomerInput, now: Timestamp)
    requires !EmailTaken(store, item.email)
    requires forall c :: c in Run(Start(store, nextId), items, now).created ==> c.email != item.email
    requires PhoneAccepted(item.phone)
    ensures var prev := Run(Start(store, nextId), items, now);
      var r := Run(Start(store, nextId), items + [item], now);
      && r.created == prev.created + [Customer(prev.nextId, item.name, item.email, item.phone, now)]
      && r.errors == prev.errors
  {
    var prev := Run(Start(store, nextId), items, now);
    RunAccounting(store, nextId, items, now);
    assert (items + [item])[..|items|] == items;
    forall i | 0 <= i < |prev.store| ensures prev.store[i].email != item.email {
      if i < |store| {
        assert prev.store[i] == store[i];
      } else {
        assert prev.store[i] == prev.created[i - |store|];
      }
    }
  }
}
