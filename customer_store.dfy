/** The `customers` collection behind the Mongoose `Customer` model. */
module CustomerStore {
  import opened Common
  import opened CustomerModel

  /** The stored customer documents, in the collection's natural order. */
  class CustomerCollection {
    var docs: seq<Customer>

    constructor ()
      ensures docs == []
    {
      docs := [];
    }
  }

  /** `Customer.findOne({ phone })`: the position of the first stored customer with that phone. */
  function FindByPhone(docs: seq<Customer>, phone: string): (r: Option<nat>)
    ensures r.Some? ==> r.value < |docs| && docs[r.value].phone == phone
    ensures r.Some? ==> forall j :: 0 <= j < r.value ==> docs[j].phone != phone
    ensures r.None? ==> forall j :: 0 <= j < |docs| ==> docs[j].phone != phone
  {
    FindFirst(docs, (c: Customer) => c.phone == phone)
  }

  /** The schema's `unique: true` on `phone`. */
  predicate PhonesUnique(docs: seq<Customer>) {
    forall i, j :: 0 <= i < j < |docs| ==> docs[i].phone != docs[j].phone
  }

  /** Adding a customer whose phone no stored customer has keeps phones unique. */
  lemma FreshPhoneKeepsUnique(docs: seq<Customer>, c: Customer)
    requires PhonesUnique(docs)
    requires FindByPhone(docs, c.phone).None?
    ensures PhonesUnique(docs + [c])
  {
  }

  /** Rewriting one customer without touching its phone keeps phones unique. */
  lemma SamePhoneKeepsUnique(docs: seq<Customer>, i: nat, c: Customer)
    requires PhonesUnique(docs)
    requires i < |docs| && c.phone == docs[i].phone
    ensures PhonesUnique(docs[i := c])
  {
  }
}
