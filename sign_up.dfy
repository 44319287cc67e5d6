/** `POST /` of the sign-up router: register a customer under a phone number not yet taken. */
module SignUpRoute {
  import opened Common
  import opened CustomerModel
  import opened CustomerStore

  datatype SignUpRequest = SignUpRequest(
    name: Option<string>,
    phone: Option<string>,
    address: Option<AddressInput>)

  datatype SignUpResponse =
    | PhoneRequired
    | PhoneTaken
    | Created(customer: Customer)
  {
    function Status(): int {
      match this
      case PhoneRequired => 400
      case PhoneTaken => 400
      case Created(_) => 201
    }

    function Message(): string {
      match this
      case PhoneRequired => "Phone is required"
      case PhoneTaken => "Customer with this phone number already exists"
      case Created(_) => "Customer created successfully"
    }
  }

  /**
   * Rejects a missing or empty phone and a phone already registered, leaving
   * the collection as it was; otherwise stores exactly one new customer built
   * from the request's name, phone and address. `now` is the clock reading the
   * timestamps take, `bootYear` the year the schema default was computed in.
   */
  method SignUp(customers: CustomerCollection, req: SignUpRequest, now: Time, bootYear: int)
    returns (resp: SignUpResponse)
    modifies customers
    ensures IsBlank(req.phone) ==> resp == PhoneRequired && customers.docs == old(customers.docs)
    ensures !IsBlank(req.phone) && FindByPhone(old(customers.docs), req.phone.value).Some? ==>
              resp == PhoneTaken && customers.docs == old(customers.docs)
    ensures !IsBlank(req.phone) && FindByPhone(old(customers.docs), req.phone.value).None? ==>
              && resp == Created(NewCustomer(req.name, req.phone.value, req.address, now, bootYear))
              && customers.docs == old(customers.docs) + [resp.customer]
    ensures resp.Created? ==> resp.customer.phone != ""
    ensures PhonesUnique(old(customers.docs)) ==> PhonesUnique(customers.docs)
  {
    if IsBlank(req.phone) {
      return PhoneRequired;
    }
    var phone := req.phone.value;
    var existing := FindByPhone(customers.docs, phone);
    if existing.Some? {
      return PhoneTaken;
    }
    var customer := NewCustomer(req.name, phone, req.address, now, bootYear);
    if PhonesUnique(customers.docs) {
      FreshPhoneKeepsUnique(customers.docs, customer);
    }
    customers.docs := customers.docs + [customer];
    resp := Created(customer);
  }
}
