/** `POST /` of the sign-in router: look a customer up by phone. */
module SignInRoute {
  import opened Common
  import opened CustomerModel
  import opened CustomerStore

  /** The request body; `name` is read but never checked. */
  datatype SignInRequest = SignInRequest(name: Option<string>, phone: Option<string>)

  datatype SignInResponse =
    | PhoneRequired
    | NotFound
    | LoggedIn(customer: Customer)
  {
    function Status(): int {
      match this
      case PhoneRequired => 400
      case NotFound => 404
      case LoggedIn(_) => 200
    }

    function Message(): string {
      match this
      case PhoneRequired => "Name and phone are required"
      case NotFound => "Customer not found"
      case LoggedIn(_) => "Login successful"
    }
  }

  /**
   * 400 exactly when the phone is missing or empty, 404 exactly when no stored
   * customer has it, and otherwise the first stored customer with that phone.
   * It is a function of the stored documents: no path writes.
   */
  function SignIn(docs: seq<Customer>, req: SignInRequest): (r: SignInResponse)
    ensures r.PhoneRequired? <==> IsBlank(req.phone)
    ensures r.NotFound? <==> !IsBlank(req.phone) && forall i :: 0 <= i < |docs| ==> docs[i].phone != req.phone.value
    ensures r.LoggedIn? ==> exists i :: 0 <= i < |docs| && docs[i] == r.customer && r.customer.phone == req.phone.value
                                        && forall j :: 0 <= j < i ==> docs[j].phone != req.phone.value
  {
    if IsBlank(req.phone) then PhoneRequired
    else match FindByPhone(docs, req.phone.value)
      case None => NotFound
      case Some(i) => LoggedIn(docs[i])
  }

  /** The name in the request never changes the answer, whatever the 400 message says. */
  lemma SignInIgnoresName(docs: seq<Customer>, req: SignInRequest, name: Option<string>)
    ensures SignIn(docs, req.(name := name)) == SignIn(docs, req)
  {
  }
}
