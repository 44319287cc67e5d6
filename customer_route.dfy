/** `GET /:phoneNumber` of the customer router: fetch a customer's details by phone. */
module CustomerRoute {
  import opened Common
  import opened CustomerModel
  import opened CustomerStore

  datatype CustomerResponse =
    | PhoneNumberRequired
    | NotFound
    | Found(customer: Customer)
  {
    function Status(): int {
      match this
      case PhoneNumberRequired => 400
      case NotFound => 404
      case Found(_) => 200
    }

    function Message(): string {
      match this
      case PhoneNumberRequired => "Phone number is required"
      case NotFound => "Customer not found"
      case Found(_) => "Customer found"
    }
  }

  /**
   * 400 exactly when the path parameter is empty, 404 exactly when no stored
   * customer has that phone, and otherwise the first stored customer with it.
   * It is a function of the stored documents: no path writes.
   */
  function GetCustomer(docs: seq<Customer>, phoneNumber: string): (r: CustomerResponse)
    ensures r.PhoneNumberRequired? <==> phoneNumber == ""
    ensures r.NotFound? <==> phoneNumber != "" && forall i :: 0 <= i < |docs| ==> docs[i].phone != phoneNumber
    ensures r.Found? ==> r.customer.phone == phoneNumber && r.customer in docs
    ensures r.Found? && PhonesUnique(docs) ==> forall i :: 0 <= i < |docs| && docs[i].phone == phoneNumber ==> docs[i] == r.customer
  {
    if phoneNumber == "" then PhoneNumberRequired
    else match FindByPhone(docs, phoneNumber)
      case None => NotFound
      case Some(i) => Found(docs[i])
  }
}
