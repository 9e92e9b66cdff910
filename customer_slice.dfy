/** The customer slice of the Redux store (src/store/slices/customerSlice.ts). */
module CustomerSlice {
  import opened Js
  import Seqs

  datatype CustomerInsights = CustomerInsights(
    satisfactionScore: real,
    deliveryPreferences: seq<string>,
    riskProfile: string)

  datatype Customer = Customer(
    id: string,
    name: string,
    email: string,
    phone: string,
    company: string,
    address: string,
    customerType: string,
    status: string,
    deliveries: seq<string>,
    aiInsights: CustomerInsights)

  function CustomerId(c: Customer): string
  {
    c.id
  }

  class CustomerStore {
    var customers: seq<Customer>
    var loading: bool
    var error: Option<string>

    constructor ()
      ensures customers == [] && !loading && error == None
    {
      customers := [];
      loading := false;
      error := None;
    }

    method SetCustomers(payload: seq<Customer>)
      modifies this`customers
      ensures customers == payload
    {
      customers := payload;
    }

    method AddCustomer(customer: Customer)
      modifies this`customers
      ensures customers == old(customers) + [customer]
    {
      customers := customers + [customer];
    }

    method UpdateCustomer(customer: Customer)
      modifies this`customers
      ensures customers == Seqs.ReplaceFirst(old(customers), CustomerId, customer)
    {
      var index := Seqs.FindIndex(customers, CustomerId, customer.id);
      Seqs.UpdateFirstAtFindIndex(customers, CustomerId, customer.id, _ => customer);
      if index != -1 {
        customers := customers[index := customer];
      }
    }

    method SetLoading(value: bool)
      modifies this`loading
      ensures loading == value
    {
      loading := value;
    }

    method SetError(value: Option<string>)
      modifies this`error
      ensures error == value
    {
      error := value;
    }
  }
}
