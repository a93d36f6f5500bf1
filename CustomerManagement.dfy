/**
  The customer list page: the company's customers as fetched, the search
  box over them, and the dialog that adds a customer. A request is a path
  the page asks for and the server's answer to it, `None` when it fails.
*/
module CustomerManagement {
  import opened Wrappers
  import opened Json
  import opened Session
  import opened Models
  import opened Lists
  import opened Search

  /** The dialog's fields as typed; credit limit and days stay text until the server reads them. */
  datatype CustomerForm = CustomerForm(
    name: string, email: string, phone: string, gstin: string, billingAddress: string, shippingAddress: string,
    city: string, state: string, pincode: string, creditLimit: string, creditDays: string, companyId: Leaf)

  /** The dialog when the page opens and after every customer added: all eleven fields empty, the user's company. */
  function BlankCustomer(user: Value): (r: CustomerForm)
    ensures r.name == r.email == r.phone == r.gstin == r.billingAddress == r.shippingAddress == ""
    ensures r.city == r.state == r.pincode == r.creditLimit == r.creditDays == ""
    ensures r.companyId == Company(user)
  {
    CustomerForm("", "", "", "", "", "", "", "", "", "", "", Company(user))
  }

  function CustomersPath(user: Value): string {
    "/customers?company_id=" + CompanyParam(user)
  }

  predicate CustomerMatches(c: Customer, term: string) {
    ContactMatches(c.name, c.phone, c.email, term)
  }

  /** The customers the search box lets through, in the order fetched. */
  function FilteredCustomers(customers: seq<Customer>, term: string): (r: seq<Customer>)
    ensures forall c :: c in r <==> c in customers && CustomerMatches(c, term)
  {
    Filter(customers, (c: Customer) => CustomerMatches(c, term))
  }

  /** An empty search box shows every customer. */
  lemma EmptySearchShowsAll(customers: seq<Customer>)
    ensures FilteredCustomers(customers, "") == customers
  {
    forall i | 0 <= i < |customers| ensures CustomerMatches(customers[i], "") {
      EmptyTermMatches(customers[i].name);
    }
    FilterKeepsAll(customers, (c: Customer) => CustomerMatches(c, ""));
  }

  /** Searching a longer list shows the earlier part's matches first, then the later part's. */
  lemma SearchKeepsOrder(xs: seq<Customer>, ys: seq<Customer>, term: string)
    ensures FilteredCustomers(xs + ys, term) == FilteredCustomers(xs, term) + FilteredCustomers(ys, term)
  {
    FilterAppend(xs, ys, (c: Customer) => CustomerMatches(c, term));
  }

  class CustomerManagementPage {
    const user: Value
    var customers: seq<Customer>
    var loading: bool
    var searchTerm: string
    var showAddCustomer: bool
    var newCustomer: CustomerForm

    constructor (user: Value)
      ensures this.user == user && customers == [] && loading && searchTerm == "" && !showAddCustomer
      ensures newCustomer == BlankCustomer(user)
    {
      this.user := user;
      customers := [];
      loading := true;
      searchTerm := "";
      showAddCustomer := false;
      newCustomer := BlankCustomer(user);
    }

    /** The rows the table shows. */
    function Visible(): (r: seq<Customer>)
      reads this
      ensures forall c :: c in r <==> c in customers && CustomerMatches(c, searchTerm)
    {
      FilteredCustomers(customers, searchTerm)
    }

    /** `fetchCustomers`: the list is replaced only by an answer, and loading ends either way. */
    method FetchCustomers(server: string -> Option<seq<Customer>>)
      modifies this`customers, this`loading
      ensures !loading
      ensures customers == server(CustomersPath(user)).GetOr(old(customers))
    {
      var answer := server(CustomersPath(user));
      if answer.Some? {
        customers := answer.value;
      }
      loading := false;
    }

    /**
      `handleAddCustomer`: once the server takes the customer the dialog
      closes on a blank form and the list is fetched again; when it
      refuses, nothing on the page changes.
    */
    method HandleAddCustomer(accepted: bool, server: string -> Option<seq<Customer>>)
      modifies this`newCustomer, this`showAddCustomer, this`customers, this`loading
      ensures accepted ==>
        newCustomer == BlankCustomer(user) && !showAddCustomer && !loading
        && customers == server(CustomersPath(user)).GetOr(old(customers))
      ensures !accepted ==>
        newCustomer == old(newCustomer) && showAddCustomer == old(showAddCustomer)
        && customers == old(customers) && loading == old(loading)
    {
      if accepted {
        newCustomer := BlankCustomer(user);
        showAddCustomer := false;
        FetchCustomers(server);
      }
    }
  }
}
