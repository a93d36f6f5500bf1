/**
  The supplier list page: the company's suppliers as fetched, the search
  box over them, and the dialog that adds a supplier. A request is a path
  the page asks for and the server's answer to it, `None` when it fails.
*/
module SupplierManagement {
  import opened Wrappers
  import opened Json
  import opened Session
  import opened Models
  import opened Lists
  import opened Search

  /** The dialog's fields as typed. */
  datatype SupplierForm = SupplierForm(
    name: string, email: string, phone: string, gstin: string, address: string, city: string, state: string,
    pincode: string, paymentTerms: string, companyId: Leaf)

  const DefaultPaymentTerms := "Net 30"

  /**
    The dialog when the page opens and after every supplier added: payment
    terms "Net 30", the user's company, every other field empty.
  */
  function BlankSupplier(user: Value): (r: SupplierForm)
    ensures r.name == r.email == r.phone == r.gstin == r.address == r.city == r.state == r.pincode == ""
    ensures r.paymentTerms == DefaultPaymentTerms && r.companyId == Company(user)
  {
    SupplierForm("", "", "", "", "", "", "", "", DefaultPaymentTerms, Company(user))
  }

  /** The page's blank payment terms are the ones the server gives a supplier stored without any. */
  lemma SameDefaultTerms(supplierId: string, companyId: string, name: string, phone: string, address: string,
                         city: string, state: string, pincode: string)
    ensures Supplier(supplierId, companyId, name, phone := phone, address := address, city := city, state := state,
                     pincode := pincode).paymentTerms == BlankSupplier(Atom(Null)).paymentTerms
  {
  }

  function SuppliersPath(user: Value): string {
    "/suppliers?company_id=" + CompanyParam(user)
  }

  predicate SupplierMatches(c: Supplier, term: string) {
    ContactMatches(c.name, c.phone, c.email, term)
  }

  /** The suppliers the search box lets through, in the order fetched. */
  function FilteredSuppliers(suppliers: seq<Supplier>, term: string): (r: seq<Supplier>)
    ensures forall c :: c in r <==> c in suppliers && SupplierMatches(c, term)
  {
    Filter(suppliers, (c: Supplier) => SupplierMatches(c, term))
  }

  /** An empty search box shows every supplier. */
  lemma EmptySearchShowsAll(suppliers: seq<Supplier>)
    ensures FilteredSuppliers(suppliers, "") == suppliers
  {
    forall i | 0 <= i < |suppliers| ensures SupplierMatches(suppliers[i], "") {
      EmptyTermMatches(suppliers[i].name);
    }
    FilterKeepsAll(suppliers, (c: Supplier) => SupplierMatches(c, ""));
  }

  /** Searching a longer list shows the earlier part's matches first, then the later part's. */
  lemma SearchKeepsOrder(xs: seq<Supplier>, ys: seq<Supplier>, term: string)
    ensures FilteredSuppliers(xs + ys, term) == FilteredSuppliers(xs, term) + FilteredSuppliers(ys, term)
  {
    FilterAppend(xs, ys, (c: Supplier) => SupplierMatches(c, term));
  }

  class SupplierManagementPage {
    const user: Value
    var suppliers: seq<Supplier>
    var loading: bool
    var searchTerm: string
    var showAddSupplier: bool
    var newSupplier: SupplierForm

    constructor (user: Value)
      ensures this.user == user && suppliers == [] && loading && searchTerm == "" && !showAddSupplier
      ensures newSupplier == BlankSupplier(user)
    {
      this.user := user;
      suppliers := [];
      loading := true;
      searchTerm := "";
      showAddSupplier := false;
      newSupplier := BlankSupplier(user);
    }

    /** The rows the table shows. */
    function Visible(): (r: seq<Supplier>)
      reads this
      ensures forall c :: c in r <==> c in suppliers && SupplierMatches(c, searchTerm)
    {
      FilteredSuppliers(suppliers, searchTerm)
    }

    /** `fetchSuppliers`: the list is replaced only by an answer, and loading ends either way. */
    method FetchSuppliers(server: string -> Option<seq<Supplier>>)
      modifies this`suppliers, this`loading
      ensures !loading
      ensures suppliers == server(SuppliersPath(user)).GetOr(old(suppliers))
    {
      var answer := server(SuppliersPath(user));
      if answer.Some? {
        suppliers := answer.value;
      }
      loading := false;
    }

    /**
      `handleAddSupplier`: once the server takes the supplier the dialog
      closes on a blank form and the list is fetched again; when it
      refuses, nothing on the page changes.
    */
    method HandleAddSupplier(accepted: bool, server: string -> Option<seq<Supplier>>)
      modifies this`newSupplier, this`showAddSupplier, this`suppliers, this`loading
      ensures accepted ==>
        newSupplier == BlankSupplier(user) && !showAddSupplier && !loading
        && suppliers == server(SuppliersPath(user)).GetOr(old(suppliers))
      ensures !accepted ==>
        newSupplier == old(newSupplier) && showAddSupplier == old(showAddSupplier)
        && suppliers == old(suppliers) && loading == old(loading)
    {
      if accepted {
        newSupplier := BlankSupplier(user);
        showAddSupplier := false;
        FetchSuppliers(server);
      }
    }
  }
}
