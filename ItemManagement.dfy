/**
  The item catalog page: the company's items and categories as fetched,
  the search box over them, and the dialogs that add an item or a
  category. A request is a path the page asks for and the server's answer
  to it, `None` when the request fails.
*/
module ItemManagement {
  import opened Wrappers
  import opened Json
  import opened Session
  import opened Models
  import opened Lists
  import opened Search

  /** The item dialog's fields as typed: numbers stay text until the server reads them. */
  datatype ItemForm = ItemForm(
    name: string, description: string, sku: string, hsnCode: string, categoryId: string, unit: string,
    gstRate: string, purchasePrice: string, sellingPrice: string, minStockLevel: string, maxStockLevel: string,
    isBatchTracked: bool, companyId: Leaf)

  datatype CategoryForm = CategoryForm(name: string, description: string, companyId: Leaf)

  /** The item dialog when it opens and after every item added: blank, not batch-tracked, the user's company. */
  function BlankItem(user: Value): (r: ItemForm)
    ensures r.name == r.description == r.sku == r.hsnCode == r.categoryId == r.unit == ""
    ensures r.gstRate == r.purchasePrice == r.sellingPrice == r.minStockLevel == r.maxStockLevel == ""
    ensures !r.isBatchTracked && r.companyId == Company(user)
  {
    ItemForm("", "", "", "", "", "", "", "", "", "", "", false, Company(user))
  }

  function BlankCategory(user: Value): (r: CategoryForm)
    ensures r.name == r.description == "" && r.companyId == Company(user)
  {
    CategoryForm("", "", Company(user))
  }

  function ItemsPath(user: Value): string {
    "/items?company_id=" + CompanyParam(user)
  }

  function CategoriesPath(user: Value): string {
    "/categories?company_id=" + CompanyParam(user)
  }

  /** The items the search box lets through, in the order fetched. */
  function FilteredItems(items: seq<Item>, term: string): (r: seq<Item>)
    ensures forall x :: x in r <==> x in items && NameOrSkuMatches(x.name, x.sku, term)
  {
    Filter(items, (x: Item) => NameOrSkuMatches(x.name, x.sku, term))
  }

  /** An empty search box shows every item. */
  lemma EmptySearchShowsAll(items: seq<Item>)
    ensures FilteredItems(items, "") == items
  {
    forall i | 0 <= i < |items| ensures NameOrSkuMatches(items[i].name, items[i].sku, "") {
      EmptyTermMatches(items[i].name);
    }
    FilterKeepsAll(items, (x: Item) => NameOrSkuMatches(x.name, x.sku, ""));
  }

  /** Searching a longer list shows the earlier part's matches first, then the later part's. */
  lemma SearchKeepsOrder(xs: seq<Item>, ys: seq<Item>, term: string)
    ensures FilteredItems(xs + ys, term) == FilteredItems(xs, term) + FilteredItems(ys, term)
  {
    FilterAppend(xs, ys, (x: Item) => NameOrSkuMatches(x.name, x.sku, term));
  }

  const UnknownCategory := "Unknown Category"

  /** The name of the first category with the id, or the placeholder when there is none. */
  function CategoryName(categories: seq<ItemCategory>, categoryId: string): (r: string)
    ensures (forall j :: 0 <= j < |categories| ==> categories[j].categoryId != categoryId) ==> r == UnknownCategory
    ensures (exists j :: 0 <= j < |categories| && categories[j].categoryId == categoryId) ==>
      exists k :: 0 <= k < |categories| && categories[k].categoryId == categoryId && r == categories[k].name
        && forall j :: 0 <= j < k ==> categories[j].categoryId != categoryId
  {
    match FirstIndex(categories, (c: ItemCategory) => c.categoryId == categoryId)
    case Some(k) => categories[k].name
    case None => UnknownCategory
  }

  class ItemManagementPage {
    const user: Value
    var items: seq<Item>
    var categories: seq<ItemCategory>
    var loading: bool
    var searchTerm: string
    var showAddItem: bool
    var showAddCategory: bool
    var newItem: ItemForm
    var newCategory: CategoryForm

    constructor (user: Value)
      ensures this.user == user && items == [] && categories == [] && loading && searchTerm == ""
      ensures !showAddItem && !showAddCategory
      ensures newItem == BlankItem(user) && newCategory == BlankCategory(user)
    {
      this.user := user;
      items, categories := [], [];
      loading := true;
      searchTerm := "";
      showAddItem, showAddCategory := false, false;
      newItem := BlankItem(user);
      newCategory := BlankCategory(user);
    }

    /** The rows the table shows. */
    function Visible(): (r: seq<Item>)
      reads this
      ensures forall x :: x in r <==> x in items && NameOrSkuMatches(x.name, x.sku, searchTerm)
    {
      FilteredItems(items, searchTerm)
    }

    /** `fetchItems`: the list is replaced only by an answer, and loading ends either way. */
    method FetchItems(server: string -> Option<seq<Item>>)
      modifies this`items, this`loading
      ensures !loading
      ensures items == server(ItemsPath(user)).GetOr(old(items))
    {
      var answer := server(ItemsPath(user));
      if answer.Some? {
        items := answer.value;
      }
      loading := false;
    }

    /** `fetchCategories`: a failure keeps the categories already shown. */
    method FetchCategories(server: string -> Option<seq<ItemCategory>>)
      modifies this`categories
      ensures categories == server(CategoriesPath(user)).GetOr(old(categories))
    {
      var answer := server(CategoriesPath(user));
      if answer.Some? {
        categories := answer.value;
      }
    }

    /**
      `handleAddItem`: once the server takes the item the dialog closes on a
      blank form and the list is fetched again; when it refuses, nothing
      on the page changes.
    */
    method HandleAddItem(accepted: bool, server: string -> Option<seq<Item>>)
      modifies this`newItem, this`showAddItem, this`items, this`loading
      ensures accepted ==>
        newItem == BlankItem(user) && !showAddItem && !loading && items == server(ItemsPath(user)).GetOr(old(items))
      ensures !accepted ==>
        newItem == old(newItem) && showAddItem == old(showAddItem) && items == old(items) && loading == old(loading)
    {
      if accepted {
        newItem := BlankItem(user);
        showAddItem := false;
        FetchItems(server);
      }
    }

    /** `handleAddCategory`: the same pattern for the category dialog. */
    method HandleAddCategory(accepted: bool, server: string -> Option<seq<ItemCategory>>)
      modifies this`newCategory, this`showAddCategory, this`categories
      ensures accepted ==>
        newCategory == BlankCategory(user) && !showAddCategory && categories == server(CategoriesPath(user)).GetOr(old(categories))
      ensures !accepted ==>
        newCategory == old(newCategory) && showAddCategory == old(showAddCategory) && categories == old(categories)
    {
      if accepted {
        newCategory := BlankCategory(user);
        showAddCategory := false;
        FetchCategories(server);
      }
    }
  }
}
