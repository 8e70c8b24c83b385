/**
 * The state of the admin products page and the handlers that change it. Each React
 * `useState` pair is a field; each handler is a method that changes exactly the fields
 * its `set...` calls change. The server's answer to a request is a parameter.
 */
module ProductsPage {
  import opened Wrappers
  import opened Barcode
  import opened Products

  /** The two filter kinds `handleFilterChange` accepts. */
  datatype FilterType = CategoryFilter | StockFilter

  /** How the DELETE request ended: accepted, refused by the server, or thrown. */
  datatype DeleteOutcome = Deleted | Refused | Threw

  /** One printed barcode label. */
  datatype BarcodeCard = BarcodeCard(title: string, name: string, price: real, payload: string)

  /** The shop name printed on every label. */
  const BarcodeTitle: string := "ALWAYSWEARME"

  class Page {
    var products: seq<Product>
    var searchTerm: string
    var filters: Filters
    var currentPage: int
    var isAddProductDialogOpen: bool
    var isEditProductDialogOpen: bool
    var isDeleteConfirmationOpen: bool
    var selectedProductId: Option<int>
    var productName: string
    var productDescription: string
    var productPrice: real
    var productInStock: int
    var productCategory: string
    var productToDelete: Option<Product>

    /** The product form is empty and no product is selected. */
    predicate FormCleared()
      reads this
    {
      && selectedProductId == None
      && productName == "" && productDescription == "" && productPrice == 0.0
      && productInStock == 0 && productCategory == ""
    }

    /** The initial `useState` values. */
    constructor ()
      ensures products == [] && searchTerm == "" && filters == Filters("all", "all")
      ensures currentPage == 1
      ensures !isAddProductDialogOpen && !isEditProductDialogOpen && !isDeleteConfirmationOpen
      ensures productToDelete == None && FormCleared()
    {
      products := [];
      searchTerm := "";
      filters := Filters("all", "all");
      currentPage := 1;
      isAddProductDialogOpen := false;
      isEditProductDialogOpen := false;
      isDeleteConfirmationOpen := false;
      selectedProductId := None;
      productName := "";
      productDescription := "";
      productPrice := 0.0;
      productInStock := 0;
      productCategory := "";
      productToDelete := None;
    }

    /** The products shown on the current page (`currentProducts`): at most ten, and on a
        page from 1 on, a run of consecutive filtered products. */
    function Visible(md5: string -> HexDigest): (shown: seq<Product>)
      reads this
      ensures currentPage >= 1 ==> |shown| <= ProductsPerPage
      ensures currentPage >= 1 ==>
        var filtered := FilteredProducts(md5, products, filters, searchTerm);
        shown == filtered[Min((currentPage - 1) * ProductsPerPage, |filtered|)..
                          Min(currentPage * ProductsPerPage, |filtered|)]
    {
      var filtered := FilteredProducts(md5, products, filters, searchTerm);
      if currentPage >= 1 then CurrentPageWindow(filtered, currentPage); CurrentProducts(filtered, currentPage)
      else CurrentProducts(filtered, currentPage)
    }

    /** `resetSelectedProduct`: clears the form. */
    method ResetSelectedProduct()
      modifies this`selectedProductId, this`productName, this`productDescription,
               this`productPrice, this`productInStock, this`productCategory
      ensures FormCleared()
    {
      selectedProductId := None;
      productName := "";
      productDescription := "";
      productPrice := 0.0;
      productInStock := 0;
      productCategory := "";
    }

    /** `handleSearch`: a new search term sends the list back to page 1. */
    method HandleSearch(value: string)
      modifies this`searchTerm, this`currentPage
      ensures searchTerm == value && currentPage == 1
    {
      searchTerm := value;
      currentPage := 1;
    }

    /** `handleFilterChange`: sets one filter, keeps the other, and goes back to page 1. */
    method HandleFilterChange(filterType: FilterType, value: string)
      modifies this`filters, this`currentPage
      ensures filterType == CategoryFilter ==> filters == old(filters).(category := value)
      ensures filterType == StockFilter ==> filters == old(filters).(inStock := value)
      ensures currentPage == 1
    {
      match filterType {
        case CategoryFilter => filters := filters.(category := value);
        case StockFilter => filters := filters.(inStock := value);
      }
      currentPage := 1;
    }

    /** `handlePageChange`. */
    method HandlePageChange(page: int)
      modifies this`currentPage
      ensures currentPage == page
    {
      currentPage := page;
    }

    /** The edit button of a row: loads the product into the form and opens the dialog. */
    method OpenEditDialog(p: Product)
      modifies this`selectedProductId, this`productName, this`productDescription,
               this`productPrice, this`productInStock, this`productCategory,
               this`isEditProductDialogOpen
      ensures selectedProductId == Some(p.id) && productName == p.name
      ensures productDescription == p.description && productPrice == p.price
      ensures productInStock == p.inStock && productCategory == p.category
      ensures isEditProductDialogOpen
    {
      selectedProductId := Some(p.id);
      productName := p.name;
      productDescription := p.description;
      productPrice := p.price;
      productInStock := p.inStock;
      productCategory := p.category;
      isEditProductDialogOpen := true;
    }

    /** The delete button of a row: remembers the product and asks for confirmation. */
    method OpenDeleteConfirmation(p: Product)
      modifies this`productToDelete, this`isDeleteConfirmationOpen
      ensures productToDelete == Some(p) && isDeleteConfirmationOpen
    {
      productToDelete := Some(p);
      isDeleteConfirmationOpen := true;
    }

    /** `handleAddProduct`. `added` is the created product the server sends back, or
        `None` when the request failed; a failure changes nothing. */
    method HandleAddProduct(added: Option<Product>)
      modifies this`products, this`isAddProductDialogOpen, this`selectedProductId,
               this`productName, this`productDescription, this`productPrice,
               this`productInStock, this`productCategory
      ensures added.None? ==> unchanged(this)
      ensures added.Some? ==> products == old(products) + [added.value]
      ensures added.Some? ==> !isAddProductDialogOpen && FormCleared()
    {
      if added.Some? {
        products := products + [added.value];
        isAddProductDialogOpen := false;
        ResetSelectedProduct();
      }
    }

    /** `handleEditProduct`. Nothing happens when no product is selected (`null` or id 0).
        `updated` is the product the server sends back, or `None` when the request failed;
        the list entries carrying the returned product's id are replaced by it. */
    method HandleEditProduct(updated: Option<Product>)
      modifies this`products, this`isEditProductDialogOpen, this`selectedProductId,
               this`productName, this`productDescription, this`productPrice,
               this`productInStock, this`productCategory
      ensures old(selectedProductId) in {None, Some(0)} || updated.None? ==> unchanged(this)
      ensures old(selectedProductId) !in {None, Some(0)} && updated.Some? ==>
        && products == ReplaceById(old(products), updated.value)
        && !isEditProductDialogOpen && FormCleared()
    {
      if selectedProductId.None? || selectedProductId == Some(0) {
        return;
      }
      if updated.Some? {
        products := ReplaceById(products, updated.value);
        isEditProductDialogOpen := false;
        ResetSelectedProduct();
      }
    }

    /** `handleDeleteProduct`. Nothing happens without a product to delete. A refusal only
        closes the confirmation; a thrown request changes nothing. */
    method HandleDeleteProduct(outcome: DeleteOutcome)
      modifies this`products, this`isDeleteConfirmationOpen, this`productToDelete
      ensures old(productToDelete).None? || outcome == Threw ==> unchanged(this)
      ensures old(productToDelete).Some? && outcome == Deleted ==>
        && products == RemoveById(old(products), old(productToDelete).value.id)
        && !isDeleteConfirmationOpen && productToDelete == None
      ensures old(productToDelete).Some? && outcome == Refused ==>
        && products == old(products) && productToDelete == old(productToDelete)
        && !isDeleteConfirmationOpen
    {
      if productToDelete.None? {
        return;
      }
      match outcome
      case Deleted =>
        products := RemoveById(products, productToDelete.value.id);
        isDeleteConfirmationOpen := false;
        productToDelete := None;
      case Refused =>
        isDeleteConfirmationOpen := false;
      case Threw =>
    }

    /** `renderBarcodeCards`: one label per unit in stock, every label alike, carrying the
        payload of the selected product's id (0 when none is selected). */
    method RenderBarcodeCards(md5: string -> HexDigest) returns (cards: seq<BarcodeCard>)
      ensures |cards| == Max(productInStock, 0)
      ensures forall i :: 0 <= i < |cards| ==>
        cards[i] == BarcodeCard(BarcodeTitle, productName, productPrice,
                                GenerateBarcodeNumbers(md5, IntToDecimal(selectedProductId.GetOr(0))))
    {
      var payload := GenerateBarcodeNumbers(md5, IntToDecimal(selectedProductId.GetOr(0)));
      var card := BarcodeCard(BarcodeTitle, productName, productPrice, payload);
      cards := [];
      var i := 0;
      while i < productInStock
        invariant 0 <= i <= Max(productInStock, 0)
        invariant |cards| == i
        invariant forall k :: 0 <= k < |cards| ==> cards[k] == card
      {
        cards := cards + [card];
        i := i + 1;
      }
    }
  }
}
