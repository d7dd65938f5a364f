/** The admin products page: the image-cell classification, the create-form
    check and reset, the Prev/Next clamps, the normalisation of the three
    shapes the product list may arrive in, and the edit-modal state. Each
    request is split at its `await`: the part before it runs in one method,
    the part after it in another that receives the request's outcome. */
module AdminProducts {
  import opened JsValues

  /** A product as the page holds it. */
  datatype Product = Product(id: int, name: string, price: int, description: string, image: string)

  /** What the image cell of a row shows. */
  datatype ImageView = Placeholder | Picture(src: string) | Glyph(text: string)

  /** `renderImage`: a missing or empty string gives the placeholder; a string
      that begins with "http" or "/" is shown as a picture (the prefix alone
      decides); anything else is shown as text. */
  function RenderImage(img: Option<string>): (v: ImageView)
    ensures v.Placeholder? <==> img.None? || img.value == ""
    ensures v.Picture? <==> img.Some? && img.value != "" && ("http" <= img.value || "/" <= img.value)
    ensures v.Picture? ==> v.src == img.value
    ensures v.Glyph? ==> v.text == img.value && v.text != ""
  {
    match img
    case None => Placeholder
    case Some(s) =>
      if s == "" then Placeholder
      else if "http" <= s || "/" <= s then Picture(s)
      else Glyph(s)
  }

  /** The price field of the create form: empty, a number, or something that
      `Number(...)` turns into `NaN`. */
  datatype PriceInput = Blank | Number(value: int) | NotANumber

  /** The create form's four fields. */
  datatype CreateForm = CreateForm(name: string, price: PriceInput, description: string, image: string)

  /** The form as it starts and as it is reset after a create. */
  const EmptyForm := CreateForm("", Blank, "", "")

  /** The body of the create request. */
  datatype NewProduct = NewProduct(name: string, price: int, description: string, image: string)

  /** The check at the top of `handleCreate`: a name and a numeric price are
      required. The sign of the price is not checked. */
  predicate CreateFormValid(f: CreateForm): (ok: bool)
    ensures ok <==> f.name != "" && !f.price.Blank? && !f.price.NotANumber?
  {
    f.name != "" && f.price.Number?
  }

  /** The create request a form yields: none when the check fails, otherwise
      the form's fields with the price as a number. */
  function CreateRequest(f: CreateForm): (r: Option<NewProduct>)
    ensures r.None? <==> f.name == "" || f.price.Blank? || f.price.NotANumber?
    ensures r.Some? ==> r.value.name == f.name && r.value.price == f.price.value
    ensures r.Some? ==> r.value.description == f.description && r.value.image == f.image
  {
    if CreateFormValid(f) then Some(NewProduct(f.name, f.price.value, f.description, f.image)) else None
  }

  /** The page the "Prev" button asks for: `Math.max(1, page - 1)`. */
  function PrevPage(page: int): (p: int)
    ensures p >= 1
    ensures page > 1 ==> p == page - 1
    ensures page <= 1 ==> p == 1
  {
    if page - 1 < 1 then 1 else page - 1
  }

  /** The page the "Next" button asks for: `Math.min(totalPages, page + 1)`. */
  function NextPage(page: int, totalPages: int): (p: int)
    ensures p <= totalPages
    ensures page < totalPages ==> p == page + 1
    ensures page >= totalPages ==> p == totalPages
  {
    if totalPages < page + 1 then totalPages else page + 1
  }

  /** From any page in `[1, totalPages]` both buttons lead to a page in
      `[1, totalPages]`, one step away or, at the ends, the same page. When
      there is more than one page the two buttons lead to different pages. */
  lemma PagerStaysInRange(page: int, totalPages: int)
    requires 1 <= page <= totalPages
    ensures 1 <= PrevPage(page) <= page <= NextPage(page, totalPages) <= totalPages
    ensures PrevPage(page) == page <==> page == 1
    ensures NextPage(page, totalPages) == page <==> page == totalPages
    ensures totalPages > 1 ==> PrevPage(page) < NextPage(page, totalPages)
  {
  }

  /** `pagination` in the newer response shape. */
  datatype Pagination = Pagination(currentPage: Option<int>, totalPages: Option<int>)

  /** The response body of `GET /products?page=p`: a plain array (the older
      API) or an object whose fields may each be missing. */
  datatype ProductsBody =
    | ArrayBody(list: seq<Product>)
    | ObjectBody(products: Option<seq<Product>>, pagination: Option<Pagination>, totalPages: Option<int>)

  /** What the page shows after a successful fetch. */
  datatype Listing = Listing(products: seq<Product>, page: int, totalPages: int)

  /** The object shape's numbers, where present, are non-negative. */
  predicate CountsNonNegative(body: ProductsBody)
  {
    body.ObjectBody? &&
    (body.pagination.Some? ==>
      (body.pagination.value.currentPage.Some? ==> body.pagination.value.currentPage.value >= 0) &&
      (body.pagination.value.totalPages.Some? ==> body.pagination.value.totalPages.value >= 0)) &&
    (body.totalPages.Some? ==> body.totalPages.value >= 0)
  }

  /** The three-way normalisation in `fetchProducts` for requested page `p`.
      The products always come from the body (an absent list reads as
      empty) and the plain array always shows page 1 of 1. The newer shape
      treats a zero page or page count as missing (`||`), so with
      non-negative numbers and a requested page of at least 1 it shows a
      page and a page count of at least 1. Without both `products` and
      `pagination` the requested page is shown and the body's page count is
      taken as it is (`??`), a zero included. */
  function Normalise(body: ProductsBody, p: int): (l: Listing)
    ensures body.ArrayBody? ==> l == Listing(body.list, 1, 1)
    ensures body.ObjectBody? ==> l.products == Coalesce(body.products, [])
    ensures body.ObjectBody? && body.products.Some? && body.pagination.Some? ==>
      l.page == NumOrElse(body.pagination.value.currentPage, p) &&
      l.totalPages == NumOrElse(body.pagination.value.totalPages, 1)
    ensures body.ObjectBody? && (body.pagination.None? || body.products.None?) ==>
      l.page == p && l.totalPages == Coalesce(body.totalPages, 1)
    ensures CountsNonNegative(body) && body.products.Some? && body.pagination.Some? && p >= 1 ==>
      l.page >= 1 && l.totalPages >= 1
    ensures CountsNonNegative(body) && body.pagination.None? && p >= 1 ==>
      l.page >= 1 && (l.totalPages >= 1 <==> body.totalPages != Some(0))
  {
    match body
    case ArrayBody(list) => Listing(list, 1, 1)
    case ObjectBody(products, pagination, totalPages) =>
      if products.Some? && pagination.Some? then
        Listing(products.value, NumOrElse(pagination.value.currentPage, p), NumOrElse(pagination.value.totalPages, 1))
      else
        Listing(Coalesce(products, []), p, Coalesce(totalPages, 1))
  }

  const LoadFailedMessage := "Failed to load products"

  /** The error `fetchProducts` shows: the response's message, else the
      error's own message, else the fixed fallback; never empty. */
  function LoadErrorMessage(responseMessage: Option<string>, errorMessage: Option<string>): (m: string)
    ensures m != ""
    ensures responseMessage.Some? && responseMessage.value != "" ==> m == responseMessage.value
    ensures (responseMessage.None? || responseMessage.value == "") && errorMessage.Some? && errorMessage.value != "" ==>
      m == errorMessage.value
    ensures (responseMessage.None? || responseMessage.value == "") && (errorMessage.None? || errorMessage.value == "") ==>
      m == LoadFailedMessage
  {
    OrElse(responseMessage, OrElse(errorMessage, LoadFailedMessage))
  }

  /** How the list request ends. */
  datatype FetchOutcome = Loaded(body: ProductsBody) | Failed(responseMessage: Option<string>, errorMessage: Option<string>)

  /** The page's state. */
  class AdminProductsPage {
    var products: seq<Product>
    var page: int
    var totalPages: int
    var loading: bool
    var error: Option<string>
    var form: CreateForm
    var editing: bool
    var editProduct: Option<Product>

    constructor ()
      ensures products == [] && page == 1 && totalPages == 1
      ensures loading && error == None
      ensures form == EmptyForm && !editing && editProduct == None
    {
      products := [];
      page := 1;
      totalPages := 1;
      loading := true;
      error := None;
      form := EmptyForm;
      editing := false;
      editProduct := None;
    }

    /** `fetchProducts(p)` up to the request: `loading` set, error cleared. */
    method BeginFetch(p: int) returns (requested: int)
      modifies this`loading, this`error
      ensures requested == p && loading && error == None
    {
      loading := true;
      error := None;
      requested := p;
    }

    /** `fetchProducts(p)` after the request: on success the normalised
        listing replaces the list, page and page count; on failure those
        stay and the error is shown; `loading` is cleared either way. */
    method SettleFetch(p: int, outcome: FetchOutcome)
      modifies this`products, this`page, this`totalPages, this`error, this`loading
      ensures !loading
      ensures outcome.Loaded? ==> Listing(products, page, totalPages) == Normalise(outcome.body, p) && error == old(error)
      ensures outcome.Failed? ==> error == Some(LoadErrorMessage(outcome.responseMessage, outcome.errorMessage))
      ensures outcome.Failed? ==> products == old(products) && page == old(page) && totalPages == old(totalPages)
    {
      match outcome {
        case Loaded(body) =>
          var l := Normalise(body, p);
          products := l.products;
          page := l.page;
          totalPages := l.totalPages;
        case Failed(r, e) =>
          error := Some(LoadErrorMessage(r, e));
      }
      loading := false;
    }

    /** `changePage(p)`: the page is set, then a fetch of it begins. */
    method ChangePage(p: int) returns (requested: int)
      modifies this`page, this`loading, this`error
      ensures page == p && requested == p
      ensures loading && error == None
    {
      page := p;
      requested := BeginFetch(p);
    }

    /** `handleCreate`: an invalid form sends nothing and changes nothing; a
        valid one sends its fields. When the create succeeds the form is
        reset and a fetch of the current page begins; when it fails the form
        is kept for another try. */
    method HandleCreate(created: bool) returns (sent: Option<NewProduct>, refetch: Option<int>)
      modifies this`form, this`loading, this`error
      ensures sent == CreateRequest(old(form))
      ensures sent.None? ==> refetch == None && form == old(form) && loading == old(loading) && error == old(error)
      ensures sent.Some? && created ==> form == EmptyForm && refetch == Some(page) && loading && error == None
      ensures sent.Some? && !created ==> form == old(form) && refetch == None && loading == old(loading) && error == old(error)
    {
      sent := CreateRequest(form);
      refetch := None;
      if sent.None? {
        return;
      }
      if created {
        form := EmptyForm;
        var p := BeginFetch(page);
        refetch := Some(p);
      }
    }

    /** `openEdit`: the modal opens on a copy of the product. */
    method OpenEdit(p: Product)
      modifies this`editProduct, this`editing
      ensures editing && editProduct == Some(p)
    {
      editProduct := Some(p);
      editing := true;
    }

    /** `closeEdit`: the modal closes and forgets the product. */
    method CloseEdit()
      modifies this`editProduct, this`editing
      ensures !editing && editProduct == None
    {
      editProduct := None;
      editing := false;
    }

    /** The Prev/Next controls are shown only when there is more than one
        page; then, from a page in range, the two buttons lead to different
        pages inside the range. */
    function PagerShown(): (shown: bool)
      reads this
      ensures shown <==> totalPages > 1
      ensures shown && 1 <= page <= totalPages ==>
        1 <= PrevPage(page) < NextPage(page, totalPages) <= totalPages
    {
      totalPages > 1
    }
  }
}
