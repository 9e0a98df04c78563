/** Requests and responses of the backend's product endpoints. */
module BackendProductDto {
  import opened Wrappers
  import opened BackendEntities
  import opened BackendValidation
  import BackendTables

  datatype CreateProductRequest = CreateProductRequest(
    name: string, description: string, productType: string, price: int,
    stock: Option<int>, isUnlimited: bool, thumbnailUrl: string, fileUrl: string)

  /** UpdateProductRequest: every field optional (a JSON null or absent key is None). */
  datatype UpdateProductRequest = UpdateProductRequest(
    name: Option<string>, description: Option<string>, price: Option<int>, stock: Option<int>,
    isUnlimited: Option<bool>, thumbnailUrl: Option<string>, fileUrl: Option<string>, isActive: Option<bool>)

  datatype CreateOrderRequest = CreateOrderRequest(productId: nat, quantity: int)

  predicate KnownProductType(t: string) { t == "EBOOK" || t == "ECOURSE" || t == "MATERIAL" || t == "OTHER" }

  /**
   * CreateProductRequest.Validate: the errors and the request as it leaves
   * it, with an empty product type rewritten to OTHER first.
   */
  function ValidateCreateProduct(r: CreateProductRequest): (res: (seq<FieldError>, CreateProductRequest))
    ensures res.1 == if r.productType == "" then r.(productType := "OTHER") else r
    ensures res.0 == [] <==> r.name != "" && KnownProductType(res.1.productType) && r.price > 0
    ensures Reports(res.0, NameField) <==> r.name == ""
    ensures Reports(res.0, ProductTypeField) <==> !KnownProductType(res.1.productType)
    ensures Reports(res.0, PriceField) <==> r.price <= 0
  {
    var n := if r.productType == "" then r.(productType := "OTHER") else r;
    var a := Check(r.name == "", NameField, "Name is required");
    var b := Check(!KnownProductType(n.productType), ProductTypeField, "Invalid product type");
    var c := Check(r.price <= 0, PriceField, "Price must be positive");
    ReportsCheck(r.name == "", NameField, "Name is required");
    ReportsCheck(!KnownProductType(n.productType), ProductTypeField, "Invalid product type");
    ReportsCheck(r.price <= 0, PriceField, "Price must be positive");
    ReportsConcat(a, b);
    ReportsConcat(a + b, c);
    (a + b + c, n)
  }

  /** An empty product type never causes a type error. */
  lemma {:induction false} EmptyProductTypeAccepted(r: CreateProductRequest)
    requires r.productType == ""
    ensures !Reports(ValidateCreateProduct(r).0, ProductTypeField)
    ensures ValidateCreateProduct(r).1.productType == "OTHER"
  {
  }

  /**
   * CreateOrderRequest.Validate: only a missing product id is an error; a
   * quantity below 1 is silently replaced by 1.
   */
  function ValidateCreateOrder(r: CreateOrderRequest): (res: (seq<FieldError>, CreateOrderRequest))
    ensures res.0 == [] <==> r.productId != 0
    ensures Reports(res.0, ProductIdField) <==> r.productId == 0
    ensures res.1.productId == r.productId
    ensures res.1.quantity >= 1
    ensures r.quantity >= 1 ==> res.1.quantity == r.quantity
  {
    ReportsCheck(r.productId == 0, ProductIdField, "Product ID is required");
    (Check(r.productId == 0, ProductIdField, "Product ID is required"),
     if r.quantity <= 0 then r.(quantity := 1) else r)
  }

  /** The JSON view of a product; stock None is omitted from the JSON. */
  datatype ProductResponse = ProductResponse(
    id: nat, sellerId: nat, sellerName: string, name: string, description: string,
    productType: string, price: int, stock: Option<int>, isUnlimited: bool,
    thumbnailUrl: string, soldCount: int, isActive: bool)

  /** ToProductResponse: stock is exposed only when the column is not NULL. */
  function ToProductResponse(p: Product, sellerName: string): (r: ProductResponse)
    ensures r.stock == p.stock
    ensures r.isUnlimited <==> r.stock.None?
    ensures r.isUnlimited == BackendTables.IsUnlimited(p)
    ensures r.id == p.id && r.sellerId == p.sellerId && r.price == p.price && r.soldCount == p.soldCount
    ensures r.description == if p.description.Some? then p.description.value else ""
  {
    ProductResponse(p.id, p.sellerId, sellerName, p.name, p.description.GetOr(""), p.productType,
                    p.price, p.stock, BackendTables.IsUnlimited(p), p.thumbnailUrl.GetOr(""),
                    p.soldCount, p.isActive)
  }
}
