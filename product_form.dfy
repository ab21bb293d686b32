/** The first product editor: a form over a complete product record, the
    defaults merged into a passed product, and the handlers that maintain
    the image and category lists. Submitting only assembles the record. */
module ProductForm {
  import opened Common
  import opened Product
  import ProductActions

  /** The values the form holds. */
  datatype FormValues = FormValues(
    name: string,
    description: string,
    stock: int,
    rating: real,
    productType: string,
    leadTime: int,
    isBestSeller: bool,
    isActive: bool,
    image: string,
    imageBlur: string,
    datasheet: string,
    price: Price,
    discount: Discount,
    usedPrice: Price)

  /** `defaultValues` */
  const DefaultValues := FormValues("", "", 0, 0.0, "", 1, false, true, "", "", "",
                                    ZeroPrice, NoDiscount, ZeroPrice)

  /** `productFormSchema`'s bounds on values the form holds. */
  predicate SchemaAccepts(v: FormValues) {
    ValidBasics(v.name, v.description, v.stock, v.rating, v.productType, v.leadTime) &&
    ValidPrice(v.price) && ValidDiscount(v.discount) && ValidPrice(v.usedPrice)
  }

  /** The `product` property: every key optional, plus the two lists. */
  datatype PartialProduct = PartialProduct(
    images: Option<seq<string>>,
    categories: Option<seq<string>>,
    name: Option<string>,
    description: Option<string>,
    stock: Option<int>,
    rating: Option<real>,
    productType: Option<string>,
    leadTime: Option<int>,
    isBestSeller: Option<bool>,
    isActive: Option<bool>,
    image: Option<string>,
    imageBlur: Option<string>,
    datasheet: Option<string>,
    price: Option<PartialPrice>,
    discount: Option<PartialDiscount>,
    usedPrice: Option<PartialPrice>)

  /** `!!product`: any passed product, even one without keys, means edit mode. */
  predicate IsEditMode(product: Option<PartialProduct>) {
    product.Some?
  }

  /** `initialValues`: the defaults in create mode; in edit mode every
      top-level key of the product over the defaults, with the nested
      records merged key by key. */
  function InitialValues(product: Option<PartialProduct>): (r: FormValues)
    ensures !IsEditMode(product) ==> r == DefaultValues
    ensures IsEditMode(product) ==> var p := product.value;
      r.name == p.name.GetOr(DefaultValues.name) &&
      r.description == p.description.GetOr(DefaultValues.description) &&
      r.stock == p.stock.GetOr(DefaultValues.stock) &&
      r.rating == p.rating.GetOr(DefaultValues.rating) &&
      r.productType == p.productType.GetOr(DefaultValues.productType) &&
      r.leadTime == p.leadTime.GetOr(DefaultValues.leadTime) &&
      r.isBestSeller == p.isBestSeller.GetOr(DefaultValues.isBestSeller) &&
      r.isActive == p.isActive.GetOr(DefaultValues.isActive) &&
      r.image == p.image.GetOr(DefaultValues.image) &&
      r.imageBlur == p.imageBlur.GetOr(DefaultValues.imageBlur) &&
      r.datasheet == p.datasheet.GetOr(DefaultValues.datasheet)
    ensures IsEditMode(product) ==> var p := product.value;
      PriceOver(ZeroPrice, p.price, r.price) &&
      DiscountOver(NoDiscount, p.discount, r.discount) &&
      PriceOver(ZeroPrice, p.usedPrice, r.usedPrice)
  {
    match product
    case None => DefaultValues
    case Some(p) =>
      var d := DefaultValues;
      FormValues(
        p.name.GetOr(d.name), p.description.GetOr(d.description), p.stock.GetOr(d.stock),
        p.rating.GetOr(d.rating), p.productType.GetOr(d.productType), p.leadTime.GetOr(d.leadTime),
        p.isBestSeller.GetOr(d.isBestSeller), p.isActive.GetOr(d.isActive),
        p.image.GetOr(d.image), p.imageBlur.GetOr(d.imageBlur), p.datasheet.GetOr(d.datasheet),
        MergePrice(d.price, p.price), MergeDiscount(d.discount, p.discount),
        MergePrice(d.usedPrice, p.usedPrice))
  }

  /** An empty product object already selects edit mode, and then yields the
      defaults. */
  lemma EmptyProductEditsDefaults()
    ensures var empty := PartialProduct(None, None, None, None, None, None, None, None, None, None,
                                        None, None, None, None, None, None);
            IsEditMode(Some(empty)) && InitialValues(Some(empty)) == DefaultValues
  {
  }

  /** A product given with every key is edited with exactly its values. */
  lemma InitialValuesOfWholeProduct(images: seq<string>, categories: seq<string>, v: FormValues)
    ensures InitialValues(Some(PartialProduct(
      Some(images), Some(categories), Some(v.name), Some(v.description), Some(v.stock), Some(v.rating),
      Some(v.productType), Some(v.leadTime), Some(v.isBestSeller), Some(v.isActive), Some(v.image),
      Some(v.imageBlur), Some(v.datasheet),
      Some(WholePrice(v.price)), Some(WholeDiscount(v.discount)), Some(WholePrice(v.usedPrice))))) == v
  {
    MergeWhole(ZeroPrice, v.price, NoDiscount, v.discount);
    MergeWhole(ZeroPrice, v.usedPrice, NoDiscount, v.discount);
  }

  /** `{ ...data, images, categories }` */
  function Combined(data: FormValues, images: seq<string>, categories: seq<string>): ProductData {
    ProductData(data.name, data.description, data.stock, data.rating, data.productType, data.leadTime,
                data.isBestSeller, data.isActive, data.image, data.imageBlur, data.datasheet,
                images, categories, data.price, data.discount, data.usedPrice)
  }

  /** A record the form accepts is one the server schema accepts, and
      parsing it gives it back unchanged. */
  lemma CombinedParses(data: FormValues, images: seq<string>, categories: seq<string>)
    requires SchemaAccepts(data)
    ensures ValidProduct(Combined(data, images, categories))
    ensures ProductActions.Parse(ProductActions.RawOf(Combined(data, images, categories))) ==
            ProductActions.Parsed(Combined(data, images, categories))
  {
    ProductActions.ParseRoundTrip(Combined(data, images, categories));
  }

  function InitialImages(product: Option<PartialProduct>): seq<string> {
    if product.Some? && product.value.images.Some? then product.value.images.value else []
  }

  function InitialCategories(product: Option<PartialProduct>): seq<string> {
    if product.Some? && product.value.categories.Some? then product.value.categories.value else []
  }

  class ProductEditor {
    const product: Option<PartialProduct>
    /** The values the form was initialised with. */
    const defaults: FormValues

    var images: seq<string>
    var categories: seq<string>
    var newImage: string
    var newCategory: string
    var activeTab: Tab

    constructor (product: Option<PartialProduct>)
      ensures this.product == product && defaults == InitialValues(product)
      ensures images == InitialImages(product) && categories == InitialCategories(product)
      ensures newImage == "" && newCategory == "" && activeTab == Basic
    {
      this.product := product;
      defaults := InitialValues(product);
      images := InitialImages(product);
      categories := InitialCategories(product);
      newImage := "";
      newCategory := "";
      activeTab := Basic;
    }

    /** Typing in the image URL input. */
    method EditNewImage(value: string)
      modifies this`newImage
      ensures newImage == value
    {
      newImage := value;
    }

    /** Typing in the category input. */
    method EditNewCategory(value: string)
      modifies this`newCategory
      ensures newCategory == value
    {
      newCategory := value;
    }

    /** Clicking a tab. */
    method SelectTab(tab: Tab)
      modifies this`activeTab
      ensures activeTab == tab
    {
      activeTab := tab;
    }

    /** `addImage`: appends a non-empty URL that is not yet listed and clears
        the input; otherwise nothing changes. */
    method AddImage()
      modifies this`images, this`newImage
      ensures var added := old(newImage) != "" && old(newImage) !in old(images);
              (added ==> images == old(images) + [old(newImage)] && newImage == "") &&
              (!added ==> images == old(images) && newImage == old(newImage))
      ensures NoDuplicates(old(images)) ==> NoDuplicates(images)
    {
      if newImage != "" && newImage !in images {
        images := images + [newImage];
        newImage := "";
      }
    }

    /** `removeImage(index)`: drops exactly the element at `index`. */
    method RemoveImage(index: int)
      modifies this`images
      ensures images == RemoveAt(old(images), index)
      ensures 0 <= index < |old(images)| ==>
                images == old(images)[..index] + old(images)[index + 1..] && |images| == |old(images)| - 1
      ensures !(0 <= index < |old(images)|) ==> images == old(images)
      ensures NoDuplicates(old(images)) ==> NoDuplicates(images)
    {
      RemoveAtSlices(images, index);
      if NoDuplicates(images) {
        RemoveAtNoDuplicates(images, index);
      }
      images := RemoveAt(images, index);
    }

    /** `addCategory`: appends a non-empty category that is not yet listed
        and clears the input; otherwise nothing changes. */
    method AddCategory()
      modifies this`categories, this`newCategory
      ensures var added := old(newCategory) != "" && old(newCategory) !in old(categories);
              (added ==> categories == old(categories) + [old(newCategory)] && newCategory == "") &&
              (!added ==> categories == old(categories) && newCategory == old(newCategory))
      ensures NoDuplicates(old(categories)) ==> NoDuplicates(categories)
    {
      if newCategory != "" && newCategory !in categories {
        categories := categories + [newCategory];
        newCategory := "";
      }
    }

    /** `removeCategory(index)`: drops the element at `index`, so exactly one
        category goes even when the same text is listed twice. */
    method RemoveCategory(index: int)
      modifies this`categories
      ensures categories == RemoveAt(old(categories), index)
      ensures 0 <= index < |old(categories)| ==>
                categories == old(categories)[..index] + old(categories)[index + 1..] &&
                |categories| == |old(categories)| - 1
      ensures !(0 <= index < |old(categories)|) ==> categories == old(categories)
      ensures NoDuplicates(old(categories)) ==> NoDuplicates(categories)
    {
      RemoveAtSlices(categories, index);
      if NoDuplicates(categories) {
        RemoveAtNoDuplicates(categories, index);
      }
      categories := RemoveAt(categories, index);
    }

    /** `onSubmit(data)`: the validated values with the editor's own image
        and category lists; nothing in the editor changes. */
    method OnSubmit(data: FormValues) returns (productData: ProductData)
      ensures productData == Combined(data, images, categories)
      ensures productData.images == images && productData.categories == categories
      ensures SchemaAccepts(data) ==> ValidProduct(productData)
    {
      productData := Combined(data, images, categories);
    }
  }
}
