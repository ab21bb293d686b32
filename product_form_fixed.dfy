/** The product editor (create and edit mode): its form defaults, the merge
    of an existing product into them, and the handlers that maintain the
    image and category lists, the error flags and the active tab. */
module ProductFormFixed {
  import opened Common
  import opened Product
  import ProductActions

  // ---------------------------------------------------------------------
  // Form values

  /** The values the form holds; `datasheet` is `None` when it is `null`. */
  datatype FormValues = FormValues(
    name: string,
    description: string,
    stock: int,
    rating: real,
    productType: string,
    leadTime: int,
    isBestSeller: bool,
    isActive: bool,
    image: string,
    imageBlur: string,
    datasheet: Option<string>,
    price: Price,
    discount: Discount,
    usedPrice: Price,
    categories: seq<string>)

  /** `defaultValues` */
  const DefaultValues := FormValues("", "", 0, 0.0, "", 1, false, true, "", "", Some(""),
                                    ZeroPrice, NoDiscount, ZeroPrice, [])

  /** The editor's bounds: those of every product schema, and at least one
      category. */
  predicate SchemaAccepts(v: FormValues) {
    ValidBasics(v.name, v.description, v.stock, v.rating, v.productType, v.leadTime) &&
    ValidPrice(v.price) && ValidDiscount(v.discount) && ValidPrice(v.usedPrice) &&
    |v.categories| >= 1
  }

  /** The `product` property: every key optional. */
  datatype PartialProduct = PartialProduct(
    id: Option<string>,
    images: Option<seq<string>>,
    categories: Option<seq<string>>,
    name: Option<string>,
    description: Option<string>,
    stock: Option<int>,
    rating: Option<real>,
    productType: Option<string>,
    leadTime: Option<int>,
    isBestSeller: Option<bool>,
    isActive: Option<bool>,
    image: Option<string>,
    imageBlur: Option<string>,
    datasheet: Option<Option<string>>,
    price: Option<PartialPrice>,
    discount: Option<PartialDiscount>,
    usedPrice: Option<PartialPrice>)

  /** `!!product?.id`: an empty id means create mode. */
  predicate IsEditMode(product: Option<PartialProduct>) {
    product.Some? && product.value.id.Some? && product.value.id.value != ""
  }

  /** `initialValues`: the defaults in create mode; in edit mode every
      top-level key of the product over the defaults, with price, discount
      and used price (and their currencies) merged key by key. */
  function InitialValues(product: Option<PartialProduct>): (r: FormValues)
    ensures !IsEditMode(product) ==> r == DefaultValues
    ensures IsEditMode(product) ==> var p := product.value;
      r.name == p.name.GetOr(DefaultValues.name) &&
      r.description == p.description.GetOr(DefaultValues.description) &&
      r.stock == p.stock.GetOr(DefaultValues.stock) &&
      r.rating == p.rating.GetOr(DefaultValues.rating) &&
      r.productType == p.productType.GetOr(DefaultValues.productType) &&
      r.leadTime == p.leadTime.GetOr(DefaultValues.leadTime) &&
      r.isBestSeller == p.isBestSeller.GetOr(DefaultValues.isBestSeller) &&
      r.isActive == p.isActive.GetOr(DefaultValues.isActive) &&
      r.image == p.image.GetOr(DefaultValues.image) &&
      r.imageBlur == p.imageBlur.GetOr(DefaultValues.imageBlur) &&
      r.datasheet == p.datasheet.GetOr(DefaultValues.datasheet) &&
      r.categories == p.categories.GetOr(DefaultValues.categories)
    ensures IsEditMode(product) ==> var p := product.value;
      PriceOver(ZeroPrice, p.price, r.price) &&
      DiscountOver(NoDiscount, p.discount, r.discount) &&
      PriceOver(ZeroPrice, p.usedPrice, r.usedPrice)
  {
    if !IsEditMode(product) then DefaultValues
    else
      var p, d := product.value, DefaultValues;
      FormValues(
        p.name.GetOr(d.name), p.description.GetOr(d.description), p.stock.GetOr(d.stock),
        p.rating.GetOr(d.rating), p.productType.GetOr(d.productType), p.leadTime.GetOr(d.leadTime),
        p.isBestSeller.GetOr(d.isBestSeller), p.isActive.GetOr(d.isActive),
        p.image.GetOr(d.image), p.imageBlur.GetOr(d.imageBlur), p.datasheet.GetOr(d.datasheet),
        MergePrice(d.price, p.price), MergeDiscount(d.discount, p.discount),
        MergePrice(d.usedPrice, p.usedPrice), p.categories.GetOr(d.categories))
  }

  /** A product given with every key. */
  function WholeProduct(id: string, images: seq<string>, v: FormValues): PartialProduct {
    PartialProduct(
      Some(id), Some(images), Some(v.categories), Some(v.name), Some(v.description), Some(v.stock),
      Some(v.rating), Some(v.productType), Some(v.leadTime), Some(v.isBestSeller), Some(v.isActive),
      Some(v.image), Some(v.imageBlur), Some(v.datasheet),
      Some(WholePrice(v.price)), Some(WholeDiscount(v.discount)), Some(WholePrice(v.usedPrice)))
  }

  /** Editing a product that carries every key starts from exactly its values. */
  lemma InitialValuesOfWholeProduct(id: string, images: seq<string>, v: FormValues)
    requires id != ""
    ensures InitialValues(Some(WholeProduct(id, images, v))) == v
  {
    MergeWhole(ZeroPrice, v.price, NoDiscount, v.discount);
    MergeWhole(ZeroPrice, v.usedPrice, NoDiscount, v.discount);
  }

  /** Editing a product that carries only its id starts from the defaults. */
  lemma InitialValuesOfBareProduct(id: string)
    requires id != ""
    ensures InitialValues(Some(PartialProduct(Some(id), None, None, None, None, None, None, None, None,
                                              None, None, None, None, None, None, None, None)))
            == DefaultValues
  {
  }

  /** A price given without a currency keeps the default currency, and one
      given with only a code keeps the default base and exponent. */
  lemma InitialPriceKeepsDefaultCurrency(product: PartialProduct, amount: real, code: string)
    requires product.id.Some? && product.id.value != ""
    requires product.price == Some(PartialPrice(Some(amount), None, None))
    requires product.usedPrice == Some(PartialPrice(None, None, Some(PartialCurrency(Some(code), None, None))))
    ensures InitialValues(Some(product)).price == Price(amount, 100, Currency("USD", 10, 2))
    ensures InitialValues(Some(product)).usedPrice == Price(0.0, 100, Currency(code, 10, 2))
  {
  }

  // ---------------------------------------------------------------------
  // Category options and search

  datatype CategoryOption = CategoryOption(value: string, caption: string)

  /** `categoryOptions` */
  const CategoryOptions: seq<CategoryOption> := [
    CategoryOption("featured", "Featured"),
    CategoryOption("new-arrivals", "New Arrivals"),
    CategoryOption("bestseller", "Best Seller"),
    CategoryOption("sale", "On Sale"),
    CategoryOption("premium", "Premium"),
    CategoryOption("limited-edition", "Limited Edition"),
    CategoryOption("eco-friendly", "Eco-Friendly"),
    CategoryOption("handmade", "Handmade"),
    CategoryOption("imported", "Imported"),
    CategoryOption("local", "Local"),
    CategoryOption("seasonal", "Seasonal"),
    CategoryOption("clearance", "Clearance")
  ]

  /** Whether an option's caption contains the search text, ignoring case. */
  predicate LabelMatches(o: CategoryOption, search: string) {
    Contains(ToLower(o.caption), ToLower(search))
  }

  function FilterOptions(options: seq<CategoryOption>, search: string): seq<CategoryOption> {
    if options == [] then []
    else (if LabelMatches(options[0], search) then [options[0]] else []) + FilterOptions(options[1..], search)
  }

  /** `filteredCategories` */
  function FilteredCategories(search: string): seq<CategoryOption> {
    FilterOptions(CategoryOptions, search)
  }

  /** The filter keeps exactly the matching options, none of them twice
      more than they occur, and an empty search keeps them all. */
  lemma {:induction false} FilterOptionsSpec(options: seq<CategoryOption>, search: string)
    ensures forall o :: o in FilterOptions(options, search) <==> o in options && LabelMatches(o, search)
    ensures |FilterOptions(options, search)| <= |options|
    ensures (forall o :: o in options ==> LabelMatches(o, search)) ==> FilterOptions(options, search) == options
  {
    if options != [] {
      FilterOptionsSpec(options[1..], search);
      assert options == [options[0]] + options[1..];
    }
  }

  /** An empty search lists every option. */
  lemma EmptySearchListsAll()
    ensures FilteredCategories("") == CategoryOptions
  {
    forall o | o in CategoryOptions
      ensures LabelMatches(o, "")
    {
      assert IsPrefix([], ToLower(o.caption)[0..]);
    }
    FilterOptionsSpec(CategoryOptions, "");
  }

  /** `categoryOptions.some(cat => cat.value === s || cat.label.toLowerCase() === s.toLowerCase())` */
  predicate IsPredefined(s: string) {
    exists o :: o in CategoryOptions && (o.value == s || ToLower(o.caption) == ToLower(s))
  }

  /** The duplicate test of the category input's Enter key: the value or the
      label of some option equals the text, ignoring case. */
  predicate IsPredefinedIgnoringCase(s: string) {
    exists o :: o in CategoryOptions && (ToLower(o.value) == ToLower(s) || ToLower(o.caption) == ToLower(s))
  }

  // ---------------------------------------------------------------------
  // Tabs and the fields whose errors they show

  /** The top-level keys of the form's error record. */
  datatype Field =
    | NameField | DescriptionField | StockField | RatingField | TypeField | LeadTimeField
    | IsBestSellerField | IsActiveField
    | ImageField | ImageBlurField | DatasheetField
    | PriceField | DiscountField | UsedPriceField
    | CategoriesField

  /** The tab to which a field's error sends the user. */
  function TabOf(f: Field): Tab {
    match f
    case NameField | DescriptionField | StockField | RatingField | TypeField | LeadTimeField
       | IsBestSellerField | IsActiveField => Basic
    case ImageField | ImageBlurField | DatasheetField => Media
    case PriceField | DiscountField | UsedPriceField => Pricing
    case CategoriesField => Categorization
  }

  /** Position in the order the tabs are checked: basic, media, pricing,
      categorization. */
  function Rank(t: Tab): nat {
    match t
    case Basic => 0
    case Media => 1
    case Pricing => 2
    case Categorization => 3
  }

  /** A tab has errors when one of its fields has, or, once every error is
      shown, when the list it edits is empty. */
  predicate TabHasErrors(t: Tab, errors: set<Field>, showAllErrors: bool, images: seq<string>, categories: seq<string>) {
    (exists f :: f in errors && TabOf(f) == t) ||
    (showAllErrors && t == Media && |images| == 0) ||
    (showAllErrors && t == Categorization && |categories| == 0)
  }

  /** The tab `navigateToTabWithErrors` selects, if any. */
  function TabWithErrors(errors: set<Field>, showAllErrors: bool, images: seq<string>, categories: seq<string>): Option<Tab> {
    if NameField in errors || DescriptionField in errors || TypeField in errors || StockField in errors ||
       RatingField in errors || LeadTimeField in errors || IsBestSellerField in errors || IsActiveField in errors
    then Some(Basic)
    else if ImageField in errors || ImageBlurField in errors || DatasheetField in errors ||
            (showAllErrors && |images| == 0)
    then Some(Media)
    else if PriceField in errors || DiscountField in errors || UsedPriceField in errors
    then Some(Pricing)
    else if CategoriesField in errors || (showAllErrors && |categories| == 0)
    then Some(Categorization)
    else None
  }

  /** The selected tab is the first tab, in check order, that has errors;
      none is selected exactly when no tab has errors. */
  lemma TabWithErrorsIsFirst(errors: set<Field>, showAllErrors: bool, images: seq<string>, categories: seq<string>)
    ensures var r := TabWithErrors(errors, showAllErrors, images, categories);
            (r.Some? ==> TabHasErrors(r.value, errors, showAllErrors, images, categories)) &&
            (r.Some? ==> forall t :: Rank(t) < Rank(r.value) ==> !TabHasErrors(t, errors, showAllErrors, images, categories)) &&
            (r.None? <==> forall t :: !TabHasErrors(t, errors, showAllErrors, images, categories))
  {
    var r := TabWithErrors(errors, showAllErrors, images, categories);
    forall f | f in errors
      ensures r.Some? && Rank(r.value) <= Rank(TabOf(f))
    {
      match f
      case NameField | DescriptionField | StockField | RatingField | TypeField | LeadTimeField
         | IsBestSellerField | IsActiveField =>
      case ImageField | ImageBlurField | DatasheetField =>
      case PriceField | DiscountField | UsedPriceField =>
      case CategoriesField =>
    }
    if r.None? {
      assert errors == {};
    } else {
      assert TabHasErrors(r.value, errors, showAllErrors, images, categories);
    }
  }

  /** Any field error at all makes navigation select some tab. */
  lemma FieldErrorSelectsTab(errors: set<Field>, showAllErrors: bool, images: seq<string>, categories: seq<string>)
    requires errors != {}
    ensures TabWithErrors(errors, showAllErrors, images, categories).Some?
  {
    var f :| f in errors;
    TabWithErrorsIsFirst(errors, showAllErrors, images, categories);
    assert TabHasErrors(TabOf(f), errors, showAllErrors, images, categories);
  }

  /** `hasErrors`, as computed when the editor was last rendered. */
  predicate HasErrors(errors: set<Field>, showAllErrors: bool, images: seq<string>) {
    |errors| > 0 || (showAllErrors && |images| == 0)
  }

  // ---------------------------------------------------------------------
  // What onSubmit hands to the server actions: `{ ...data, images, categories }`

  function Submitted(data: FormValues, images: seq<string>, categories: seq<string>): ProductActions.RawProduct {
    ProductActions.RawProduct(
      data.name, data.description, data.stock as real, data.rating, data.productType, data.leadTime as real,
      Some(data.isBestSeller), Some(data.isActive), Some(data.image), Some(data.imageBlur),
      if data.datasheet.Some? then Defined(data.datasheet.value) else Null,
      Some(images), Some(categories),
      Some(ProductActions.RawPriceOf(data.price)),
      Some(ProductActions.RawDiscountOf(data.discount)),
      Some(ProductActions.RawPriceOf(data.usedPrice)))
  }

  datatype Submission =
    | NotSent
    | CreateRequest(data: ProductActions.RawProduct)
    | UpdateRequest(id: string, data: ProductActions.RawProduct)

  /** Values the editor accepts, with a datasheet, pass the server schema
      unchanged, carrying the editor's own lists. */
  lemma SubmittedValuesParse(data: FormValues, images: seq<string>, categories: seq<string>)
    requires SchemaAccepts(data) && data.datasheet.Some?
    ensures ProductActions.Parse(Submitted(data, images, categories)) ==
      ProductActions.Parsed(ProductData(
        data.name, data.description, data.stock, data.rating, data.productType, data.leadTime,
        data.isBestSeller, data.isActive, data.image, data.imageBlur, data.datasheet.value,
        images, categories, data.price, data.discount, data.usedPrice))
  {
    assert ProductActions.Accepted(Submitted(data, images, categories));
  }

  /** The editor allows a `null` datasheet, but the server schema demands a
      string there, so such a submission is rejected. */
  lemma NullDatasheetRejected(data: FormValues, images: seq<string>, categories: seq<string>)
    requires data.datasheet.None?
    ensures var r := ProductActions.Parse(Submitted(data, images, categories));
            r.ZodError? && ProductActions.Issue(["datasheet"], ProductActions.ExpectedString, None) in r.issues
  {
  }

  // ---------------------------------------------------------------------
  // Messages

  const ImageUrlRequired := "Image URL is required"
  const InvalidUrl := "Please enter a valid URL"
  const ImagesRequired := "At least one image is required"
  const CategoriesRequired := "At least one category is required"

  /** Whether `addImage` appends the typed URL; `isUrl` is the verdict of
      the URL parser. */
  predicate ImageAccepted(url: string, images: seq<string>, isUrl: string -> bool) {
    url != "" && isUrl(url) && url !in images
  }

  /** The input error `addImage` leaves behind. */
  function ImageInputError(url: string, isUrl: string -> bool): Option<string> {
    if url == "" then Some(ImageUrlRequired)
    else if !isUrl(url) then Some(InvalidUrl)
    else None
  }

  function InitialImages(product: Option<PartialProduct>): seq<string> {
    if product.Some? && product.value.images.Some? then product.value.images.value else []
  }

  function InitialCategories(product: Option<PartialProduct>): seq<string> {
    if product.Some? && product.value.categories.Some? then product.value.categories.value else []
  }

  // ---------------------------------------------------------------------
  // The editor's state and handlers. Each handler reads the state as it was
  // when it started, like a React handler reading the state of its render.

  class ProductEditor {
    const product: Option<PartialProduct>
    /** The values the form was initialised with. */
    const defaults: FormValues

    var images: seq<string>
    var categories: seq<string>
    var categoriesError: Option<string>
    var newImage: string
    var newImageError: Option<string>
    var newCategory: string
    var activeTab: Tab
    var categorySearchValue: string
    var showAllErrors: bool
    var imagesError: Option<string>
    /** The form's own `categories` field, as last set by a handler. */
    var formCategories: seq<string>

    constructor (product: Option<PartialProduct>)
      ensures this.product == product && defaults == InitialValues(product)
      ensures images == InitialImages(product) && categories == InitialCategories(product)
      ensures categoriesError == None && imagesError == None && newImageError == None
      ensures newImage == "" && newCategory == "" && categorySearchValue == ""
      ensures activeTab == Basic && !showAllErrors
      ensures formCategories == defaults.categories
    {
      this.product := product;
      defaults := InitialValues(product);
      images := InitialImages(product);
      categories := InitialCategories(product);
      categoriesError := None;
      newImage := "";
      newImageError := None;
      newCategory := "";
      activeTab := Basic;
      categorySearchValue := "";
      showAllErrors := false;
      imagesError := None;
      formCategories := InitialValues(product).categories;
    }

    /** Typing in the image URL input. */
    method EditNewImage(value: string)
      modifies this`newImage, this`newImageError
      ensures newImage == value && newImageError == None
    {
      newImage := value;
      newImageError := None;
    }

    /** Typing in the new-category input. */
    method EditNewCategory(value: string)
      modifies this`newCategory
      ensures newCategory == value
    {
      newCategory := value;
    }

    /** Typing in the category search box. */
    method EditCategorySearch(value: string)
      modifies this`categorySearchValue
      ensures categorySearchValue == value
    {
      categorySearchValue := value;
    }

    /** Clicking a tab. */
    method SelectTab(tab: Tab)
      modifies this`activeTab
      ensures activeTab == tab
    {
      activeTab := tab;
    }

    /** `addImage`: an empty or unparsable URL only sets the input error; a
        URL already listed changes nothing; any other is appended, and the
        input and the list error are cleared. */
    method AddImage(isUrl: string -> bool)
      modifies this`images, this`newImage, this`newImageError, this`imagesError
      ensures newImageError == ImageInputError(old(newImage), isUrl)
      ensures ImageAccepted(old(newImage), old(images), isUrl) ==>
                images == old(images) + [old(newImage)] && newImage == "" && imagesError == None
      ensures !ImageAccepted(old(newImage), old(images), isUrl) ==>
                images == old(images) && newImage == old(newImage) && imagesError == old(imagesError)
      ensures NoDuplicates(old(images)) ==> NoDuplicates(images)
    {
      newImageError := None;
      if newImage == "" {
        newImageError := Some(ImageUrlRequired);
        return;
      }
      if !isUrl(newImage) {
        newImageError := Some(InvalidUrl);
        return;
      }
      if newImage in images {
        return;
      }
      images := images + [newImage];
      newImage := "";
      imagesError := None;
    }

    /** The Enter key in the image URL input: a listed URL is refused before
        `addImage` runs, leaving the input error as it was. */
    method NewImageEnter(isUrl: string -> bool)
      modifies this`images, this`newImage, this`newImageError, this`imagesError
      ensures old(newImage) in old(images) ==>
                images == old(images) && newImage == old(newImage) &&
                newImageError == old(newImageError) && imagesError == old(imagesError)
      ensures old(newImage) !in old(images) ==>
                newImageError == ImageInputError(old(newImage), isUrl) &&
                images == (if ImageAccepted(old(newImage), old(images), isUrl) then old(images) + [old(newImage)] else old(images))
      ensures ImageAccepted(old(newImage), old(images), isUrl) ==> newImage == "" && imagesError == None
      ensures !ImageAccepted(old(newImage), old(images), isUrl) ==>
                newImage == old(newImage) && imagesError == old(imagesError)
      ensures NoDuplicates(old(images)) ==> NoDuplicates(images)
    {
      if newImage in images {
        return;
      }
      AddImage(isUrl);
    }

    /** `removeImage(index)`: drops exactly the element at `index`; the list
        error is set exactly when nothing is left. */
    method RemoveImage(index: int)
      modifies this`images, this`imagesError
      ensures images == RemoveAt(old(images), index)
      ensures 0 <= index < |old(images)| ==> images == old(images)[..index] + old(images)[index + 1..]
      ensures !(0 <= index < |old(images)|) ==> images == old(images)
      ensures imagesError == (if images == [] then Some(ImagesRequired) else None)
      ensures NoDuplicates(old(images)) ==> NoDuplicates(images)
    {
      RemoveAtSlices(images, index);
      if NoDuplicates(images) {
        RemoveAtNoDuplicates(images, index);
      }
      var newImages := RemoveAt(images, index);
      images := newImages;
      if |newImages| == 0 {
        imagesError := Some(ImagesRequired);
      } else {
        imagesError := None;
      }
    }

    /** `addCategory`: appends a non-empty value that is not yet selected. */
    method AddCategory()
      modifies this`categories, this`newCategory, this`categoriesError, this`formCategories
      ensures var added := old(newCategory) != "" && old(newCategory) !in old(categories);
              (added ==> categories == old(categories) + [old(newCategory)] && newCategory == "" &&
                         categoriesError == None && formCategories == categories) &&
              (!added ==> categories == old(categories) && newCategory == old(newCategory) &&
                          categoriesError == old(categoriesError) && formCategories == old(formCategories))
      ensures NoDuplicates(old(categories)) ==> NoDuplicates(categories)
    {
      if newCategory != "" && newCategory !in categories {
        var newCategories := categories + [newCategory];
        categories := newCategories;
        newCategory := "";
        categoriesError := None;
        formCategories := newCategories;
      }
    }

    /** The Enter key in the new-category input: adds only a non-blank value
        that is neither selected nor, ignoring case, the value or label of a
        predefined option. */
    method NewCategoryEnter()
      modifies this`categories, this`newCategory, this`categoriesError, this`formCategories
      ensures var added := !IsBlank(old(newCategory)) && old(newCategory) !in old(categories) &&
                           !IsPredefinedIgnoringCase(old(newCategory));
              (added ==> categories == old(categories) + [old(newCategory)] && newCategory == "" &&
                         categoriesError == None && formCategories == categories) &&
              (!added ==> categories == old(categories) && newCategory == old(newCategory) &&
                          categoriesError == old(categoriesError) && formCategories == old(formCategories))
      ensures NoDuplicates(old(categories)) ==> NoDuplicates(categories)
    {
      var isDuplicate := newCategory in categories || IsPredefinedIgnoringCase(newCategory);
      if !isDuplicate && !IsBlank(newCategory) {
        AddCategory();
      }
    }

    /** `removeCategory(category)`: drops every occurrence of the value and
        nothing else; the list error is set exactly when nothing is left. */
    method RemoveCategory(category: string)
      modifies this`categories, this`categoriesError, this`formCategories
      ensures categories == Without(old(categories), category)
      ensures category !in categories
      ensures forall c :: c != category ==> multiset(categories)[c] == multiset(old(categories))[c]
      ensures categoriesError == (if categories == [] then Some(CategoriesRequired) else None)
      ensures formCategories == categories
      ensures NoDuplicates(old(categories)) ==> NoDuplicates(categories)
    {
      WithoutCounts(categories, category);
      if NoDuplicates(categories) {
        WithoutNoDuplicates(categories, category);
      }
      var newCategories := Without(categories, category);
      categories := newCategories;
      if |newCategories| == 0 {
        categoriesError := Some(CategoriesRequired);
      } else {
        categoriesError := None;
      }
      formCategories := newCategories;
    }

    /** `toggleCategory(value)`: flips whether the value is selected, keeping
        every other selection and its order. */
    method ToggleCategory(value: string)
      modifies this`categories, this`categoriesError, this`formCategories
      ensures value in old(categories) ==> categories == Without(old(categories), value)
      ensures value !in old(categories) ==> categories == old(categories) + [value]
      ensures value in categories <==> value !in old(categories)
      ensures forall c :: c != value ==> multiset(categories)[c] == multiset(old(categories))[c]
      ensures categoriesError == None && formCategories == categories
      ensures NoDuplicates(old(categories)) ==> NoDuplicates(categories)
    {
      var newCategories: seq<string>;
      if value in categories {
        WithoutCounts(categories, value);
        if NoDuplicates(categories) {
          WithoutNoDuplicates(categories, value);
        }
        newCategories := Without(categories, value);
      } else {
        newCategories := categories + [value];
      }
      categories := newCategories;
      categoriesError := None;
      formCategories := newCategories;
    }

    /** `handleAddCustomCategory`: adds the search text when it is non-empty,
        not selected and not a predefined option, then clears the search. */
    method HandleAddCustomCategory()
      modifies this`categories, this`categorySearchValue, this`categoriesError, this`formCategories
      ensures var s := old(categorySearchValue);
              var added := s != "" && s !in old(categories) && !IsPredefined(s);
              (added ==> categories == old(categories) + [s] && categorySearchValue == "" &&
                         categoriesError == None && formCategories == categories) &&
              (!added ==> categories == old(categories) && categorySearchValue == s &&
                          categoriesError == old(categoriesError) && formCategories == old(formCategories))
      ensures NoDuplicates(old(categories)) ==> NoDuplicates(categories)
    {
      if categorySearchValue != "" && categorySearchValue !in categories && !IsPredefined(categorySearchValue) {
        var newCategories := categories + [categorySearchValue];
        categories := newCategories;
        categorySearchValue := "";
        categoriesError := None;
        formCategories := newCategories;
      }
    }

    /** `validateAllFields`: shows every error and flags each empty list. */
    method ValidateAllFields()
      modifies this`showAllErrors, this`categoriesError, this`imagesError
      ensures showAllErrors
      ensures categoriesError == (if categories == [] then Some(CategoriesRequired) else None)
      ensures imagesError == (if images == [] then Some(ImagesRequired) else None)
    {
      showAllErrors := true;
      if |categories| == 0 {
        categoriesError := Some(CategoriesRequired);
      } else {
        categoriesError := None;
      }
      if |images| == 0 {
        imagesError := Some(ImagesRequired);
      } else {
        imagesError := None;
      }
    }

    /** `navigateToTabWithErrors`, given the form's current field errors:
        selects the first tab with errors, or keeps the tab. */
    method NavigateToTabWithErrors(errors: set<Field>)
      modifies this`activeTab
      ensures activeTab == TabWithErrors(errors, showAllErrors, images, categories).GetOr(old(activeTab))
    {
      var tab := TabWithErrors(errors, showAllErrors, images, categories);
      if tab.Some? {
        activeTab := tab.value;
      }
    }

    /** `onSubmit(data)`, given the field errors of the last render. It
        validates the lists, syncs the form's categories and then stops at the
        first of: any error (navigate to it), no category (categorization
        tab), no image (media tab). Otherwise it requests an update in edit
        mode or a create, with the editor's own image and category lists. */
    method OnSubmit(data: FormValues, errors: set<Field>) returns (request: Submission)
      modifies this`showAllErrors, this`categoriesError, this`imagesError, this`formCategories, this`activeTab
      ensures showAllErrors
      ensures categoriesError == (if categories == [] then Some(CategoriesRequired) else None)
      ensures imagesError == (if images == [] then Some(ImagesRequired) else None)
      ensures formCategories == categories
      ensures var hasErrors := HasErrors(errors, old(showAllErrors), images);
              (hasErrors ==>
                 request == NotSent && activeTab == TabWithErrors(errors, old(showAllErrors), images, categories).GetOr(old(activeTab))) &&
              (!hasErrors && categories == [] ==> request == NotSent && activeTab == Categorization) &&
              (!hasErrors && categories != [] && images == [] ==> request == NotSent && activeTab == Media) &&
              (!hasErrors && categories != [] && images != [] ==>
                 activeTab == old(activeTab) &&
                 request == (if IsEditMode(product) then UpdateRequest(product.value.id.value, Submitted(data, images, categories))
                             else CreateRequest(Submitted(data, images, categories))))
      ensures request != NotSent <==> !HasErrors(errors, old(showAllErrors), images) && categories != [] && images != []
    {
      var wasShowingAll := showAllErrors;
      ValidateAllFields();
      formCategories := categories;
      if HasErrors(errors, wasShowingAll, images) {
        var tab := TabWithErrors(errors, wasShowingAll, images, categories);
        if tab.Some? {
          activeTab := tab.value;
        }
        return NotSent;
      }
      if |categories| == 0 || |images| == 0 {
        if |categories| == 0 {
          activeTab := Categorization;
        } else if |images| == 0 {
          activeTab := Media;
        }
        return NotSent;
      }
      var productData := Submitted(data, images, categories);
      if IsEditMode(product) {
        request := UpdateRequest(product.value.id.value, productData);
      } else {
        request := CreateRequest(productData);
      }
    }
  }
}
