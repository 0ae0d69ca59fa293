// The products service: the multipart body for creating and updating a
// product, and the product list's URL built from the filters.
module ProductsService {
  import opened Common
  import opened WebForms

  const PRODUCTS_URL := "/ecommerce/admin/products"

  /**
   * What a create or update carries. `None` is a field left undefined; the
   * description and the category may also be `null` (`Some(None)`); `image`
   * is the file when one is chosen (`null` and undefined both `None`).
   */
  datatype ProductData = ProductData(
    name: Option<string>,
    description: Option<Option<string>>,
    price: Option<real>,
    stockQuantity: Option<int>,
    category: Option<Option<string>>,
    sku: Option<string>,
    isActive: Option<bool>,
    image: Option<string>)

  datatype ProductField = Name | Description | Price | StockQuantity | Category | Sku | IsActive | Image

  /** The multipart fields in the order they are appended. */
  const FIELD_ORDER: seq<ProductField> := [Name, Description, Price, StockQuantity, Category, Sku, IsActive, Image]

  function FieldName(f: ProductField): string
  {
    match f
    case Name => "name"
    case Description => "description"
    case Price => "price"
    case StockQuantity => "stock_quantity"
    case Category => "category"
    case Sku => "sku"
    case IsActive => "is_active"
    case Image => "image"
  }

  /** Different fields go under different names. */
  lemma FieldNamesDiffer(f: ProductField, g: ProductField)
    ensures FieldName(f) == FieldName(g) <==> f == g
  {
  }

  function BoolText(b: bool): string
  {
    if b then "true" else "false"
  }

  /** Whether the field goes into the body: every defined field, but the image only when there is a file. */
  predicate Defined(data: ProductData, f: ProductField)
  {
    match f
    case Name => data.name.Some?
    case Description => data.description.Some?
    case Price => data.price.Some?
    case StockQuantity => data.stockQuantity.Some?
    case Category => data.category.Some?
    case Sku => data.sku.Some?
    case IsActive => data.isActive.Some?
    case Image => data.image.Some?
  }

  /** `value || ''` for a text that may be `null`. */
  function TextOrEmpty(v: Option<Option<string>>): string
  {
    if v.Some? && v.value.Some? then v.value.value else ""
  }

  /** The value sent for a defined field; `numberText` is `String` on a number. */
  function FieldValue(data: ProductData, f: ProductField, numberText: real -> string): FormValue
    requires Defined(data, f)
  {
    match f
    case Name => TextValue(data.name.value)
    case Description => TextValue(TextOrEmpty(data.description))
    case Price => TextValue(numberText(data.price.value))
    case StockQuantity => TextValue(IntToString(data.stockQuantity.value))
    case Category => TextValue(TextOrEmpty(data.category))
    case Sku => TextValue(data.sku.value)
    case IsActive => TextValue(BoolText(data.isActive.value))
    case Image => FileValue(data.image.value)
  }

  /** The pair a field contributes: one when it is defined, none otherwise. */
  function FieldEntry(data: ProductData, f: ProductField, numberText: real -> string): seq<(string, FormValue)>
  {
    if Defined(data, f) then [(FieldName(f), FieldValue(data, f, numberText))] else []
  }

  lemma FieldEntryNames(data: ProductData, f: ProductField, numberText: real -> string)
    ensures Names(FieldEntry(data, f, numberText)) == if Defined(data, f) then [FieldName(f)] else []
  {
    if Defined(data, f) {
      assert FieldEntry(data, f, numberText)[1..] == [];
    }
  }

  /** The body for the given fields, each contributing its pair when defined. */
  function Entries(data: ProductData, fields: seq<ProductField>, numberText: real -> string): seq<(string, FormValue)>
    decreases |fields|
  {
    if fields == [] then [] else FieldEntry(data, fields[0], numberText) + Entries(data, fields[1..], numberText)
  }

  /** The body `buildProductFormData` produces: field by field, in the fixed order. */
  function ProductFormEntries(data: ProductData, numberText: real -> string): seq<(string, FormValue)>
  {
    Entries(data, FIELD_ORDER, numberText)
  }

  /** Adding one more field at the end adds its pair, if any, at the end. */
  lemma {:induction false} EntriesSnoc(data: ProductData, fields: seq<ProductField>, f: ProductField, numberText: real -> string)
    ensures Entries(data, fields + [f], numberText) == Entries(data, fields, numberText) + FieldEntry(data, f, numberText)
    decreases |fields|
  {
    if fields == [] {
      assert [] + [f] == [f];
      assert [f][1..] == [];
    } else {
      assert (fields + [f])[1..] == fields[1..] + [f];
      EntriesSnoc(data, fields[1..], f, numberText);
    }
  }

  /** The body after the first `k` fields, one field at a time. */
  lemma PrefixStep(data: ProductData, k: nat, numberText: real -> string)
    requires 1 <= k <= |FIELD_ORDER|
    ensures Entries(data, FIELD_ORDER[..k], numberText) == Entries(data, FIELD_ORDER[..k - 1], numberText) + FieldEntry(data, FIELD_ORDER[k - 1], numberText)
  {
    assert FIELD_ORDER[..k] == FIELD_ORDER[..k - 1] + [FIELD_ORDER[k - 1]];
    EntriesSnoc(data, FIELD_ORDER[..k - 1], FIELD_ORDER[k - 1], numberText);
  }

  /** One `if (data.x !== undefined) formData.append('x', ...)` of `buildProductFormData`. */
  method AppendField(formData: FormData, data: ProductData, f: ProductField, numberText: real -> string)
    modifies formData
    ensures formData.entries == old(formData.entries) + FieldEntry(data, f, numberText)
  {
    if Defined(data, f) {
      formData.Append(FieldName(f), FieldValue(data, f, numberText));
    }
  }

  /** `buildProductFormData`: a fresh body, appended to field by field in the fixed order. */
  method BuildProductFormData(data: ProductData, numberText: real -> string) returns (entries: seq<(string, FormValue)>)
    ensures entries == ProductFormEntries(data, numberText)
  {
    var formData := new FormData();
    assert formData.entries == Entries(data, FIELD_ORDER[..0], numberText);
    AppendField(formData, data, Name, numberText);
    PrefixStep(data, 1, numberText);
    AppendField(formData, data, Description, numberText);
    PrefixStep(data, 2, numberText);
    AppendField(formData, data, Price, numberText);
    PrefixStep(data, 3, numberText);
    AppendField(formData, data, StockQuantity, numberText);
    PrefixStep(data, 4, numberText);
    AppendField(formData, data, Category, numberText);
    PrefixStep(data, 5, numberText);
    AppendField(formData, data, Sku, numberText);
    PrefixStep(data, 6, numberText);
    AppendField(formData, data, IsActive, numberText);
    PrefixStep(data, 7, numberText);
    AppendField(formData, data, Image, numberText);
    PrefixStep(data, 8, numberText);
    assert FIELD_ORDER[..8] == FIELD_ORDER;
    entries := formData.entries;
  }

  function FieldNames(fields: seq<ProductField>): (r: seq<string>)
    ensures |r| == |fields|
    ensures forall i :: 0 <= i < |r| ==> r[i] == FieldName(fields[i])
  {
    seq(|fields|, i requires 0 <= i < |fields| => FieldName(fields[i]))
  }

  /** The body for some fields names exactly the defined ones among them, in their order. */
  lemma {:induction false} EntriesNames(data: ProductData, fields: seq<ProductField>, numberText: real -> string)
    ensures Names(Entries(data, fields, numberText)) == FieldNames(Filter(fields, f => Defined(data, f)))
    decreases |fields|
  {
    if fields != [] {
      EntriesNames(data, fields[1..], numberText);
      FieldEntryNames(data, fields[0], numberText);
      NamesAppend(FieldEntry(data, fields[0], numberText), Entries(data, fields[1..], numberText));
      var keep := (f: ProductField) => Defined(data, f);
      assert Filter(fields, keep) == (if keep(fields[0]) then [fields[0]] else []) + Filter(fields[1..], keep);
      assert FieldNames(Filter(fields, keep)) == (if keep(fields[0]) then [FieldName(fields[0])] else []) + FieldNames(Filter(fields[1..], keep));
    }
  }

  /** The body names exactly the defined fields, in the fixed order. */
  lemma FormNamesInOrder(data: ProductData, numberText: real -> string)
    ensures Names(ProductFormEntries(data, numberText)) == FieldNames(Filter(FIELD_ORDER, f => Defined(data, f)))
  {
    EntriesNames(data, FIELD_ORDER, numberText);
  }

  /** Among different fields, a defined one is read back with its value. */
  lemma {:induction false} GetEntries(data: ProductData, fields: seq<ProductField>, numberText: real -> string, f: ProductField)
    requires f in fields && Defined(data, f)
    requires forall i, j :: 0 <= i < j < |fields| ==> fields[i] != fields[j]
    ensures Get(Entries(data, fields, numberText), FieldName(f)) == Some(FieldValue(data, f, numberText))
    decreases |fields|
  {
    var head := FieldEntry(data, fields[0], numberText);
    if fields[0] != f {
      assert f in fields[1..];
      FieldNamesDiffer(fields[0], f);
      GetAfter(head, Entries(data, fields[1..], numberText), FieldName(f));
      GetEntries(data, fields[1..], numberText, f);
    }
  }

  /** Each defined field is read back with its value. */
  lemma GetOfDefinedField(data: ProductData, numberText: real -> string, f: ProductField)
    requires Defined(data, f)
    ensures Get(ProductFormEntries(data, numberText), FieldName(f)) == Some(FieldValue(data, f, numberText))
  {
    GetEntries(data, FIELD_ORDER, numberText, f);
  }

  /** A `null` description or category is sent as an empty text, and `is_active: false` is sent as "false". */
  lemma NullsAndFalseAreSent(data: ProductData, numberText: real -> string)
    requires data.description == Some(None) && data.category == Some(None) && data.isActive == Some(false)
    ensures Get(ProductFormEntries(data, numberText), "description") == Some(TextValue(""))
    ensures Get(ProductFormEntries(data, numberText), "category") == Some(TextValue(""))
    ensures Get(ProductFormEntries(data, numberText), "is_active") == Some(TextValue("false"))
  {
    GetOfDefinedField(data, numberText, Description);
    GetOfDefinedField(data, numberText, Category);
    GetOfDefinedField(data, numberText, IsActive);
  }

  /** Without a file the body has no image, whatever else it carries. */
  lemma NoFileNoImage(data: ProductData, numberText: real -> string)
    requires data.image.None?
    ensures "image" !in Names(ProductFormEntries(data, numberText))
  {
    var keep := (f: ProductField) => Defined(data, f);
    FormNamesInOrder(data, numberText);
    var kept := Filter(FIELD_ORDER, keep);
    forall i | 0 <= i < |kept| ensures FieldNames(kept)[i] != "image" {
      FilterMembership(FIELD_ORDER, keep, kept[i]);
      FieldNamesDiffer(kept[i], Image);
    }
  }

  // ---------------------------------------------------------------------
  // Product list
  // ---------------------------------------------------------------------

  datatype ProductFilters = ProductFilters(
    search: Option<string>,
    category: Option<string>,
    isActive: Option<bool>,
    ordering: Option<string>,
    page: Option<int>,
    pageSize: Option<int>)

  /**
   * The list's query: the search, the category and the ordering when not
   * empty, the page and the page size when not zero, and the active flag
   * whenever it is given, `false` included.
   */
  function ProductQuery(filters: Option<ProductFilters>): (q: seq<(string, string)>)
    ensures filters.None? ==> q == []
  {
    match filters
    case None => []
    case Some(f) =>
      AppendIf(Given(f.search), "search", GetOr(f.search, ""))
      + AppendIf(Given(f.category), "category", GetOr(f.category, ""))
      + AppendIf(f.isActive.Some?, "is_active", BoolText(GetOr(f.isActive, false)))
      + AppendIf(Given(f.ordering), "ordering", GetOr(f.ordering, ""))
      + AppendIf(NonZero(f.page), "page", IntToString(GetOr(f.page, 0)))
      + AppendIf(NonZero(f.pageSize), "page_size", IntToString(GetOr(f.pageSize, 0)))
  }

  /** `getProducts`: the parameters appended one by one, then the URL with or without a query. */
  method ProductsListUrl(filters: Option<ProductFilters>, encode: string -> string) returns (url: string)
    ensures url == WithQuery(PRODUCTS_URL + "/", ProductQuery(filters), encode)
  {
    var params := new SearchParams();
    var base := PRODUCTS_URL + "/";
    if filters.Some? {
      var f := filters.value;
      AppendParamIf(params, Given(f.search), "search", GetOr(f.search, ""));
      assert [] + AppendIf(Given(f.search), "search", GetOr(f.search, "")) == AppendIf(Given(f.search), "search", GetOr(f.search, ""));
      AppendParamIf(params, Given(f.category), "category", GetOr(f.category, ""));
      AppendParamIf(params, f.isActive.Some?, "is_active", BoolText(GetOr(f.isActive, false)));
      AppendParamIf(params, Given(f.ordering), "ordering", GetOr(f.ordering, ""));
      AppendParamIf(params, NonZero(f.page), "page", IntToString(GetOr(f.page, 0)));
      AppendParamIf(params, NonZero(f.pageSize), "page_size", IntToString(GetOr(f.pageSize, 0)));
    }
    assert params.entries == ProductQuery(filters);
    var queryString := Serialize(params.entries, encode);
    url := if queryString != "" then base + "?" + queryString else base;
  }

  /** No filters, or only empty ones: the bare list URL, without '?'. */
  lemma NoFiltersNoQuery(filters: Option<ProductFilters>, encode: string -> string)
    requires filters.Some? ==>
      (!Given(filters.value.search) && !Given(filters.value.category) && filters.value.isActive.None?
       && !Given(filters.value.ordering) && !NonZero(filters.value.page) && !NonZero(filters.value.pageSize))
    ensures WithQuery(PRODUCTS_URL + "/", ProductQuery(filters), encode) == PRODUCTS_URL + "/"
  {
  }

  /** Asking for inactive products alone sends `is_active=false`, and nothing else. */
  lemma InactiveFilterIsSent(filters: ProductFilters)
    requires filters.isActive == Some(false)
    requires !Given(filters.search) && !Given(filters.category) && !Given(filters.ordering)
    requires !NonZero(filters.page) && !NonZero(filters.pageSize)
    ensures ProductQuery(Some(filters)) == [("is_active", "false")]
  {
  }

  /** The query's names: one per filter that is set, in the order they are appended. */
  lemma QueryNames(f: ProductFilters)
    ensures Names(ProductQuery(Some(f))) ==
      NameIf(Given(f.search), "search") + NameIf(Given(f.category), "category")
      + NameIf(f.isActive.Some?, "is_active") + NameIf(Given(f.ordering), "ordering")
      + NameIf(NonZero(f.page), "page") + NameIf(NonZero(f.pageSize), "page_size")
  {
    var a := AppendIf(Given(f.search), "search", GetOr(f.search, ""));
    var b := AppendIf(Given(f.category), "category", GetOr(f.category, ""));
    var c := AppendIf(f.isActive.Some?, "is_active", BoolText(GetOr(f.isActive, false)));
    var d := AppendIf(Given(f.ordering), "ordering", GetOr(f.ordering, ""));
    var e := AppendIf(NonZero(f.page), "page", IntToString(GetOr(f.page, 0)));
    var g := AppendIf(NonZero(f.pageSize), "page_size", IntToString(GetOr(f.pageSize, 0)));
    assert ProductQuery(Some(f)) == a + b + c + d + e + g;
    NamesOfAppendIf(Given(f.search), "search", GetOr(f.search, ""));
    NamesOfAppendIf(Given(f.category), "category", GetOr(f.category, ""));
    NamesOfAppendIf(f.isActive.Some?, "is_active", BoolText(GetOr(f.isActive, false)));
    NamesOfAppendIf(Given(f.ordering), "ordering", GetOr(f.ordering, ""));
    NamesOfAppendIf(NonZero(f.page), "page", IntToString(GetOr(f.page, 0)));
    NamesOfAppendIf(NonZero(f.pageSize), "page_size", IntToString(GetOr(f.pageSize, 0)));
    NamesAppend(a, b);
    NamesAppend(a + b, c);
    NamesAppend(a + b + c, d);
    NamesAppend(a + b + c + d, e);
    NamesAppend(a + b + c + d + e, g);
  }

  /** The text filters: each name is in the query exactly when its filter is given and not empty. */
  lemma QueryTextNames(f: ProductFilters)
    ensures "search" in Names(ProductQuery(Some(f))) <==> Given(f.search)
    ensures "category" in Names(ProductQuery(Some(f))) <==> Given(f.category)
    ensures "ordering" in Names(ProductQuery(Some(f))) <==> Given(f.ordering)
  {
    QueryNames(f);
  }

  /** The active flag is in the query whenever it is given; the page and its size when not zero. */
  lemma QueryFlagAndPageNames(f: ProductFilters)
    ensures "is_active" in Names(ProductQuery(Some(f))) <==> f.isActive.Some?
    ensures "page" in Names(ProductQuery(Some(f))) <==> NonZero(f.page)
    ensures "page_size" in Names(ProductQuery(Some(f))) <==> NonZero(f.pageSize)
  {
    QueryNames(f);
  }
}
