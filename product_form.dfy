/**
 * The admin product form (AddEditProductActivity): the Save button's
 * validation chain, where the first failing check is the only one reported,
 * the record it builds, and the key `saveProduct` stores it under.
 *
 * The admin side keeps a stock count next to the catalogue record; the
 * storefront record (`Item`) and its parcel have no such field, so the stock
 * travels beside the record here.
 */
module ProductForm {
  import opened Wrappers
  import opened ItemsModel
  import opened Text

  /** A catalogue record as the admin screens handle it. */
  datatype StockedItem = StockedItem(item: Item, stock: int)

  /** The Save button's messages, in the order the checks run. */
  datatype FormError = TitleMissing | PriceInvalid | CategoryIdMissing | StockInvalid | CategoryUnknown

  datatype SaveOutcome = Rejected(error: FormError) | Accepted(product: StockedItem)

  /** One child of the `Category` snapshot: its key, and whether it decodes to a category. */
  datatype CategoryChild = CategoryChild(key: Option<string>, present: bool)

  /** `categories.any { it.id.toString() == categoryId }`. */
  predicate CategoryExists(categories: seq<int>, categoryId: string) {
    exists i :: 0 <= i < |categories| && IntToDecimal(categories[i]) == categoryId
  }

  /** The checks in order; the first that fails is the result. */
  function FirstError(title: string, price: string, categoryId: string, stock: string,
                      categories: seq<int>, parse: DoubleParser): Option<FormError>
  {
    if title == [] then Some(TitleMissing)
    else if price == [] || parse(price).None? then Some(PriceInvalid)
    else if categoryId == [] then Some(CategoryIdMissing)
    else if stock == [] || ParseInt(stock).None? then Some(StockInvalid)
    else if !CategoryExists(categories, categoryId) then Some(CategoryUnknown)
    else None
  }

  /**
   * A form passes exactly when it has a title, a readable price, a stock that
   * reads as a 32-bit integer, and a category id that is the decimal form of
   * a loaded category's id; a reported error means every earlier check passed.
   */
  lemma FirstErrorChain(title: string, price: string, categoryId: string, stock: string,
                        categories: seq<int>, parse: DoubleParser)
    requires forall i :: 0 <= i < |categories| ==> IntMin <= categories[i] <= IntMax
    ensures var e := FirstError(title, price, categoryId, stock, categories, parse);
      (e.None? <==> title != [] && price != [] && parse(price).Some? && ParseInt(stock).Some? &&
                    ParseInt(categoryId).Some? && ParseInt(categoryId).value in categories &&
                    IntToDecimal(ParseInt(categoryId).value) == categoryId) &&
      (e.Some? && e.value != TitleMissing ==> title != []) &&
      (e.Some? && e.value != TitleMissing && e.value != PriceInvalid ==> parse(price).Some?) &&
      (e == Some(StockInvalid) || e == Some(CategoryUnknown) ==> categoryId != []) &&
      (e == Some(CategoryUnknown) ==> ParseInt(stock).Some?)
  {
    var e := FirstError(title, price, categoryId, stock, categories, parse);
    if CategoryExists(categories, categoryId) {
      var i :| 0 <= i < |categories| && IntToDecimal(categories[i]) == categoryId;
      ParseIntToDecimal(categories[i]);
    }
    if ParseInt(categoryId).Some? && ParseInt(categoryId).value in categories &&
       IntToDecimal(ParseInt(categoryId).value) == categoryId {
      var i :| 0 <= i < |categories| && categories[i] == ParseInt(categoryId).value;
      assert IntToDecimal(categories[i]) == categoryId;
    }
  }

  /** The form's state. */
  class ProductFormScreen {
    /** The product being edited, or none for a new one. */
    const product: Option<StockedItem>
    var title: string
    var description: string
    var price: string
    var categoryId: string
    var rating: string
    var stock: string
    var showRecommended: bool
    var imageUrl: string
    var categories: seq<int>

    /** Category ids come from `toIntOrNull`, or are 0. */
    ghost predicate Valid()
      reads this
    {
      forall i :: 0 <= i < |categories| ==> IntMin <= categories[i] <= IntMax
    }

    /**
     * The fields start from the edited product, or empty for a new one, with
     * a stock of "0" and not recommended.
     */
    constructor (product0: Option<StockedItem>, format: DoubleFormatter)
      ensures product == product0 && Valid()
      ensures product0.None? ==>
        title == "" && description == "" && price == "" && categoryId == "" && rating == "" &&
        stock == "0" && !showRecommended && imageUrl == ""
      ensures product0.Some? ==>
        var p := product0.value;
        title == p.item.title && description == p.item.description &&
        price == format(p.item.price) && categoryId == p.item.categoryId &&
        rating == format(p.item.rating) && stock == IntToDecimal(p.stock) &&
        showRecommended == p.item.showRecommended &&
        imageUrl == (if p.item.picUrl == [] then "" else p.item.picUrl[0])
      ensures categories == []
    {
      product := product0;
      match product0 {
        case None =>
          title := "";
          description := "";
          price := "";
          categoryId := "";
          rating := "";
          stock := "0";
          showRecommended := false;
          imageUrl := "";
        case Some(p) =>
          title := p.item.title;
          description := p.item.description;
          price := format(p.item.price);
          categoryId := p.item.categoryId;
          rating := format(p.item.rating);
          stock := IntToDecimal(p.stock);
          showRecommended := p.item.showRecommended;
          imageUrl := if p.item.picUrl == [] then "" else p.item.picUrl[0];
      }
      categories := [];
    }

    /** The `Category` snapshot arrives: one id per decodable child, its key read as an integer or 0. */
    method OnCategories(children: seq<CategoryChild>)
      requires Valid()
      modifies this
      ensures Valid() && categories == CategoryIds(children)
      ensures title == old(title) && description == old(description) && price == old(price)
      ensures categoryId == old(categoryId) && rating == old(rating) && stock == old(stock)
      ensures showRecommended == old(showRecommended) && imageUrl == old(imageUrl)
    {
      var categoryList: seq<int> := [];
      for i := 0 to |children|
        invariant categoryList == CategoryIds(children[..i])
      {
        if children[i].present {
          var key := children[i].key;
          var id := if key.Some? && ParseInt(key.value).Some? then ParseInt(key.value).value else 0;
          categoryList := categoryList + [id];
        }
        assert children[..i + 1][..i] == children[..i];
      }
      assert children[..|children|] == children;
      categories := categoryList;
    }

    /** Edits to the text fields and the check box. */
    method Edit(title': string, description': string, price': string, categoryId': string,
                rating': string, stock': string, showRecommended': bool, imageUrl': string)
      requires Valid()
      modifies this
      ensures Valid()
      ensures title == title' && description == description' && price == price' && categoryId == categoryId'
      ensures rating == rating' && stock == stock' && showRecommended == showRecommended' && imageUrl == imageUrl'
      ensures categories == old(categories)
    {
      title := title';
      description := description';
      price := price';
      categoryId := categoryId';
      rating := rating';
      stock := stock';
      showRecommended := showRecommended';
      imageUrl := imageUrl';
    }

    /** The record the form describes once every check has passed. */
    function Built(parse: DoubleParser, now: int): (r: StockedItem)
      reads this
      requires parse(price).Some? && ParseInt(stock).Some?
      ensures r.item.id == (if product.Some? then product.value.item.id else "")
      ensures r.item.picUrl == [imageUrl]
      ensures r.item.model == (if product.Some? then product.value.item.model else [])
      ensures r.item.price == parse(price).value && r.stock == ParseInt(stock).value
      ensures r.item.rating == (if parse(rating).Some? then parse(rating).value else 0)
      ensures r.item.title == title && r.item.description == description && r.item.categoryId == categoryId
      ensures r.item.showRecommended == showRecommended && r.item.numberInCart == 0 && r.item.timestamp == now
    {
      var base := NewItem(now);
      StockedItem(
        base.(id := if product.Some? then product.value.item.id else "",
              title := title,
              description := description,
              price := parse(price).value,
              categoryId := categoryId,
              rating := parse(rating).GetOr(0),
              showRecommended := showRecommended,
              picUrl := [imageUrl],
              model := if product.Some? then product.value.item.model else []),
        ParseInt(stock).value)
    }

    /** The Save button: the first failing check is reported; otherwise the built record is handed on. */
    method SaveClicked(parse: DoubleParser, now: int) returns (outcome: SaveOutcome)
      ensures outcome.Rejected? <==> FirstError(title, price, categoryId, stock, categories, parse).Some?
      ensures outcome.Rejected? ==> outcome.error == FirstError(title, price, categoryId, stock, categories, parse).value
      ensures outcome.Accepted? ==> parse(price).Some? && ParseInt(stock).Some? && outcome.product == Built(parse, now)
    {
      if title == [] {
        return Rejected(TitleMissing);
      }
      if price == [] || parse(price).None? {
        return Rejected(PriceInvalid);
      }
      if categoryId == [] {
        return Rejected(CategoryIdMissing);
      }
      if stock == [] || ParseInt(stock).None? {
        return Rejected(StockInvalid);
      }
      var categoryExists := false;
      for i := 0 to |categories|
        invariant categoryExists <==> exists j :: 0 <= j < i && IntToDecimal(categories[j]) == categoryId
      {
        if IntToDecimal(categories[i]) == categoryId {
          categoryExists := true;
        }
      }
      if !categoryExists {
        return Rejected(CategoryUnknown);
      }
      var item := NewItem(now).(
        id := if product.Some? then product.value.item.id else "",
        title := title,
        description := description,
        price := parse(price).GetOr(0),
        categoryId := categoryId,
        rating := parse(rating).GetOr(0),
        showRecommended := showRecommended,
        picUrl := [imageUrl],
        model := if product.Some? then product.value.item.model else []);
      outcome := Accepted(StockedItem(item, ParseInt(stock).GetOr(0)));
    }
  }

  /** The ids `OnCategories` collects, in snapshot order. */
  function CategoryIds(children: seq<CategoryChild>): (r: seq<int>)
    ensures |r| <= |children|
    ensures forall i :: 0 <= i < |r| ==> IntMin <= r[i] <= IntMax
  {
    if children == [] then []
    else
      var c := children[|children| - 1];
      var rest := CategoryIds(children[..|children| - 1]);
      if c.present then
        rest + [if c.key.Some? && ParseInt(c.key.value).Some? then ParseInt(c.key.value).value else 0]
      else rest
  }

  /** `saveProduct`'s key: the record's own id, or a freshly pushed key (or "" if none) for a new record. */
  function SaveKey(product: StockedItem, pushedKey: Option<string>): (r: string)
    ensures product.item.id != "" ==> r == product.item.id
    ensures product.item.id == "" ==> r == pushedKey.GetOr("")
  {
    if product.item.id == [] then pushedKey.GetOr("") else product.item.id
  }

  /** The catalogue after a successful `saveProduct`. */
  function Saved(items: map<string, StockedItem>, product: StockedItem, pushedKey: Option<string>): map<string, StockedItem> {
    var key := SaveKey(product, pushedKey);
    items[key := product.(item := product.item.(id := key))]
  }

  /**
   * The stored record's id is the key it is stored under, an edited record
   * replaces itself, and no other record changes.
   */
  lemma SavedUnderOwnId(items: map<string, StockedItem>, product: StockedItem, pushedKey: Option<string>)
    ensures var key := SaveKey(product, pushedKey);
      key in Saved(items, product, pushedKey) && Saved(items, product, pushedKey)[key].item.id == key
    ensures product.item.id != "" ==>
      Saved(items, product, pushedKey)[product.item.id] == product
    ensures forall k :: k in items && k != SaveKey(product, pushedKey) ==>
      k in Saved(items, product, pushedKey) && Saved(items, product, pushedKey)[k] == items[k]
    ensures Saved(items, product, pushedKey)[SaveKey(product, pushedKey)].item.title == product.item.title
  {
  }
}
