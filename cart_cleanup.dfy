/**
 * The clean-up that `placeOrder` applies to the priced cart before it is stored
 * in an order (system/server/src/services/cms.service.ts:444-485): caps on the
 * picked attributes, and a projection of every product onto the fields an order
 * record keeps.
 */
module CartCleanup {
  import opened Wrappers
  import opened Entities

  /** A cart line with more picked attribute keys than this loses all of them. */
  const MaxAttributeKeys: nat := 1000
  /** A picked value list longer than this is deleted. */
  const MaxAttributeValues: nat := 1000

  /** A value list that `!list?.length` treats as missing. */
  predicate IsBlank(values: Option<seq<string>>) {
    values.None? || |values.value| == 0
  }

  predicate IsOversized(values: Option<seq<string>>) {
    values.Some? && |values.value| > MaxAttributeValues
  }

  /** The members of `Object.prototype`, which every plain object inherits. */
  const ObjectPrototypeKeys: set<string> := {
    "constructor", "__proto__", "__defineGetter__", "__defineSetter__", "__lookupGetter__",
    "__lookupSetter__", "hasOwnProperty", "isPrototypeOf", "propertyIsEnumerable",
    "toString", "toLocaleString", "valueOf" }

  /**
   * After `delete`, reading such a key finds the inherited member: a function
   * (whose `length` is at most 2) or, for `__proto__`, `Object.prototype`
   * (whose `length` is `undefined`); neither throws nor exceeds the cap.
   */
  predicate IsInherited(key: string) {
    key in ObjectPrototypeKeys
  }

  /**
   * A key whose list is missing or empty is deleted and then read again; when
   * nothing is inherited under that name the read is `undefined.length`, which
   * throws a TypeError out of `placeOrder`.
   */
  predicate Throws(key: string, values: Option<seq<string>>) {
    IsBlank(values) && !IsInherited(key)
  }

  /** A list that survives the loop: present, not empty and under the cap. */
  predicate IsKept(values: Option<seq<string>>) {
    !IsBlank(values) && !IsOversized(values)
  }

  /** What the key-by-key clean-up loop produces for picked attributes that are under the key cap. */
  function CleanedAttributes(attrs: PickedAttributes): Result<PickedAttributes, ScriptError> {
    if exists k | k in attrs :: Throws(k, attrs[k]) then Failure(TypeError)
    else Success(map k | k in attrs && IsKept(attrs[k]) :: attrs[k])
  }

  /**
   * The `forEach` over `Object.keys(item.pickedAttributes)` that deletes entries
   * in place. Keys are visited in an arbitrary order: the outcome does not depend on it.
   */
  method CleanPickedAttributes(attrs: PickedAttributes) returns (r: Result<PickedAttributes, ScriptError>)
    ensures r.Failure? <==> exists k :: k in attrs && Throws(k, attrs[k])
    ensures r.Success? ==> forall k :: k in r.value <==> k in attrs && IsKept(attrs[k])
    ensures r.Success? ==> forall k :: k in r.value ==> r.value[k] == attrs[k]
    ensures r == CleanedAttributes(attrs)
  {
    var picked := attrs;
    var keys := attrs.Keys;
    while keys != {}
      invariant keys <= attrs.Keys
      invariant forall k :: k in attrs && k !in keys ==> !Throws(k, attrs[k])
      invariant forall k :: k in picked <==> k in attrs && (k in keys || IsKept(attrs[k]))
      invariant forall k :: k in picked ==> picked[k] == attrs[k]
      decreases keys
    {
      var key :| key in keys;
      if IsBlank(picked[key]) {
        if !IsInherited(key) {
          // deleted, then `picked[key].length` dereferences undefined
          return Failure(TypeError);
        }
        // deleted; the second read sees the inherited member and deletes nothing more
        picked := picked - {key};
      } else if IsOversized(picked[key]) {
        picked := picked - {key};
      }
      keys := keys - {key};
    }
    r := Success(picked);
    assert !exists k | k in attrs :: Throws(k, attrs[k]);
    assert picked == map k | k in attrs && IsKept(attrs[k]) :: attrs[k];
  }

  /** A category as an order keeps it: `{id, name}`. */
  predicate IsCategoryRef(c: Category) {
    c.slug.None? && c.mainImage.None? && c.description.None?
  }

  function ProjectCategory(c: Category): Category {
    Category(c.id, c.name, None, None, None)
  }

  /** A product carrying only the fields an order record keeps. */
  predicate IsOrderProduct(p: Product) {
    && p.slug.None? && p.pageTitle.None? && p.pageDescription.None?
    && p.isEnabled.None? && p.description.None? && p.views.None?
    && (p.categories.Some? ==> forall i :: 0 <= i < |p.categories.value| ==> IsCategoryRef(p.categories.value[i]))
  }

  function ProjectCategories(cs: Option<seq<Category>>): Option<seq<Category>> {
    match cs
    case None => None
    case Some(s) => Some(seq(|s|, i requires 0 <= i < |s| => ProjectCategory(s[i])))
  }

  /** The product literal of cms.service.ts:460-478. */
  function ProjectProduct(p: Product): (r: Product)
    ensures IsOrderProduct(r)
    ensures r.id == p.id && r.createDate == p.createDate && r.updateDate == p.updateDate
    ensures r.name == p.name && r.mainCategoryId == p.mainCategoryId
    ensures r.price == p.price && r.oldPrice == p.oldPrice && r.sku == p.sku
    ensures r.mainImage == p.mainImage && r.images == p.images && r.attributes == p.attributes
    ensures r.stockAmount == p.stockAmount && r.stockStatus == p.stockStatus
    ensures r.categories.Some? <==> p.categories.Some?
    ensures p.categories.Some? ==> |r.categories.value| == |p.categories.value|
    ensures p.categories.Some? ==> forall i :: 0 <= i < |p.categories.value| ==>
      r.categories.value[i].id == p.categories.value[i].id && r.categories.value[i].name == p.categories.value[i].name
  {
    Product(
      p.id, p.createDate, p.updateDate, p.name, p.mainCategoryId, p.price, p.oldPrice, p.sku,
      p.mainImage, p.images, p.attributes, p.stockAmount, p.stockStatus,
      ProjectCategories(p.categories),
      None, None, None, None, None, None)
  }

  /** The projection changes a product exactly when it holds a field an order does not keep. */
  lemma ProjectProductFixpoint(p: Product)
    ensures ProjectProduct(p) == p <==> IsOrderProduct(p)
  {
    if IsOrderProduct(p) && p.categories.Some? {
      var s := p.categories.value;
      assert ProjectCategories(p.categories).value == s by {
        forall i | 0 <= i < |s| ensures ProjectCategory(s[i]) == s[i] {
          assert IsCategoryRef(s[i]);
        }
      }
    }
  }

  /** The picked attributes of one line after the key cap and the per-key loop. */
  function CleanItemAttributes(picked: Option<PickedAttributes>): Result<Option<PickedAttributes>, ScriptError> {
    match picked
    case None => Success(None)
    case Some(m) =>
      if |m| > MaxAttributeKeys then Success(None)
      else match CleanedAttributes(m)
        case Success(c) => Success(Some(c))
        case Failure(e) => Failure(e)
  }

  /** One step of the `orderTotal.cart.map(...)` callback. */
  function CleanItem(item: CartItem): (r: Result<CartItem, ScriptError>)
    ensures r.Failure? <==>
      item.pickedAttributes.Some? && |item.pickedAttributes.value| <= MaxAttributeKeys
      && exists k :: k in item.pickedAttributes.value && Throws(k, item.pickedAttributes.value[k])
    ensures r.Success? ==> r.value.amount == item.amount
    ensures r.Success? ==> (item.pickedAttributes.None? || |item.pickedAttributes.value| > MaxAttributeKeys
                            <==> r.value.pickedAttributes.None?)
    ensures r.Success? && r.value.pickedAttributes.Some? ==>
      var before, after := item.pickedAttributes.value, r.value.pickedAttributes.value;
      && (forall k :: k in after <==> k in before && IsKept(before[k]))
      && (forall k :: k in after ==> after[k] == before[k])
    ensures r.Success? ==> (r.value.product.Some? <==> item.product.Some?)
    ensures r.Success? && item.product.Some? ==> r.value.product.value == ProjectProduct(item.product.value)
  {
    match CleanItemAttributes(item.pickedAttributes)
    case Failure(e) => Failure(e)
    case Success(picked) =>
      var product := match item.product case None => None case Some(p) => Some(ProjectProduct(p));
      Success(CartItem(item.amount, picked, product))
  }

  /** The `map` over the whole cart; the first line that throws aborts it. */
  function CleanCart(items: seq<CartItem>): (r: Result<seq<CartItem>, ScriptError>)
    ensures r.Failure? <==> exists i :: 0 <= i < |items| && CleanItem(items[i]).Failure?
    ensures r.Success? ==> |r.value| == |items|
    ensures r.Success? ==> forall i :: 0 <= i < |items| ==> r.value[i] == CleanItem(items[i]).value
  {
    if items == [] then Success([])
    else
      match CleanItem(items[0])
      case Failure(e) => Failure(e)
      case Success(first) =>
        match CleanCart(items[1..])
        case Failure(e) =>
          assert exists i :: 0 <= i < |items| && CleanItem(items[i]).Failure? by {
            var j :| 0 <= j < |items[1..]| && CleanItem(items[1..][j]).Failure?;
            assert items[1..][j] == items[j + 1];
          }
          Failure(e)
        case Success(rest) =>
          assert forall i :: 1 <= i < |items| ==> items[i] == items[1..][i - 1];
          Success([first] + rest)
  }

  /** The clean-up of `orderTotal.cart`, which is skipped when the cart is missing. */
  function CleanOrderCart(cart: Option<seq<CartItem>>): (r: Result<Option<seq<CartItem>>, ScriptError>)
    ensures cart.None? ==> r == Success(None)
    ensures cart.Some? ==> (r.Failure? <==> CleanCart(cart.value).Failure?)
    ensures cart.Some? && r.Success? ==> r.value == Some(CleanCart(cart.value).value)
  {
    match cart
    case None => Success(None)
    case Some(items) =>
      match CleanCart(items)
      case Failure(e) => Failure(e)
      case Success(cleaned) => Success(Some(cleaned))
  }

  /** A line that the clean-up leaves as it is. */
  predicate IsCleanItem(item: CartItem) {
    && (item.pickedAttributes.Some? ==>
          var m := item.pickedAttributes.value;
          |m| <= MaxAttributeKeys && forall k :: k in m ==> IsKept(m[k]))
    && (item.product.Some? ==> IsOrderProduct(item.product.value))
  }

  lemma SubsetCardinality(a: set<string>, b: set<string>)
    requires a <= b
    ensures |a| <= |b|
    decreases b
  {
    if a != {} {
      var x :| x in a;
      SubsetCardinality(a - {x}, b - {x});
    }
  }

  /** Every line the clean-up produces is clean. */
  lemma CleanItemIsClean(item: CartItem)
    requires CleanItem(item).Success?
    ensures IsCleanItem(CleanItem(item).value)
  {
    var out := CleanItem(item).value;
    if out.pickedAttributes.Some? {
      SubsetCardinality(out.pickedAttributes.value.Keys, item.pickedAttributes.value.Keys);
    }
  }

  /** A clean line is a fixpoint of the clean-up. */
  lemma CleanItemOfClean(item: CartItem)
    requires IsCleanItem(item)
    ensures CleanItem(item) == Success(item)
  {
    if item.product.Some? {
      ProjectProductFixpoint(item.product.value);
    }
    if item.pickedAttributes.Some? {
      var m := item.pickedAttributes.value;
      assert !exists k | k in m :: Throws(k, m[k]);
      assert (map k | k in m && IsKept(m[k]) :: m[k]) == m;
    }
  }

  /** Cleaning a cleaned cart changes nothing. */
  lemma CleanCartIdempotent(items: seq<CartItem>)
    requires CleanCart(items).Success?
    ensures CleanCart(CleanCart(items).value) == CleanCart(items)
  {
    var cleaned := CleanCart(items).value;
    forall i | 0 <= i < |cleaned| ensures CleanItem(cleaned[i]) == Success(cleaned[i]) {
      CleanItemIsClean(items[i]);
      CleanItemOfClean(cleaned[i]);
    }
    assert CleanCart(cleaned).value == cleaned;
  }
}
