/**
 * The entity shapes that the order code handles: products, their categories and
 * attribute instances (system/core/common/src/types/entities.ts), and the cart
 * line items that the store engine hands back.
 */
module Entities {
  import opened Wrappers

  /** A database timestamp; the order code only copies it. */
  type Date = int

  /** Price override declared by one attribute value (`TAttributeProductVariant`). */
  datatype ProductVariant = ProductVariant(
    name: Option<string>,
    price: Option<int>,
    oldPrice: Option<int>,
    mainImage: Option<string>,
    images: Option<seq<string>>,
    description: Option<string>)

  datatype AttributeInstanceValue = AttributeInstanceValue(value: string, productVariant: Option<ProductVariant>)

  /** `TAttributeInstance`: an attribute key with the values a product offers. */
  datatype AttributeInstance = AttributeInstance(key: string, values: seq<AttributeInstanceValue>)

  /** A product category; only `id` and `name` survive into an order. */
  datatype Category = Category(
    id: string,
    name: string,
    slug: Option<string>,
    mainImage: Option<string>,
    description: Option<string>)

  /**
   * A product as the store engine returns it. Prices are in minor currency units.
   * The last six fields are the ones an order record does not keep.
   */
  datatype Product = Product(
    id: string,
    createDate: Option<Date>,
    updateDate: Option<Date>,
    name: string,
    mainCategoryId: Option<string>,
    price: Option<int>,
    oldPrice: Option<int>,
    sku: Option<string>,
    mainImage: Option<string>,
    images: Option<seq<string>>,
    attributes: Option<seq<AttributeInstance>>,
    stockAmount: Option<int>,
    stockStatus: Option<string>,
    categories: Option<seq<Category>>,
    // not whitelisted for orders:
    slug: Option<string>,
    pageTitle: Option<string>,
    pageDescription: Option<string>,
    isEnabled: Option<bool>,
    description: Option<string>,
    views: Option<int>)

  /**
   * Picked attribute values of a cart line: attribute key to the list of picked
   * values. A key may be present with an `undefined` list, hence the Option.
   */
  type PickedAttributes = map<string, Option<seq<string>>>

  /** One cart line (`TStoreListItem`) with the three properties an order keeps. */
  datatype CartItem = CartItem(
    amount: Option<int>,
    pickedAttributes: Option<PickedAttributes>,
    product: Option<Product>)
}
