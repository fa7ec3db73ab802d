/**
 * The business profile the responder reads, as loaded from
 * `business_data.json`. Only the fields the responder consults are kept.
 * A `services`, `products` or `contact` value that is absent, empty or of
 * the wrong JSON shape behaves the same way in every branch of the
 * responder, so each is a plain sequence whose `[]` stands for all three.
 * An absent or empty `faqs` is `[]` too, and a dict or string there acts as
 * a list of `NonObject` items; a `null` or numeric `faqs` raises in the
 * source and is not modelled.
 */
module Profile {
  import opened Wrappers

  /** An entry of `services`; `None` is a missing key. */
  datatype Service = Service(name: Option<string>, price: Option<string>, deliveryTime: Option<string>)

  /** An entry of `products`; `delivery` is `Some` exactly when the entry has a `delivery` key. */
  datatype Product = Product(name: Option<string>, price: Option<string>, delivery: Option<string>)

  /** An element of `faqs`: an object with optional `question` and `answer`, or any other JSON value. */
  datatype FaqItem = FaqEntry(question: Option<string>, answer: Option<string>) | NonObject

  datatype Business = Business(
    businessName: Option<string>,
    businessType: Option<string>,
    services: seq<Service>,
    products: seq<Product>,
    /** The `contact` object's entries, label then value, in file order. */
    contact: seq<(string, string)>,
    /** The `business_hours` object (`{}` when absent). */
    hours: map<string, string>,
    faqs: seq<FaqItem>)

  const DefaultName: string := "AI Solutions Co."
  const DefaultType: string := "E-commerce"

  /** `BUSINESS_NAME`: the profile's name, or the default one. */
  function BusinessName(b: Business): string {
    b.businessName.GetOr(DefaultName)
  }

  /** `BUSINESS_TYPE`: the profile's type, or the default one. */
  function BusinessType(b: Business): string {
    b.businessType.GetOr(DefaultType)
  }

  /** The profile used when `business_data.json` cannot be loaded. */
  const Fallback: Business := Business(Some(DefaultName), Some(DefaultType), [], [], [], map[], [])
}
