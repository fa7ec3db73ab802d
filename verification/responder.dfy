/**
 * The response engine `get_ai_response`: an ordered, first-match scan over
 * eight categories (greeting, services, pricing, products, contact,
 * delivery/hours, FAQ, default). A category fires when its keyword trigger
 * matches the lower-cased query AND the profile holds the data it needs; a
 * triggered category without data falls through to the next one.
 *
 * The pure functions below are the reference definition (`Respond`); the
 * methods are the loops of the source, each proved to compute its function,
 * and `GetAiResponse` is the early-return cascade proved equal to `Respond`.
 * `random.choice` becomes a caller-supplied `pick`.
 */
module Responder {
  import opened Wrappers
  import opened Text
  import opened Numbers
  import opened Profile

  // ---------------------------------------------------------------- keywords

  const GreetingWords: seq<string> := ["hi", "hello", "hey", "namaste"]
  const ServiceWords: seq<string> := ["service", "offer", "provide", "what do you do"]
  const PriceWords: seq<string> := ["price", "cost", "how much", "rate"]
  const ProductWords: seq<string> := ["product", "item", "sell", "buy"]
  const ContactWords: seq<string> := ["contact", "call", "email", "phone", "reach"]
  const DeliveryWords: seq<string> := ["delivery", "shipping", "time", "how long"]

  // --------------------------------------------------------------- templates

  const GreetingCount: nat := 3

  /** The k-th greeting template. */
  function GreetingTemplate(k: nat, name: string): string
    requires k < GreetingCount
  {
    if k == 0 then "Hello! Welcome to " + name + "! How can I help? \U{1F917}"
    else if k == 1 then "Hi there! I'm your AI assistant for " + name + ". What can I do for you?"
    else "Welcome to " + name + "! Ready to assist you!"
  }

  /** The `greetings` list. */
  function Greetings(name: string): seq<string> {
    seq(GreetingCount, k requires 0 <= k < GreetingCount => GreetingTemplate(k, name))
  }

  const DefaultCount: nat := 4

  /** The k-th default template. */
  function DefaultTemplate(k: nat, name: string, kind: string): string
    requires k < DefaultCount
  {
    if k == 0 then "I can help you with information about " + name + ". Try asking about our services, products, or contact details!"
    else if k == 1 then "Looking for information about " + kind + " services? I'm here to help!"
    else if k == 2 then "Great question! Could you be more specific so I can assist you better?"
    else "Visit " + name + "'s website or contact us directly for detailed assistance."
  }

  /** The `default_responses` list. */
  function Defaults(name: string, kind: string): seq<string> {
    seq(DefaultCount, k requires 0 <= k < DefaultCount => DefaultTemplate(k, name, kind))
  }

  /** `random.choice(greetings)`, the random draw supplied by the caller. */
  function PickGreeting(name: string, pick: nat): (r: string)
    ensures r in Greetings(name) && |r| > 0
  {
    var k := pick % GreetingCount;
    assert Greetings(name)[k] == GreetingTemplate(k, name);
    GreetingTemplate(k, name)
  }

  /** `random.choice(default_responses)`, the random draw supplied by the caller. */
  function PickDefault(name: string, kind: string, pick: nat): (r: string)
    ensures r in Defaults(name, kind) && |r| > 0
  {
    var k := pick % DefaultCount;
    assert Defaults(name, kind)[k] == DefaultTemplate(k, name, kind);
    DefaultTemplate(k, name, kind)
  }

  // ---------------------------------------------------------------- services

  const ServicesHeader: string := "**Our Services:**\n\n"

  function ServiceLine(s: Service): string {
    "• **" + s.name.GetOr("Service") + "** - " + s.price.GetOr("Contact for price")
      + " (Delivery: " + s.deliveryTime.GetOr("Contact for time") + ")\n"
  }

  function ServicesReply(services: seq<Service>): string {
    ServicesHeader + Bullets(services, ServiceLine)
  }

  // ----------------------------------------------------------------- pricing

  /** `service.get('price', '₹0')`. */
  function PriceText(s: Service): string {
    s.price.GetOr("₹0")
  }

  /** The number a service's price stands for, when it parses. */
  function PriceValue(s: Service): Option<int> {
    ParsePrice(PriceText(s))
  }

  /**
   * What a loop of `try: out.append(parse(x)) except: pass` over xs
   * collects: every value parse accepts, in order; the rest are skipped.
   */
  function Parsed<T>(xs: seq<T>, parse: T -> Option<int>): seq<int> {
    if xs == [] then []
    else
      var n := |xs| - 1;
      match parse(xs[n])
      case Some(v) => Parsed(xs[..n], parse) + [v]
      case None => Parsed(xs[..n], parse)
  }

  /** A number is collected exactly when some element parses to it. */
  lemma {:induction false} ParsedMembers<T>(xs: seq<T>, parse: T -> Option<int>, v: int)
    ensures v in Parsed(xs, parse) <==> exists i :: 0 <= i < |xs| && parse(xs[i]) == Some(v)
  {
    if xs != [] {
      var n := |xs| - 1;
      var init := xs[..n];
      ParsedMembers(init, parse, v);
      assert forall i :: 0 <= i < n ==> init[i] == xs[i];
    }
  }

  /** The `prices` list of the pricing branch. */
  function ParsedPrices(services: seq<Service>): seq<int> {
    Parsed(services, PriceValue)
  }

  function PricingReply(minPrice: int): string {
    "Our services start from **₹" + FormatThousands(minPrice) + "**. Which service are you interested in?"
  }

  // ---------------------------------------------------------------- products

  const ProductsHeader: string := "**Our Products:**\n\n"

  /** How many products the products reply lists (`products[:3]`). */
  const ShownProducts: nat := 3

  function ProductLine(p: Product): string {
    "• **" + p.name.GetOr("Product") + "** - " + p.price.GetOr("₹0") + "\n"
  }

  /** `products[:3]`. */
  function FirstProducts(products: seq<Product>): (r: seq<Product>)
    ensures |r| <= ShownProducts && r <= products
    ensures |r| == if |products| <= ShownProducts then |products| else ShownProducts
  {
    if |products| <= ShownProducts then products else products[..ShownProducts]
  }

  function ProductsReply(products: seq<Product>): string {
    ProductsHeader + Bullets(FirstProducts(products), ProductLine)
  }

  // ----------------------------------------------------------------- contact

  const ContactHeader: string := "**Contact Information:**\n"

  function ContactLine(entry: (string, string)): string {
    "• **" + TitleCase(entry.0) + "**: " + entry.1 + "\n"
  }

  function ContactReply(contact: seq<(string, string)>): string {
    ContactHeader + Bullets(contact, ContactLine)
  }

  // ---------------------------------------------------------------- delivery

  /** The index of the first product that has a `delivery` key, if any. */
  function FirstDelivery(products: seq<Product>): (r: Option<nat>)
    ensures r.Some? ==> r.value < |products| && products[r.value].delivery.Some?
    ensures r.Some? ==> forall j :: 0 <= j < r.value ==> products[j].delivery.None?
    ensures r.None? ==> forall j :: 0 <= j < |products| ==> products[j].delivery.None?
  {
    if products == [] then None
    else if products[0].delivery.Some? then Some(0)
    else
      match FirstDelivery(products[1..])
      case Some(i) => Some(i + 1)
      case None => None
  }

  /** `f"{x}"` of `dict.get(key)` with no default: a missing key prints as `None`. */
  function Shown(x: Option<string>): string {
    x.GetOr("None")
  }

  function DeliveryReply(p: Product): string {
    "Delivery for " + Shown(p.name) + ": " + Shown(p.delivery)
  }

  function Lookup(m: map<string, string>, key: string): Option<string> {
    if key in m then Some(m[key]) else None
  }

  function HoursReply(hours: map<string, string>): string {
    "**Business Hours:**\n• Weekdays: " + Shown(Lookup(hours, "weekdays"))
      + "\n• Weekends: " + Shown(Lookup(hours, "weekends"))
  }

  // --------------------------------------------------------------------- FAQ

  /** The FAQ entry is an object whose lower-cased question is non-empty and occurs in the lower-cased query. */
  predicate FaqMatches(f: FaqItem, inputLower: string) {
    f.FaqEntry? && var question := Lower(f.question.GetOr("")); |question| > 0 && Contains(inputLower, question)
  }

  /** The index of the first FAQ entry that matches, if any. */
  function FirstFaq(faqs: seq<FaqItem>, inputLower: string): (r: Option<nat>)
    ensures r.Some? ==> r.value < |faqs| && FaqMatches(faqs[r.value], inputLower)
    ensures r.Some? ==> forall j :: 0 <= j < r.value ==> !FaqMatches(faqs[j], inputLower)
    ensures r.None? ==> forall j :: 0 <= j < |faqs| ==> !FaqMatches(faqs[j], inputLower)
  {
    if faqs == [] then None
    else if FaqMatches(faqs[0], inputLower) then Some(0)
    else
      match FirstFaq(faqs[1..], inputLower)
      case Some(i) => Some(i + 1)
      case None => None
  }

  /** A matching entry with no match before it is the one `FirstFaq` finds. */
  lemma {:induction false} FirstFaqAt(faqs: seq<FaqItem>, inputLower: string, i: nat)
    requires i < |faqs| && FaqMatches(faqs[i], inputLower)
    requires forall j :: 0 <= j < i ==> !FaqMatches(faqs[j], inputLower)
    ensures FirstFaq(faqs, inputLower) == Some(i)
  {
    if i > 0 {
      assert !FaqMatches(faqs[0], inputLower);
      assert forall j :: 0 <= j < i - 1 ==> faqs[1..][j] == faqs[j + 1];
      FirstFaqAt(faqs[1..], inputLower, i - 1);
    }
  }

  /** `faq.get('answer', 'Please contact us for details.')`. */
  function AnswerOf(f: FaqItem): string
    requires f.FaqEntry?
  {
    f.answer.GetOr("Please contact us for details.")
  }

  // ------------------------------------------------------ the ordered scan

  datatype Category = Greeting | Services | Pricing | Products | Contact | Delivery | Faq | Default

  /** The position of a category in the scan. */
  function Rank(c: Category): nat {
    match c
    case Greeting => 0
    case Services => 1
    case Pricing => 2
    case Products => 3
    case Contact => 4
    case Delivery => 5
    case Faq => 6
    case Default => 7
  }

  /** The keyword test of each category; FAQ and default have none. */
  predicate Triggered(c: Category, inputLower: string) {
    match c
    case Greeting => AnyKeyword(inputLower, GreetingWords)
    case Services => AnyKeyword(inputLower, ServiceWords)
    case Pricing => AnyKeyword(inputLower, PriceWords)
    case Products => AnyKeyword(inputLower, ProductWords)
    case Contact => AnyKeyword(inputLower, ContactWords)
    case Delivery => AnyKeyword(inputLower, DeliveryWords)
    case Faq => true
    case Default => true
  }

  /** The data each category needs before it can answer. */
  predicate HasData(c: Category, inputLower: string, b: Business) {
    match c
    case Greeting => true
    case Services => |b.services| > 0
    case Pricing => |ParsedPrices(b.services)| > 0
    case Products => |b.products| > 0
    case Contact => |b.contact| > 0
    case Delivery => FirstDelivery(b.products).Some? || |b.hours| > 0
    case Faq => FirstFaq(b.faqs, inputLower).Some?
    case Default => true
  }

  predicate Fires(c: Category, inputLower: string, b: Business) {
    Triggered(c, inputLower) && HasData(c, inputLower, b)
  }

  /** The category that answers: the first in scan order that fires. */
  function Select(inputLower: string, b: Business): (c: Category)
    ensures Fires(c, inputLower, b)
    ensures forall d :: Rank(d) < Rank(c) ==> !Fires(d, inputLower, b)
  {
    if Fires(Greeting, inputLower, b) then Greeting
    else if Fires(Services, inputLower, b) then Services
    else if Fires(Pricing, inputLower, b) then Pricing
    else if Fires(Products, inputLower, b) then Products
    else if Fires(Contact, inputLower, b) then Contact
    else if Fires(Delivery, inputLower, b) then Delivery
    else if Fires(Faq, inputLower, b) then Faq
    else Default
  }

  /** The reply a firing category gives. */
  function Reply(c: Category, inputLower: string, b: Business, pick: nat): (r: string)
    requires Fires(c, inputLower, b)
    ensures c == Greeting ==> r in Greetings(BusinessName(b))
    ensures c == Default ==> r in Defaults(BusinessName(b), BusinessType(b))
    ensures c != Faq ==> |r| > 0
  {
    match c
    case Greeting => PickGreeting(BusinessName(b), pick)
    case Services => ServicesReply(b.services)
    case Pricing => PricingReply(MinOf(ParsedPrices(b.services)))
    case Products => ProductsReply(b.products)
    case Contact => ContactReply(b.contact)
    case Delivery =>
      (match FirstDelivery(b.products)
       case Some(i) => DeliveryReply(b.products[i])
       case None => HoursReply(b.hours))
    case Faq => AnswerOf(b.faqs[FirstFaq(b.faqs, inputLower).value])
    case Default => PickDefault(BusinessName(b), BusinessType(b), pick)
  }

  /** The category after c in the scan. */
  function Next(c: Category): (d: Category)
    requires c != Default
    ensures Rank(d) == Rank(c) + 1
  {
    match c
    case Greeting => Services
    case Services => Pricing
    case Pricing => Products
    case Products => Contact
    case Contact => Delivery
    case Delivery => Faq
    case Faq => Default
  }

  /** One rule of the scan: the category's reply when it fires, `None` when evaluation falls through. */
  function Attempt(c: Category, inputLower: string, b: Business, pick: nat): (r: Option<string>)
    ensures r.Some? <==> Fires(c, inputLower, b)
  {
    if Fires(c, inputLower, b) then Some(Reply(c, inputLower, b, pick)) else None
  }

  /** The scan from category c on: the first rule that answers. */
  function RespondFrom(c: Category, inputLower: string, b: Business, pick: nat): string
    decreases 7 - Rank(c)
  {
    match Attempt(c, inputLower, b, pick)
    case Some(reply) => reply
    case None => if c == Default then "" else RespondFrom(Next(c), inputLower, b, pick)
  }

  /** Scanning from any category not after the selected one reaches the selected one's reply. */
  lemma {:induction false} RespondFromReachesSelected(c: Category, inputLower: string, b: Business, pick: nat)
    requires Rank(c) <= Rank(Select(inputLower, b))
    ensures RespondFrom(c, inputLower, b, pick) == Reply(Select(inputLower, b), inputLower, b, pick)
    decreases 7 - Rank(c)
  {
    var s := Select(inputLower, b);
    if c != s {
      assert Rank(c) < Rank(s);
      assert !Fires(c, inputLower, b);
      RespondFromReachesSelected(Next(c), inputLower, b, pick);
    }
  }

  /**
   * What `get_ai_response(userInput)` returns for profile b and random draw
   * `pick`: the reply of the first category, in scan order, whose trigger and
   * data condition both hold.
   */
  function Respond(userInput: string, b: Business, pick: nat): (r: string)
    ensures r == Reply(Select(Lower(userInput), b), Lower(userInput), b, pick)
  {
    RespondFromReachesSelected(Greeting, Lower(userInput), b, pick);
    RespondFrom(Greeting, Lower(userInput), b, pick)
  }

  // ------------------------------------------------------- the source's loops

  /** The services loop: header, then one `response +=` per service. */
  method BuildServicesReply(services: seq<Service>) returns (response: string)
    ensures response == ServicesReply(services)
  {
    response := ServicesHeader;
    for i := 0 to |services|
      invariant response == ServicesHeader + Bullets(services[..i], ServiceLine)
    {
      BulletsPrefix(services, i, ServiceLine);
      response := response + ServiceLine(services[i]);
    }
    assert services[..|services|] == services;
  }

  /** The pricing loop: append every price that parses, skip the others. */
  method CollectPrices(services: seq<Service>) returns (prices: seq<int>)
    ensures prices == ParsedPrices(services)
  {
    prices := [];
    for i := 0 to |services|
      invariant prices == ParsedPrices(services[..i])
    {
      assert services[..i + 1][..i] == services[..i];
      var parsed := PriceValue(services[i]);
      if parsed.Some? {
        prices := prices + [parsed.value];
      }
    }
    assert services[..|services|] == services;
  }

  /** The products loop over `products[:3]`. */
  method BuildProductsReply(products: seq<Product>) returns (response: string)
    ensures response == ProductsReply(products)
  {
    var shown := FirstProducts(products);
    response := ProductsHeader;
    for i := 0 to |shown|
      invariant response == ProductsHeader + Bullets(shown[..i], ProductLine)
    {
      BulletsPrefix(shown, i, ProductLine);
      response := response + ProductLine(shown[i]);
    }
    assert shown[..|shown|] == shown;
  }

  /** The contact loop: one title-cased line per entry. */
  method BuildContactReply(contact: seq<(string, string)>) returns (response: string)
    ensures response == ContactReply(contact)
  {
    response := ContactHeader;
    for i := 0 to |contact|
      invariant response == ContactHeader + Bullets(contact[..i], ContactLine)
    {
      BulletsPrefix(contact, i, ContactLine);
      response := response + ContactLine(contact[i]);
    }
    assert contact[..|contact|] == contact;
  }

  /** The delivery scan: stop at the first product with a `delivery` key. */
  method FindDelivery(products: seq<Product>) returns (found: Option<nat>)
    ensures found == FirstDelivery(products)
  {
    for i := 0 to |products|
      invariant forall j :: 0 <= j < i ==> products[j].delivery.None?
    {
      if products[i].delivery.Some? {
        return Some(i);
      }
    }
    return None;
  }

  /** The FAQ scan: skip non-objects and empty questions, stop at the first question found in the query. */
  method FindFaq(faqs: seq<FaqItem>, inputLower: string) returns (found: Option<nat>)
    ensures found == FirstFaq(faqs, inputLower)
  {
    for i := 0 to |faqs|
      invariant forall j :: 0 <= j < i ==> !FaqMatches(faqs[j], inputLower)
    {
      if faqs[i].FaqEntry? {
        var question := Lower(faqs[i].question.GetOr(""));
        if |question| > 0 && Contains(inputLower, question) {
          return Some(i);
        }
      }
    }
    return None;
  }

  /** Branch 1: a greeting keyword answers with one of the greetings. */
  method GreetingBranch(inputLower: string, business: Business, pick: nat) returns (reply: Option<string>)
    ensures reply == Attempt(Greeting, inputLower, business, pick)
  {
    if AnyKeyword(inputLower, GreetingWords) {
      return Some(PickGreeting(BusinessName(business), pick));
    }
    return None;
  }

  /** Branch 2: the services listing, when there are services. */
  method ServicesBranch(inputLower: string, business: Business, pick: nat) returns (reply: Option<string>)
    ensures reply == Attempt(Services, inputLower, business, pick)
  {
    if AnyKeyword(inputLower, ServiceWords) && |business.services| > 0 {
      var response := BuildServicesReply(business.services);
      return Some(response);
    }
    return None;
  }

  /** Branch 3: the lowest price, when some service price parses. */
  method PricingBranch(inputLower: string, business: Business, pick: nat) returns (reply: Option<string>)
    ensures reply == Attempt(Pricing, inputLower, business, pick)
  {
    if AnyKeyword(inputLower, PriceWords) && |business.services| > 0 {
      var prices := CollectPrices(business.services);
      if |prices| > 0 {
        assert Fires(Pricing, inputLower, business);
        assert Reply(Pricing, inputLower, business, pick) == PricingReply(MinOf(prices));
        return Some(PricingReply(MinOf(prices)));
      }
    } else if business.services == [] {
      assert ParsedPrices(business.services) == [];
    }
    assert !Fires(Pricing, inputLower, business);
    return None;
  }

  /** Branch 4: the first three products, when there are products. */
  method ProductsBranch(inputLower: string, business: Business, pick: nat) returns (reply: Option<string>)
    ensures reply == Attempt(Products, inputLower, business, pick)
  {
    if AnyKeyword(inputLower, ProductWords) && |business.products| > 0 {
      var response := BuildProductsReply(business.products);
      return Some(response);
    }
    return None;
  }

  /** Branch 5: the contact entries, when there are any. */
  method ContactBranch(inputLower: string, business: Business, pick: nat) returns (reply: Option<string>)
    ensures reply == Attempt(Contact, inputLower, business, pick)
  {
    if AnyKeyword(inputLower, ContactWords) && |business.contact| > 0 {
      var response := BuildContactReply(business.contact);
      return Some(response);
    }
    return None;
  }

  /** Branch 6: a product's delivery time, else the business hours. */
  method DeliveryBranch(inputLower: string, business: Business, pick: nat) returns (reply: Option<string>)
    ensures reply == Attempt(Delivery, inputLower, business, pick)
  {
    if AnyKeyword(inputLower, DeliveryWords) {
      if |business.products| > 0 {
        var found := FindDelivery(business.products);
        if found.Some? {
          return Some(DeliveryReply(business.products[found.value]));
        }
      }
      if |business.hours| > 0 {
        return Some(HoursReply(business.hours));
      }
    }
    return None;
  }

  /** Branch 7: the answer of the first FAQ whose question occurs in the query. */
  method FaqBranch(inputLower: string, business: Business, pick: nat) returns (reply: Option<string>)
    ensures reply == Attempt(Faq, inputLower, business, pick)
  {
    var found := FindFaq(business.faqs, inputLower);
    if found.Some? {
      return Some(AnswerOf(business.faqs[found.value]));
    }
    return None;
  }

  /** `get_ai_response`: the branches in the source's order, returning at the first that answers. */
  method GetAiResponse(userInput: string, business: Business, pick: nat) returns (response: string)
    ensures response == Respond(userInput, business, pick)
  {
    var inputLower := Lower(userInput);
    ghost var expected := Respond(userInput, business, pick);
    var reply := GreetingBranch(inputLower, business, pick);
    if reply.Some? {
      return reply.value;
    }
    assert expected == RespondFrom(Services, inputLower, business, pick);
    reply := ServicesBranch(inputLower, business, pick);
    if reply.Some? {
      return reply.value;
    }
    assert expected == RespondFrom(Pricing, inputLower, business, pick);
    reply := PricingBranch(inputLower, business, pick);
    if reply.Some? {
      return reply.value;
    }
    assert expected == RespondFrom(Products, inputLower, business, pick);
    reply := ProductsBranch(inputLower, business, pick);
    if reply.Some? {
      return reply.value;
    }
    assert expected == RespondFrom(Contact, inputLower, business, pick);
    reply := ContactBranch(inputLower, business, pick);
    if reply.Some? {
      return reply.value;
    }
    assert expected == RespondFrom(Delivery, inputLower, business, pick);
    reply := DeliveryBranch(inputLower, business, pick);
    if reply.Some? {
      return reply.value;
    }
    assert expected == RespondFrom(Faq, inputLower, business, pick);
    reply := FaqBranch(inputLower, business, pick);
    if reply.Some? {
      return reply.value;
    }
    assert expected == RespondFrom(Default, inputLower, business, pick);
    return PickDefault(BusinessName(business), BusinessType(business), pick);
  }
}
