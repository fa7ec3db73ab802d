/**
 * Properties of the response engine, stated about `Respond` (which
 * `GetAiResponse` is proved to compute).
 */
module ResponderProperties {
  import opened Wrappers
  import opened Text
  import opened Numbers
  import opened Profile
  import opened Responder

  // ------------------------------------------------------------- the scan

  /** The random draw only matters when the greeting or the default answers. */
  lemma PickMattersOnlyForGreetingAndDefault(userInput: string, b: Business, pick1: nat, pick2: nat)
    requires Select(Lower(userInput), b) != Greeting && Select(Lower(userInput), b) != Default
    ensures Respond(userInput, b, pick1) == Respond(userInput, b, pick2)
  {
  }

  // ------------------------------------------------------------- greeting

  lemma GreetingsMentionName(name: string)
    ensures forall t :: t in Greetings(name) ==> Contains(t, name)
  {
    var g := Greetings(name);
    assert g[0] == "Hello! Welcome to " + name + "! How can I help? \U{1F917}";
    ContainsMiddle("Hello! Welcome to ", name, "! How can I help? \U{1F917}");
    assert g[1] == "Hi there! I'm your AI assistant for " + name + ". What can I do for you?";
    ContainsMiddle("Hi there! I'm your AI assistant for ", name, ". What can I do for you?");
    assert g[2] == "Welcome to " + name + "! Ready to assist you!";
    ContainsMiddle("Welcome to ", name, "! Ready to assist you!");
  }

  /** A greeting keyword anywhere in the query wins over every other keyword: the reply is a greeting naming the business. */
  lemma GreetingPrecedence(userInput: string, b: Business, pick: nat)
    requires AnyKeyword(Lower(userInput), GreetingWords)
    ensures Respond(userInput, b, pick) in Greetings(BusinessName(b))
    ensures Contains(Respond(userInput, b, pick), BusinessName(b))
  {
    assert Fires(Greeting, Lower(userInput), b);
    GreetingsMentionName(BusinessName(b));
  }

  /** Matching is by substring, not by word: any query containing "shipping" greets, because "shipping" contains "hi". */
  lemma ShippingGreets(userInput: string, b: Business, pick: nat)
    requires Contains(Lower(userInput), "shipping")
    ensures Respond(userInput, b, pick) in Greetings(BusinessName(b))
  {
    ContainsMiddle("s", "hi", "pping");
    ContainsTransitive(Lower(userInput), "shipping", "hi");
    GreetingPrecedence(userInput, b, pick);
  }

  // ------------------------------------------------------------- services

  /** Without a greeting keyword, a services keyword and a non-empty services list give the full listing. */
  lemma ServicesListing(userInput: string, b: Business, pick: nat)
    requires !AnyKeyword(Lower(userInput), GreetingWords)
    requires AnyKeyword(Lower(userInput), ServiceWords) && |b.services| > 0
    ensures Respond(userInput, b, pick) == ServicesHeader + Bullets(b.services, ServiceLine)
  {
    assert RespondFrom(Greeting, Lower(userInput), b, pick) == RespondFrom(Services, Lower(userInput), b, pick);
  }

  /** The listing has one bullet per service, in profile order: adding a service appends its line. */
  lemma ServicesReplyAppends(services: seq<Service>, s: Service)
    ensures ServicesReply(services + [s]) == ServicesReply(services) + ServiceLine(s)
  {
    BulletsAppend(services, [s], ServiceLine);
    BulletsSingle(s, ServiceLine);
  }

  /** With no services, neither the services nor the pricing category can answer: the scan goes on to products. */
  lemma EmptyServicesFallThrough(inputLower: string, b: Business, pick: nat)
    requires |b.services| == 0
    ensures RespondFrom(Services, inputLower, b, pick) == RespondFrom(Products, inputLower, b, pick)
  {
    assert ParsedPrices(b.services) == [];
  }

  // -------------------------------------------------------------- pricing

  /** The reported price is a price that parsed, and no parsed price is lower. */
  lemma LowestPrice(services: seq<Service>)
    requires exists i :: 0 <= i < |services| && PriceValue(services[i]).Some?
    ensures |ParsedPrices(services)| > 0
    ensures exists i :: 0 <= i < |services| && PriceValue(services[i]) == Some(MinOf(ParsedPrices(services)))
    ensures forall i :: 0 <= i < |services| && PriceValue(services[i]).Some? ==>
      MinOf(ParsedPrices(services)) <= PriceValue(services[i]).value
  {
    var k :| 0 <= k < |services| && PriceValue(services[k]).Some?;
    ParsedMembers(services, PriceValue, PriceValue(services[k]).value);
    var prices := ParsedPrices(services);
    var m := MinOf(prices);
    ParsedMembers(services, PriceValue, m);
    forall i | 0 <= i < |services| && PriceValue(services[i]).Some?
      ensures m <= PriceValue(services[i]).value
    {
      ParsedMembers(services, PriceValue, PriceValue(services[i]).value);
    }
  }

  /** A category that fires, with none firing before it, is the one selected. */
  lemma SelectIs(c: Category, inputLower: string, b: Business)
    requires Fires(c, inputLower, b)
    requires forall d :: Rank(d) < Rank(c) ==> !Fires(d, inputLower, b)
    ensures Select(inputLower, b) == c
  {
    var s := Select(inputLower, b);
    assert Rank(s) == Rank(c);
  }

  lemma PricingSelected(inputLower: string, b: Business)
    requires !AnyKeyword(inputLower, GreetingWords) && !AnyKeyword(inputLower, ServiceWords)
    requires AnyKeyword(inputLower, PriceWords) && |ParsedPrices(b.services)| > 0
    ensures Select(inputLower, b) == Pricing
  {
    assert !Fires(Greeting, inputLower, b) && !Fires(Services, inputLower, b);
    assert Fires(Pricing, inputLower, b);
  }

  /** The figure the pricing reply prints is within the digit limit, so `{:,}` at app.py:74 never raises. */
  lemma PricingFigureWithinLimit(services: seq<Service>)
    requires exists i :: 0 <= i < |services| && PriceValue(services[i]).Some?
    ensures |ParsedPrices(services)| > 0 && WithinStrLimit(MinOf(ParsedPrices(services)))
  {
    LowestPrice(services);
    var k :| 0 <= k < |services| && PriceValue(services[k]) == Some(MinOf(ParsedPrices(services)));
    ParsePriceWithinLimit(PriceText(services[k]));
  }

  /** A pricing query (no greeting or services keyword) answers with the lowest parsed price when one parses. */
  lemma PricingQueryReportsLowest(userInput: string, b: Business, pick: nat)
    requires !AnyKeyword(Lower(userInput), GreetingWords) && !AnyKeyword(Lower(userInput), ServiceWords)
    requires AnyKeyword(Lower(userInput), PriceWords)
    requires exists i :: 0 <= i < |b.services| && PriceValue(b.services[i]).Some?
    ensures |ParsedPrices(b.services)| > 0
    ensures Respond(userInput, b, pick) == PricingReply(MinOf(ParsedPrices(b.services)))
  {
    LowestPrice(b.services);
    PricingSelected(Lower(userInput), b);
  }

  /** A service without a price counts as `₹0`, so the reported minimum is at most 0. */
  lemma MissingPriceCountsAsZero(services: seq<Service>, i: nat)
    requires i < |services| && services[i].price.None?
    ensures |ParsedPrices(services)| > 0 && MinOf(ParsedPrices(services)) <= 0
  {
    assert Decimal(0) == [DigitChar(0)];
    PriceRoundTrip(0);
    assert PriceText(services[i]) == "₹" + FormatThousands(0);
    assert PriceValue(services[i]) == Some(0);
    LowestPrice(services);
  }

  /** Prices are shown with thousands separators: 2500 as "2,500". */
  lemma ThousandsExample()
    ensures FormatThousands(2500) == "2,500"
  {
    assert Decimal(2500) == "2500";
    assert GroupDigits("2500") == "2" + "," + "500";
  }

  // ------------------------------------------------------------- products

  /** Only the first three products are listed: whatever follows them never changes the reply. */
  lemma ProductsBeyondThirdIgnored(products: seq<Product>, more: seq<Product>)
    requires |products| >= ShownProducts
    ensures ProductsReply(products + more) == ProductsReply(products)
  {
    var all := products + more;
    assert all[..ShownProducts] == products[..ShownProducts];
    if |products| == ShownProducts {
      assert products[..ShownProducts] == products;
    }
    assert FirstProducts(all) == FirstProducts(products);
  }

  /** Up to three products, each is listed, in order. */
  lemma ProductsAllListed(products: seq<Product>, p: Product)
    requires |products| < ShownProducts
    ensures ProductsReply(products + [p]) == ProductsReply(products) + ProductLine(p)
  {
    BulletsAppend(products, [p], ProductLine);
    BulletsSingle(p, ProductLine);
  }

  // -------------------------------------------------------------- contact

  lemma PhoneLine()
    ensures ContactLine(("phone", "1800-123-4567")) == "• **Phone**: 1800-123-4567\n"
  {
    TitleCaseWord("phone");
    assert "phone"[1..] == "hone";
  }

  lemma EmailLine()
    ensures ContactLine(("email", "x@y.com")) == "• **Email**: x@y.com\n"
  {
    TitleCaseWord("email");
    assert "email"[1..] == "mail";
  }

  /** Contact {"phone": "1800-123-4567", "email": "x@y.com"}: two lines, labels title-cased, in that order. */
  lemma ContactExample()
    ensures ContactReply([("phone", "1800-123-4567"), ("email", "x@y.com")])
      == ContactHeader + "• **Phone**: 1800-123-4567\n" + "• **Email**: x@y.com\n"
  {
    PhoneLine();
    EmailLine();
    var p, e := ("phone", "1800-123-4567"), ("email", "x@y.com");
    assert ContactReply([p, e]) == ContactHeader + ContactLine(p) + ContactLine(e) by {
      assert [p, e] == [p] + [e];
      BulletsAppend([p], [e], ContactLine);
      BulletsSingle(p, ContactLine);
      BulletsSingle(e, ContactLine);
    }
  }

  // ------------------------------------------------------------- delivery

  /** The first product with a delivery key answers a delivery query, whether or not business hours exist. */
  lemma DeliveryPrecedence(userInput: string, b: Business, pick: nat, i: nat)
    requires forall d :: Rank(d) < Rank(Delivery) ==> !Fires(d, Lower(userInput), b)
    requires AnyKeyword(Lower(userInput), DeliveryWords)
    requires i < |b.products| && b.products[i].delivery.Some?
    requires forall j :: 0 <= j < i ==> b.products[j].delivery.None?
    ensures Respond(userInput, b, pick) == DeliveryReply(b.products[i])
  {
    var q := Lower(userInput);
    var f := FirstDelivery(b.products);
    assert f == Some(i);
    assert Fires(Delivery, q, b);
    SelectIs(Delivery, q, b);
  }

  /** With no product delivery, a delivery query reports the business hours when there are any. */
  lemma HoursWithoutProductDelivery(userInput: string, b: Business, pick: nat)
    requires forall d :: Rank(d) < Rank(Delivery) ==> !Fires(d, Lower(userInput), b)
    requires AnyKeyword(Lower(userInput), DeliveryWords)
    requires forall j :: 0 <= j < |b.products| ==> b.products[j].delivery.None?
    requires |b.hours| > 0
    ensures Respond(userInput, b, pick) == HoursReply(b.hours)
  {
    var q := Lower(userInput);
    assert FirstDelivery(b.products).None?;
    SelectIs(Delivery, q, b);
  }

  /** With no product delivery and no hours, the delivery category falls through to the FAQ. */
  lemma DeliveryFallThrough(inputLower: string, b: Business, pick: nat)
    requires forall j :: 0 <= j < |b.products| ==> b.products[j].delivery.None?
    requires |b.hours| == 0
    ensures RespondFrom(Delivery, inputLower, b, pick) == RespondFrom(Faq, inputLower, b, pick)
  {
    assert FirstDelivery(b.products).None?;
  }

  // ------------------------------------------------------------------ FAQ

  /** A FAQ matches only when its question lies inside the query: never when it is longer than the query. */
  lemma FaqQuestionInsideQuery(f: FaqItem, inputLower: string)
    requires FaqMatches(f, inputLower)
    ensures f.FaqEntry? && f.question.Some?
    ensures 0 < |f.question.value| <= |inputLower|
  {
    ContainsNoLonger(inputLower, Lower(f.question.GetOr("")));
  }

  /** Conversely, a FAQ matches every query that holds its lower-cased question. */
  lemma FaqMatchesQueryAroundQuestion(pre: string, question: string, post: string, answer: Option<string>)
    requires |question| > 0
    ensures FaqMatches(FaqEntry(Some(question), answer), pre + Lower(question) + post)
  {
    ContainsMiddle(pre, Lower(question), post);
  }

  /** Matching is not symmetric: the question "what is your refund policy please" does not match the query "refund policy". */
  lemma FaqLongerThanQueryExample(answer: Option<string>)
    ensures !FaqMatches(FaqEntry(Some("what is your refund policy please"), answer), "refund policy")
  {
    var f := FaqEntry(Some("what is your refund policy please"), answer);
    if FaqMatches(f, "refund policy") {
      FaqQuestionInsideQuery(f, "refund policy");
    }
  }

  /** When no earlier category fires, the first matching FAQ answers, in list order. */
  lemma FaqFirstMatchAnswers(userInput: string, b: Business, pick: nat, i: nat)
    requires forall d :: Rank(d) < Rank(Faq) ==> !Fires(d, Lower(userInput), b)
    requires i < |b.faqs| && FaqMatches(b.faqs[i], Lower(userInput))
    requires forall j :: 0 <= j < i ==> !FaqMatches(b.faqs[j], Lower(userInput))
    ensures Respond(userInput, b, pick) == AnswerOf(b.faqs[i])
    ensures b.faqs[i].answer.None? ==> Respond(userInput, b, pick) == "Please contact us for details."
  {
    var q := Lower(userInput);
    FirstFaqAt(b.faqs, q, i);
    SelectIs(Faq, q, b);
  }

  // -------------------------------------------------------------- default

  lemma DefaultsMentionNameAndType(name: string, kind: string)
    ensures Contains(Defaults(name, kind)[0], name)
    ensures Contains(Defaults(name, kind)[1], kind)
    ensures Contains(Defaults(name, kind)[3], name)
  {
    ContainsMiddle("I can help you with information about ", name,
      ". Try asking about our services, products, or contact details!");
    ContainsMiddle("Looking for information about ", kind, " services? I'm here to help!");
    ContainsMiddle("Visit ", name, "'s website or contact us directly for detailed assistance.");
  }

  /** When no category fires, the reply is one of the default templates. */
  lemma NothingFiresGivesDefault(userInput: string, b: Business, pick: nat)
    requires forall d :: d != Default ==> !Fires(d, Lower(userInput), b)
    ensures Respond(userInput, b, pick) in Defaults(BusinessName(b), BusinessType(b))
  {
    assert Select(Lower(userInput), b) == Default;
  }

  /** With the fallback profile only the greeting or the default can answer. */
  lemma FallbackGreetsOrDefaults(userInput: string, pick: nat)
    ensures Respond(userInput, Fallback, pick) in Greetings(DefaultName) + Defaults(DefaultName, DefaultType)
  {
    var q := Lower(userInput);
    assert FirstFaq(Fallback.faqs, q).None?;
    assert FirstDelivery(Fallback.products).None?;
    assert ParsedPrices(Fallback.services) == [];
  }

  // ------------------------------------------------------------- totality

  /** The reply is never empty, unless it is a matched FAQ's own empty answer. */
  lemma RespondNonEmpty(userInput: string, b: Business, pick: nat)
    requires forall i :: 0 <= i < |b.faqs| && b.faqs[i].FaqEntry? ==> b.faqs[i].answer != Some("")
    ensures |Respond(userInput, b, pick)| > 0
  {
    var q := Lower(userInput);
    ReplyNonEmpty(Select(q, b), q, b, pick);
  }

  /** Every category's reply is non-empty, unless it is a FAQ's own empty answer. */
  lemma ReplyNonEmpty(c: Category, inputLower: string, b: Business, pick: nat)
    requires Fires(c, inputLower, b)
    requires forall i :: 0 <= i < |b.faqs| && b.faqs[i].FaqEntry? ==> b.faqs[i].answer != Some("")
    ensures |Reply(c, inputLower, b, pick)| > 0
  {
    if c == Faq {
      var i := FirstFaq(b.faqs, inputLower).value;
      assert b.faqs[i].FaqEntry?;
    }
  }

  /** An empty FAQ answer is returned as it is: when the first FAQ matches and its answer is "", the reply is "". */
  lemma EmptyAnswerGivesEmptyReply(userInput: string, b: Business, pick: nat)
    requires !AnyKeyword(Lower(userInput), GreetingWords)
    requires b.services == [] && b.products == [] && b.contact == [] && b.hours == map[]
    requires |b.faqs| > 0 && FaqMatches(b.faqs[0], Lower(userInput)) && b.faqs[0].answer == Some("")
    ensures Respond(userInput, b, pick) == ""
  {
    assert ParsedPrices(b.services) == [];
    FaqFirstMatchAnswers(userInput, b, pick, 0);
  }

  /** The query "refund" holds no greeting keyword. */
  lemma RefundHasNoGreeting()
    ensures !AnyKeyword("refund", GreetingWords)
  {
    if Contains("refund", "namaste") {
      ContainsNoLonger("refund", "namaste");
    }
    MissingFirstChar("refund", "hi");
    MissingFirstChar("refund", "hello");
    MissingFirstChar("refund", "hey");
  }

  /** The FAQ question "refund" matches the query "refund". */
  lemma RefundMatchesFaq(answer: Option<string>)
    ensures Lower("refund") == "refund"
    ensures FaqMatches(FaqEntry(Some("refund"), answer), "refund")
  {
    LowerKeepsLowercase("refund");
    ContainsMiddle("", "refund", "");
    assert "" + "refund" + "" == "refund";
  }

  /** The exception happens: the query "refund" against a profile whose only data is the FAQ "refund" answered by "" gets "". */
  lemma EmptyReplyExample(pick: nat)
    ensures Respond("refund", Business(None, None, [], [], [], map[], [FaqEntry(Some("refund"), Some(""))]), pick) == ""
  {
    RefundHasNoGreeting();
    RefundMatchesFaq(Some(""));
    EmptyAnswerGivesEmptyReply("refund", Business(None, None, [], [], [], map[], [FaqEntry(Some("refund"), Some(""))]), pick);
  }
}
