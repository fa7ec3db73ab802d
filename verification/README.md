# Business chatbot response engine, in Dafny

This project models `get_ai_response` in `app.py`, the rule-based reply engine of a small Streamlit business assistant. It is the core of the chatbot. The function lower-cases the visitor's query and tries eight categories in a fixed order:

1. greeting
2. services listing
3. lowest price
4. first three products
5. contact details
6. delivery, then business hours
7. FAQ
8. default

The first category whose keyword test holds and whose profile data is usable gives the reply. A keyword match with no usable data falls through to the next category.

The project has six modules:

- `Profile` holds the business profile loaded from `business_data.json`, as a value (`Business`, `Service`, `Product`, `FaqItem`). It also holds the built-in fallback profile and the `BUSINESS_NAME` / `BUSINESS_TYPE` defaults.
- `Text` covers ASCII `str.lower()` and `str.title()`, substring search (`in`), the `any(word in text ...)` keyword scan, and bulleted lists.
- `Numbers` covers the price handling. It strips `₹` and `,`, reads the rest as Python `int()` does, formats with `{:,}`, and takes `min()`.
- `Responder` holds the specification of the scan. `Select` picks the first category that fires, `Reply` gives its reply, and `Respond` composes them. The module also holds the source's loops as methods (`BuildServicesReply`, `CollectPrices`, `FindFaq`, …), one method per branch, and `GetAiResponse`. That method runs the branches in the source's order and is proved to return `Respond`.
- `ResponderProperties` holds the lemmas about `Respond`.
- `Wrappers` holds the `Option` datatype.

`random.choice` is modelled by a caller-supplied `pick: nat`: template number `pick % count` is chosen. Nothing is said about the distribution.

A missing key is `None` in an `Option` field. A missing, empty or wrongly typed `services`, `products` or `contact` is the empty sequence. The source checks each of these three with `isinstance` before it reads them (`app.py:49`, `:61`, `:79`, `:90`, `:100`), so all such values act alike. `faqs` gets no such check (`app.py:111-113`). A missing key and an empty list both skip the FAQ rule, and the empty sequence stands for both. A dict or a string there is iterated, and each of its items is skipped as a non-dict, so it acts like a list of `FaqItem.NonObject`. A `faqs` value that is `null` or a number makes the loop raise `TypeError`; that crash is not modelled (see "Left out").

Two behaviours of `app.py` are easy to mistake:

- **Empty FAQ answer.** One might expect every reply to be non-empty. `app.py:117` returns a matched FAQ's `answer` as it is, so an answer `""` gives the reply `""`. `RespondNonEmpty` proves a non-empty reply for every profile whose FAQ answers are not empty. `EmptyAnswerGivesEmptyReply` shows the exception, and `EmptyReplyExample` gives a concrete profile and query for it.
- **Negative prices.** One might expect negative figures to be skipped. `int()` at `app.py:67` accepts a sign, so `"₹-500"` counts as -500. `PriceRoundTrip` holds for negative numbers too.

## Model

| member | source | states |
|---|---|---|
| Text.Lower | app.py:35 | the lower-cased query has the same length, and each character is the lower case of the original one |
| Text.LowerIdempotent | app.py:35 | lower-casing twice is lower-casing once |
| Text.AnyKeywordIff | app.py:38 | the ordered keyword scan succeeds exactly when some keyword of the list occurs in the query |
| Text.ContainsIffOccurs | app.py:116 | `needle in hay` holds exactly when the needle occurs at some position of the text |
| Text.ContainsTransitive | app.py:97 | a keyword inside a word inside the query is itself inside the query |
| Text.TitleCase | app.py:93 | each character of `key.title()` is upper-cased when it starts a run of letters and lower-cased otherwise; non-letters are kept |
| Text.TitleCaseIdempotent | app.py:93 | title-casing a title-cased label changes nothing |
| Text.TitleCaseKeepsLetters | app.py:93 | title-casing changes only the case of letters |
| Text.BulletsAppend | app.py:51-55 | the bullets of a list are the bullets of its parts, in order |
| Text.BulletsPrefix | app.py:51-55 | one more loop step appends exactly the next element's line |
| Numbers.StripPriceMarks | app.py:67 | after `.replace('₹', '').replace(',', '')` no `₹` or `,` is left |
| Numbers.StripKeepsOthers | app.py:67 | every other character is kept, as many times as it occurs |
| Numbers.TrimLeft | app.py:67 | `int()` drops a leading run of ASCII whitespace (space, `\t`, `\n`, `\v`, `\f`, `\r`): what is dropped is all whitespace, and what is left does not start with whitespace |
| Numbers.TrimRight | app.py:67 | `int()` drops a trailing run of the same ASCII whitespace: what is dropped is all whitespace, and what is left does not end with whitespace |
| Numbers.Trim | app.py:67 | every character of the trimmed text comes from the original text |
| Numbers.ParseSigned | app.py:67 | a text read as a number ends in a digit |
| Numbers.ParseSignedWithinLimit | app.py:67 | every number `int()` accepts, with at most 4300 digits (CPython's default limit), converts back with `str()` within that limit |
| Numbers.TooManyDigitsSkipped | app.py:66-70 | a price of more than 4300 digits is refused by `int()`, so it is skipped |
| Numbers.ValueOfBelowPow10 | app.py:67 | k digits denote a number below 10^k |
| Numbers.DecimalLength | app.py:67 | a number below 10^k has at most k decimal digits |
| Numbers.ParseIntNeedsDigit | app.py:67 | `int()` only succeeds on text that holds a digit |
| Numbers.ValueOfDecimal | app.py:67 | reading back the decimal digits of n gives n |
| Numbers.NoDigitNoPrice | app.py:66-70 | a price string with no digit never parses, so it is skipped |
| Numbers.ParseShow | app.py:67 | `int(str(n)) == n` for every integer, negative ones included, whose `str()` is within the 4300-digit limit (beyond it `str(n)` itself raises) |
| Numbers.ParsePriceWithinLimit | app.py:67-74 | a price that parses can be printed again within the digit limit |
| Numbers.PriceRoundTrip | app.py:67-74 | the figure the pricing reply prints, `₹` plus `{:,}`, reads back as the same number, for every figure within the digit limit |
| Numbers.StripGrouped | app.py:67-74 | removing the separators `{:,}` inserts gives the plain digits back |
| Numbers.StripFormatted | app.py:67-74 | removing `₹` and `,` from what the pricing reply prints gives `str(n)` |
| Numbers.GroupDigitsCommas | app.py:74 | `{:,}` puts a comma exactly at every position a multiple of four from the right end, and a digit everywhere else; the first character is the first digit, never a comma |
| Numbers.DecimalLeadingDigit | app.py:74 | `str(n)` starts with `0` exactly when n is 0 |
| Numbers.FormatThousandsShape | app.py:74 | `f"{n:,}"` starts with `-` exactly when n is negative; the rest has a comma every three digits from the right, starts with a digit, and starts with `0` only for 0 |
| Numbers.MinOf | app.py:73 | `min(prices)` is one of the prices and no price is smaller |
| Responder.PickGreeting | app.py:39-44 | the chosen reply is one of the three greeting templates |
| Responder.PickDefault | app.py:120-126 | the chosen reply is one of the four default templates |
| Responder.ParsedMembers | app.py:63-70 | a number is among the collected prices exactly when some service's price parses to it |
| Responder.FirstProducts | app.py:81 | `products[:3]` is a prefix of the list; it is the whole list when there are at most three products, and exactly three products otherwise |
| Responder.FirstDelivery | app.py:101-103 | the index found is that of a product with a `delivery` key and no earlier product has one; when none is found no product has one |
| Responder.FirstFaq | app.py:113-117 | the index found is that of a matching FAQ and no earlier FAQ matches; when none is found no FAQ matches |
| Responder.FirstFaqAt | app.py:113-117 | a matching FAQ preceded by no matching FAQ is the one found |
| Responder.Select | app.py:37-126 | the selected category fires, and no category earlier in the scan fires |
| Responder.Next | app.py:37-126 | the scan moves to the category one place later |
| Responder.Attempt | app.py:37-126 | a category answers exactly when its keyword test and its data condition both hold |
| Responder.Reply | app.py:37-126 | the greeting and default replies are among their templates, and every reply except a FAQ answer is non-empty |
| Responder.RespondFromReachesSelected | app.py:37-126 | scanning from any category not after the selected one reaches the selected one's reply |
| Responder.Respond | app.py:32-126 | the reply to a query is the reply of the first category, in scan order, whose keyword test and data condition hold, on the lower-cased query |
| Responder.BuildServicesReply | app.py:50-56 | the loop builds the header plus one bullet per service, in order |
| Responder.CollectPrices | app.py:63-70 | the loop collects exactly the parsable prices, in service order |
| Responder.BuildProductsReply | app.py:80-85 | the loop builds the header plus one bullet per product of `products[:3]` |
| Responder.BuildContactReply | app.py:91-94 | the loop builds the header plus one title-cased line per contact entry |
| Responder.FindDelivery | app.py:101-103 | the loop stops at the first product with a `delivery` key |
| Responder.FindFaq | app.py:113-117 | the loop stops at the first dict FAQ whose non-empty lower-cased question is inside the query |
| Responder.GreetingBranch | app.py:38-44 | branch 1 answers exactly when the greeting rule fires, with its reply |
| Responder.ServicesBranch | app.py:47-56 | branch 2 answers exactly when the services rule fires, with its reply |
| Responder.PricingBranch | app.py:59-74 | branch 3 answers exactly when the pricing rule fires, with its reply |
| Responder.ProductsBranch | app.py:77-85 | branch 4 answers exactly when the products rule fires, with its reply |
| Responder.ContactBranch | app.py:88-94 | branch 5 answers exactly when the contact rule fires, with its reply |
| Responder.DeliveryBranch | app.py:97-108 | branch 6 answers exactly when the delivery rule fires, with its reply |
| Responder.FaqBranch | app.py:111-117 | branch 7 answers exactly when the FAQ rule fires, with its reply |
| Responder.GetAiResponse | app.py:32-126 | the whole function returns `Respond`, the first firing category's reply |
| ResponderProperties.SelectIs | app.py:37-126 | a category that fires, with no earlier category firing, is the one selected |
| ResponderProperties.PickMattersOnlyForGreetingAndDefault | app.py:37-126 | the random draw changes the reply only when the greeting or the default answers |
| ResponderProperties.GreetingsMentionName | app.py:39-43 | every greeting names the business |
| ResponderProperties.GreetingPrecedence | app.py:38-44 | a greeting keyword anywhere in the query wins over all other categories |
| ResponderProperties.ShippingGreets | app.py:38 | a query containing "shipping" greets, because "hi" is a substring of it |
| ResponderProperties.ServicesListing | app.py:47-56 | with services and no greeting keyword, a services query lists every service |
| ResponderProperties.ServicesReplyAppends | app.py:51-55 | one more service appends exactly its bullet line |
| ResponderProperties.EmptyServicesFallThrough | app.py:47-61 | with no services, both the services and the pricing rule fall through to products |
| ResponderProperties.LowestPrice | app.py:63-73 | the reported figure is a price that parsed, and no parsed price is lower |
| ResponderProperties.PricingFigureWithinLimit | app.py:63-74 | the lowest parsed price is within the digit limit, so printing it with `{:,}` never raises |
| ResponderProperties.PricingQueryReportsLowest | app.py:59-74 | a pricing query with at least one parsable price reports the lowest one |
| ResponderProperties.MissingPriceCountsAsZero | app.py:65 | a service without a price counts as `₹0`, so the reported minimum is at most 0 |
| ResponderProperties.ThousandsExample | app.py:74 | 2500 is printed as "2,500" |
| ResponderProperties.ProductsBeyondThirdIgnored | app.py:81 | products after the third never change the products reply |
| ResponderProperties.ProductsAllListed | app.py:81-84 | up to three products, each one adds its bullet line, in order |
| ResponderProperties.ContactExample | app.py:91-94 | `{"phone": …, "email": …}` gives a "Phone" line and then an "Email" line |
| ResponderProperties.DeliveryPrecedence | app.py:99-103 | the first product with a `delivery` key answers, even when business hours exist |
| ResponderProperties.HoursWithoutProductDelivery | app.py:106-108 | with no product delivery, the business hours answer when there are any |
| ResponderProperties.DeliveryFallThrough | app.py:99-108 | with no product delivery and no hours, the delivery rule falls through to the FAQ |
| ResponderProperties.FaqQuestionInsideQuery | app.py:115-116 | a matching FAQ has a question, non-empty and no longer than the query |
| ResponderProperties.FaqMatchesQueryAroundQuestion | app.py:115-116 | a FAQ matches every query that holds its lower-cased question |
| ResponderProperties.FaqLongerThanQueryExample | app.py:116 | an example that containment goes one way: the question "what is your refund policy please" does not match the query "refund policy" |
| ResponderProperties.FaqFirstMatchAnswers | app.py:111-117 | when nothing earlier fires, the first matching FAQ gives its answer, or the placeholder when it has none |
| ResponderProperties.DefaultsMentionNameAndType | app.py:120-125 | the default templates name the business and its type |
| ResponderProperties.NothingFiresGivesDefault | app.py:119-126 | when no category fires, the reply is one of the default templates |
| ResponderProperties.FallbackGreetsOrDefaults | app.py:22-29 | with the fallback profile the reply is a greeting or a default |
| ResponderProperties.RespondNonEmpty | app.py:32-126 | the reply is never empty when no FAQ answer is empty |
| ResponderProperties.ReplyNonEmpty | app.py:37-126 | every category's reply is non-empty unless it is an empty FAQ answer |
| ResponderProperties.EmptyAnswerGivesEmptyReply | app.py:117 | a matched FAQ whose answer is "" gives the empty reply |
| ResponderProperties.RefundHasNoGreeting | app.py:38 | the query "refund" holds no greeting keyword |
| ResponderProperties.RefundMatchesFaq | app.py:115-116 | the FAQ question "refund" matches the query "refund" |
| ResponderProperties.EmptyReplyExample | app.py:111-117 | a profile whose only FAQ is question "refund" with answer "" replies "" to the query "refund" |

## Left out

- The Streamlit page: title, sidebar, chat history, `st.session_state` and the chat input. The sidebar's own minimum-price computation is a copy of the pricing branch and is not modelled separately.
- `load_business_data`: file I/O, JSON decoding and `@st.cache_data`. The loaded profile is a parameter. The fallback profile used when loading fails is `Profile.Fallback`.
- `random.choice`: it becomes the `pick` parameter. The distribution is not modelled.
- JSON values that are not strings, in fields the reply prints (`business_name`, `business_type`, `name`, `price`, `delivery_time`, `delivery`, hours, contact values). Python would print them with `str()`. The model holds strings only.
- JSON values that are not strings in a FAQ entry. The model holds strings only.
  - A non-string `question` (a number, a list, an object) has no `.lower()`: `app.py:115` raises `AttributeError` and the reply crashes.
  - A non-string `answer` of a matching FAQ is returned unchanged at `app.py:117`, not as text.
- A key present with value `null` is modelled as absent. Python treats it differently, in these places:
  - In a printed field, `.get(key, default)` returns `None`, and Python prints "None" instead of the default.
  - `"price": null` in a service: `.replace` raises `AttributeError` inside the `try` (`app.py:67`), so Python skips that price. The model counts it as `₹0`.
  - `"delivery": null` in a product: `'delivery' in product` holds (`app.py:102`), so Python answers with that product and prints "None". The model skips the product and may answer with the business hours.
  - `"question": null` in a FAQ: `None.lower()` raises `AttributeError` at `app.py:115`, and the reply crashes. The model skips that FAQ.
  - `"answer": null` in a matching FAQ: `app.py:117` returns `None`. The model returns the placeholder "Please contact us for details.".
- ResponderProperties.MissingPriceCountsAsZero: holds for a service without a `price` key only. In Python a `"price": null` is skipped, not counted as 0 (see above).
- Values that crash the reply in the source. The model has no such values.
  - A list element that is not a dict, in `services`: `.get` raises `AttributeError` in the services branch (`app.py:52`) and in the pricing branch (`app.py:65`, outside the `try`).
  - A list element that is not a dict among the first three of `products`: `.get` raises `AttributeError` in the products branch (`app.py:82`).
  - A truthy `business_hours` that is not a dict: `.get` raises `AttributeError` at `app.py:108`.
  - A `faqs` value that is `null` or a number: iterating it at `app.py:113` raises `TypeError`.
  - Non-dict FAQ entries do not crash. They are modelled (`FaqItem.NonObject`) and skipped as in the source.
- A list element that is not a dict, in `products`, on the delivery path. `'delivery' in product` at `app.py:102` is a membership test there, not a key lookup. The model has no such elements.
  - A string element is skipped unless it contains the text "delivery"; a list element is skipped unless it holds the string "delivery". So `"products": ["Logo"]` with business hours answers a delivery query with the hours.
  - When that test holds, `product.get('name')` at `app.py:103` raises `AttributeError`.
  - A number, boolean or `null` element raises `TypeError`, since it supports no `in` test.
- Duplicate contact keys cannot occur in a Python dict. The model's sequence of pairs does not rule them out.
- `Numbers.ParseInt`: the model reads optional ASCII whitespace, an optional sign and at most 4300 ASCII digits. Python's `int()` also accepts `_` between digits and non-ASCII digits and whitespace; those forms are not modelled. The digit limit is fixed at CPython's default; a program-wide change through `sys.set_int_max_str_digits` is not modelled.
- Numbers.ParseShow, Numbers.PriceRoundTrip: stated only for numbers whose `str()` has at most 4300 digits. Beyond that CPython's `str()` and `{:,}` raise `ValueError`, so there is no round trip to state.
- `Text.Lower`, `Text.TitleCase`: ASCII letters only. Python's Unicode case mapping is not modelled; other characters are kept as they are.
- Profile fields the reply engine never reads (tagline, testimonials, stock, features) are not part of `Business`.
