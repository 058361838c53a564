/** The product catalogue and its two lookups (src/stripe-config.ts). Both
    lookups are `Array.prototype.find` over the constant list: the first entry
    whose key matches, or `undefined` (None). */
module StripeConfig {
  import opened Strings

  datatype Mode = Payment | Subscription

  datatype StripeProduct = StripeProduct(
    id: string,
    priceId: string,
    name: string,
    description: string,
    mode: Mode,
    price: string)

  const STRIPE_PRODUCTS: seq<StripeProduct> := [
    StripeProduct(
      "prod_SstdJiFTZ1nLkY",
      "price_1Rx7qeETBte9tCIcutDIt3St",
      "Glow Guide Monthly Subscription",
      "Your personal beauty & wellness companion with monthly insights and personalized transformation plans",
      Subscription,
      "$4.99/month")
  ]

  /** Which field a lookup compares. */
  datatype Key = ById | ByPriceId

  function KeyOf(p: StripeProduct, key: Key): string {
    match key
    case ById => p.id
    case ByPriceId => p.priceId
  }

  /** Entry `i` matches and no earlier entry does: where `find` stops. */
  predicate IsFirstMatch(products: seq<StripeProduct>, key: Key, value: string, i: nat) {
    i < |products| && KeyOf(products[i], key) == value
    && forall j :: 0 <= j < i ==> KeyOf(products[j], key) != value
  }

  /** `products.find(p => KeyOf(p) === value)`, as the index it stops at. */
  function FindIndex(products: seq<StripeProduct>, key: Key, value: string): (r: Option<nat>)
    ensures r.Some? ==> IsFirstMatch(products, key, value, r.value)
    ensures r.None? ==> forall j :: 0 <= j < |products| ==> KeyOf(products[j], key) != value
  {
    if |products| == 0 then None
    else if KeyOf(products[0], key) == value then Some(0)
    else
      match FindIndex(products[1..], key, value)
      case None => None
      case Some(i) => Some(i + 1)
  }

  function Find(products: seq<StripeProduct>, key: Key, value: string): (r: Option<StripeProduct>)
    ensures r.Some? <==> exists j :: 0 <= j < |products| && KeyOf(products[j], key) == value
    ensures r.Some? ==> KeyOf(r.value, key) == value
    ensures r.Some? ==> exists i: nat :: IsFirstMatch(products, key, value, i) && products[i] == r.value
  {
    match FindIndex(products, key, value)
    case None => None
    case Some(i) => Some(products[i])
  }

  /** `getProductById`: the first catalogue entry with that id, or None when
      no entry has it. */
  function GetProductById(id: string): (r: Option<StripeProduct>)
    ensures r.Some? <==> exists j :: 0 <= j < |STRIPE_PRODUCTS| && STRIPE_PRODUCTS[j].id == id
    ensures r.Some? ==> r.value.id == id
    ensures r.Some? ==> exists i: nat :: IsFirstMatch(STRIPE_PRODUCTS, ById, id, i) && STRIPE_PRODUCTS[i] == r.value
  {
    Find(STRIPE_PRODUCTS, ById, id)
  }

  /** `getProductByPriceId`: the same with respect to the price id. */
  function GetProductByPriceId(priceId: string): (r: Option<StripeProduct>)
    ensures r.Some? <==> exists j :: 0 <= j < |STRIPE_PRODUCTS| && STRIPE_PRODUCTS[j].priceId == priceId
    ensures r.Some? ==> r.value.priceId == priceId
    ensures r.Some? ==> exists i: nat :: IsFirstMatch(STRIPE_PRODUCTS, ByPriceId, priceId, i) && STRIPE_PRODUCTS[i] == r.value
  {
    Find(STRIPE_PRODUCTS, ByPriceId, priceId)
  }

  /** With repeated keys the lookup returns the earlier entry. */
  lemma FirstMatchWins(products: seq<StripeProduct>, key: Key, i: nat, j: nat)
    requires i < j < |products|
    requires KeyOf(products[i], key) == KeyOf(products[j], key)
    requires forall k :: 0 <= k < i ==> KeyOf(products[k], key) != KeyOf(products[i], key)
    ensures Find(products, key, KeyOf(products[i], key)) == Some(products[i])
  {
    var r := FindIndex(products, key, KeyOf(products[i], key));
    assert r.Some?;
    assert r.value == i;
  }

  /** The one product in the catalogue is found under both its keys. */
  lemma CatalogueLookups()
    ensures GetProductById("prod_SstdJiFTZ1nLkY") == Some(STRIPE_PRODUCTS[0])
    ensures GetProductByPriceId("price_1Rx7qeETBte9tCIcutDIt3St") == Some(STRIPE_PRODUCTS[0])
    ensures GetProductById("price_1Rx7qeETBte9tCIcutDIt3St") == None
  {
    assert STRIPE_PRODUCTS[0].id != "price_1Rx7qeETBte9tCIcutDIt3St";
  }
}
