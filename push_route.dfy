/**
 * The product-push endpoint: an ordered cascade of early returns from the
 * request body, the token the credential store gives for the shop, and the
 * reply of the platform's product-creation call, to an HTTP status and
 * JSON body.
 */
module PushToShopify {
  import opened Wrappers

  /** A JSON value relayed verbatim, as its text. */
  type Json = string

  /** One variant of the product payload; only its price is looked at. */
  datatype Variant = Variant(price: Option<string>)

  /** The `variants` field: absent, present but not an array, or an array. */
  datatype Variants = NoVariants | NotAnArray | VariantList(items: seq<Variant>)

  /** The platform product payload the dashboard builds. */
  datatype ProductInput = ProductInput(
    title: Option<string>,
    bodyHtml: Option<string>,
    vendor: Option<string>,
    productType: Option<string>,
    variants: Variants)

  /** The fields of the request body the endpoint destructures. */
  datatype PushBody = PushBody(product: Option<ProductInput>, shop: Option<string>)

  /**
   * The request as `request.json()` sees it: a parsed body, or a body the
   * handler throws on (text that is not JSON, or `null`, which cannot be
   * destructured).
   */
  datatype Request = JsonRequest(body: PushBody) | MalformedJson

  /** The platform's JSON reply; `errors` is `None` when absent or falsy. */
  datatype UpstreamData = UpstreamData(errors: Option<Json>, product: Option<Json>)

  /**
   * What the product-creation call gives: a status with a body, or a network
   * failure. The body is `None` when reading it throws: it is not JSON, or it
   * is `null`, whose `errors` and `product` cannot be read.
   */
  datatype UpstreamReply = Replied(status: int, data: Option<UpstreamData>) | NetworkError

  /** The `error` field of an error response. */
  datatype ErrorDetail =
    | Message(text: string)
    | ShopifyErrors(errors: Json)
    | ShopifyData(data: UpstreamData)
    | InternalError

  /** The JSON body of the endpoint's response. */
  datatype Body = ErrorBody(error: ErrorDetail) | SuccessBody(product: Option<Json>)

  datatype Response = Response(status: int, body: Body)

  /** The product-creation call the endpoint makes. */
  datatype UpstreamCall = UpstreamCall(url: string, accessToken: string, product: ProductInput)

  /** The response, and the platform call made on the way to it, if any. */
  datatype Outcome = Outcome(response: Response, call: Option<UpstreamCall>)

  const MissingInput: string := "Missing shop or product data"
  const MissingFields: string := "Product must have a title and at least one variant with a price"
  const MissingToken: string := "Missing access token. Please connect to Shopify first."

  /** A JavaScript string that is present and not empty. */
  predicate Truthy(s: Option<string>) {
    s.Some? && s.value != ""
  }

  /** `fetch`'s `response.ok`. */
  predicate IsOk(status: int) {
    200 <= status <= 299
  }

  /** A title, a `variants` array, and a first variant with a price. */
  predicate HasRequiredFields(p: ProductInput) {
    && Truthy(p.title)
    && p.variants.VariantList?
    && |p.variants.items| > 0
    && Truthy(p.variants.items[0].price)
  }

  /** The platform's product-creation URL for a shop. */
  function ProductsUrl(shop: string): (url: string)
    ensures |url| == |shop| + 40
    ensures url[..8] == "https://" && url[8..8 + |shop|] == shop
    ensures url[8 + |shop|..] == "/admin/api/2023-10/products.json"
  {
    "https://" + shop + "/admin/api/2023-10/products.json"
  }

  /** The body passes the first two checks. */
  predicate WellFormed(request: Request) {
    && request.JsonRequest?
    && request.body.product.Some?
    && Truthy(request.body.shop)
    && HasRequiredFields(request.body.product.value)
  }

  /** `POST`: the checks in order, then the platform call and its relay. */
  function Post(request: Request, token: Option<string>, upstream: UpstreamReply): (o: Outcome)
    // A body that is not JSON is an exception: 500.
    ensures request.MalformedJson? ==> o == Outcome(Response(500, ErrorBody(InternalError)), None)
    // A missing product or shop: 400, whatever the token and the platform.
    ensures request.JsonRequest? && (request.body.product.None? || !Truthy(request.body.shop))
      ==> o == Outcome(Response(400, ErrorBody(Message(MissingInput))), None)
    // A product without the required fields: 400.
    ensures request.JsonRequest? && request.body.product.Some? && Truthy(request.body.shop)
      && !HasRequiredFields(request.body.product.value)
      ==> o == Outcome(Response(400, ErrorBody(Message(MissingFields))), None)
    // A well-formed body without a token: 401, and the platform is not called.
    ensures WellFormed(request) && !Truthy(token)
      ==> o == Outcome(Response(401, ErrorBody(Message(MissingToken))), None)
    // The platform is called exactly for a well-formed body with a token, with that token and product.
    ensures o.call.Some? <==> WellFormed(request) && Truthy(token)
    ensures o.call.Some? ==> o.call.value == UpstreamCall(ProductsUrl(request.body.shop.value), token.value, request.body.product.value)
    // A non-ok platform reply: its status, with its `errors`, or its whole body when there are none.
    ensures o.call.Some? && upstream.Replied? && upstream.data.Some? && !IsOk(upstream.status)
      ==> o.response == Response(upstream.status, ErrorBody(
            if upstream.data.value.errors.Some? then ShopifyErrors(upstream.data.value.errors.value)
            else ShopifyData(upstream.data.value)))
    // An ok platform reply: 200 with the created product.
    ensures o.call.Some? && upstream.Replied? && upstream.data.Some? && IsOk(upstream.status)
      ==> o.response == Response(200, SuccessBody(upstream.data.value.product))
    // A network failure or a reply that is not JSON: 500.
    ensures o.call.Some? && (upstream.NetworkError? || upstream.data.None?)
      ==> o.response == Response(500, ErrorBody(InternalError))
    // Success is only ever reported after the platform accepted the product.
    ensures o.response.body.SuccessBody? ==> o.call.Some? && upstream.Replied? && IsOk(upstream.status)
  {
    match request
    case MalformedJson => Outcome(Response(500, ErrorBody(InternalError)), None)
    case JsonRequest(body) =>
      if body.product.None? || !Truthy(body.shop) then
        Outcome(Response(400, ErrorBody(Message(MissingInput))), None)
      else if !HasRequiredFields(body.product.value) then
        Outcome(Response(400, ErrorBody(Message(MissingFields))), None)
      else if !Truthy(token) then
        Outcome(Response(401, ErrorBody(Message(MissingToken))), None)
      else
        var call := UpstreamCall(ProductsUrl(body.shop.value), token.value, body.product.value);
        match upstream
        case NetworkError => Outcome(Response(500, ErrorBody(InternalError)), Some(call))
        case Replied(status, data) =>
          if data.None? then Outcome(Response(500, ErrorBody(InternalError)), Some(call))
          else if !IsOk(status) then
            var detail := if data.value.errors.Some? then ShopifyErrors(data.value.errors.value) else ShopifyData(data.value);
            Outcome(Response(status, ErrorBody(detail)), Some(call))
          else Outcome(Response(200, SuccessBody(data.value.product)), Some(call))
  }

  /** The input checks come before the token lookup and the call: a rejected body's response depends on nothing else. */
  lemma RejectionIgnoresTokenAndUpstream(request: Request, t1: Option<string>, t2: Option<string>, u1: UpstreamReply, u2: UpstreamReply)
    requires !WellFormed(request)
    ensures Post(request, t1, u1) == Post(request, t2, u2)
    ensures Post(request, t1, u1).response.status in {400, 500}
  {
  }

  /** The token check comes before the call: without a token the platform's behaviour cannot matter. */
  lemma NoTokenIgnoresUpstream(request: Request, u1: UpstreamReply, u2: UpstreamReply)
    requires WellFormed(request)
    ensures Post(request, None, u1) == Post(request, None, u2)
    ensures Post(request, None, u1).response.status == 401
  {
  }
}
