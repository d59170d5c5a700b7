/** The checkout link (`app/api/payments/checkout/route.ts`): a URL on the
    payment provider's hosted checkout for the configured product, carrying
    the caller's id and the address to return to. The environment values
    are inputs. */
module CheckoutRoute {
  import opened Basics
  import opened JsStrings
  import opened Store

  const CheckoutBase: string := "https://checkout.dodopayments.com/buy/"
  const DefaultBaseUrl: string := "http://localhost:3000"
  const NotConfigured: string := "Pro Plan ID not configured"

  /** The return address, percent-encoded as `encodeURIComponent` does. */
  function RedirectParam(baseUrl: Option<string>): string {
    EncodeUriComponent(OrDefault(baseUrl, DefaultBaseUrl) + "/dashboard?payment=success")
  }

  /** `POST`: 401 without a session or user id, 500 when the product id is
      not configured, otherwise the checkout URL. Nothing is stored. */
  function Post(payload: Option<Claims>, productId: Option<string>, baseUrl: Option<string>)
    : (r: Response<string>)
    ensures payload.None? || !Truthy(payload.value.userId) ==> r == Error(401, "Unauthorized")
    ensures payload.Some? && Truthy(payload.value.userId) && !Truthy(productId) ==>
              r == Error(500, NotConfigured)
    ensures r.Ok? <==> payload.Some? && Truthy(payload.value.userId) && Truthy(productId)
    ensures r.Ok? ==> r.body == CheckoutBase + productId.value + "?quantity=1&metadata_userId="
                                + payload.value.userId.value + "&redirect_url=" + RedirectParam(baseUrl)
  {
    if payload.None? || !Truthy(payload.value.userId) then Error(401, "Unauthorized")
    else if !Truthy(productId) then Error(500, NotConfigured)
    else
      Ok(CheckoutBase + productId.value + "?quantity=1&metadata_userId=" + payload.value.userId.value
         + "&redirect_url=" + RedirectParam(baseUrl))
  }

  /** The return address is a single query value: its encoding holds no
      '&', '=', '?', '/' or ':' and only unreserved characters or '%'
      escapes, while the product id and user id are inserted verbatim. */
  lemma RedirectIsOneValue(baseUrl: Option<string>)
    ensures var p := RedirectParam(baseUrl);
            forall i :: 0 <= i < |p| ==> p[i] !in "&=?/:" && (IsUnreserved(p[i]) || p[i] == '%')
  {
  }

  /** An unset or empty base URL falls back to the local development address. */
  lemma DefaultBase(baseUrl: Option<string>)
    requires !Truthy(baseUrl)
    ensures RedirectParam(baseUrl) == RedirectParam(Some(DefaultBaseUrl))
  {
  }
}
