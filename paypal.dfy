/**
 * paypal.js: the OAuth token request, the create -> send -> get sequence of
 * `createAndShareInvoice`, the selection of the payer link, and the decision of
 * `verifyWebhookSignature`.
 *
 * Every HTTP exchange is an input: its `ok` flag, the text `res.text()` yields
 * (`None` when that promise rejects) and the body `res.json()` yields.  A method
 * returns the requests it made, in order, and either its value or the error the
 * JavaScript function throws.
 */
module PayPal {
  import opened Js
  import ChannelToken

  const Currency := "USD"
  const PayRel := "pay"
  const VerificationSuccess := "SUCCESS"
  const InvoiceNumberPrefix := "INV-"
  const Terms := "Digital goods. No shipping."
  const Quantity := "1"

  /** What `await res.json()` gives: a rejection, `null`, or an object. */
  datatype Json<+T> = Malformed | Null | Object(fields: T)

  datatype Response<+T> = Response(ok: bool, text: Option<string>, body: Json<T>)

  datatype TokenBody = TokenBody(accessToken: Option<string>)
  datatype CreatedInvoice = CreatedInvoice(id: string)
  datatype Link = Link(rel: Option<string>, href: Option<string>)
  datatype FullInvoice = FullInvoice(links: Option<seq<Link>>, href: Option<string>)
  datatype VerifyBody = VerifyBody(verificationStatus: Option<string>)

  /**
   * What the functions throw: the three `new Error(...)` with the response text,
   * and the exception of reading a body that is not JSON (or `null` where an
   * object is dereferenced).
   */
  datatype Error = OAuthFailed(detail: string) | CreateFailed(detail: string) | SendFailed(detail: string) | BadBody

  /** The fields of the invoice that the create request posts. */
  datatype InvoiceDraft = InvoiceDraft(
    currencyCode: string, invoiceNumber: string, reference: string, note: string, terms: string,
    itemName: string, quantity: string, itemCurrency: string, itemValue: string)

  /** A request to PayPal; `bearer` is the access token the request carries. */
  datatype Call =
    | TokenRequest
    | CreateInvoice(bearer: Option<string>, draft: InvoiceDraft)
    | SendInvoice(bearer: Option<string>, id: string)
    | GetInvoice(bearer: Option<string>, id: string)
    | VerifySignature(bearer: Option<string>)

  datatype SharedInvoice = SharedInvoice(id: string, payLink: Option<string>)

  /** `await res.text().catch(() => '?')` */
  function FailureText<T>(res: Response<T>): string
  {
    if res.text.Some? then res.text.value else "?"
  }

  function DigitChar(d: nat): (c: char)
    requires d < 10
    ensures ChannelToken.IsDigit(c)
  {
    ('0' as int + d) as char
  }

  /** The decimal notation of `n`, as `${n}` writes it. */
  function DecimalString(n: nat): (r: string)
    ensures |r| > 0
    ensures forall i :: 0 <= i < |r| ==> ChannelToken.IsDigit(r[i])
  {
    if n < 10 then [DigitChar(n)] else DecimalString(n / 10) + [DigitChar(n % 10)]
  }

  /** `INV-${Date.now()}`: it never holds a channel token. */
  function InvoiceNumber(now: nat): (r: string)
    ensures |r| > |InvoiceNumberPrefix| && r[..|InvoiceNumberPrefix|] == InvoiceNumberPrefix
    ensures ChannelToken.Match(r) == None
  {
    var r := InvoiceNumberPrefix + DecimalString(now);
    ChannelToken.NoTokenWithoutC(r);
    r
  }

  /** The invoice that `createAndShareInvoice` posts at time `now` (paypal.js:36-53). */
  function NewInvoiceDraft(itemName: string, amountUSD: string, reference: string, now: nat): (d: InvoiceDraft)
    ensures d.currencyCode == Currency && d.itemCurrency == Currency
    ensures ChannelToken.Match(d.invoiceNumber) == None
    ensures d.reference == reference && d.itemValue == amountUSD
    ensures d.note == itemName && d.itemName == itemName
  {
    InvoiceDraft(Currency, InvoiceNumber(now), reference, itemName, Terms, itemName, Quantity, Currency, amountUSD)
  }

  /** `getAccessToken`: throws on a non-ok response, else yields `data.access_token`. */
  method GetAccessToken(res: Response<TokenBody>) returns (token: Result<Option<string>, Error>)
    ensures token.Success? <==> res.ok && res.body.Object?
    ensures !res.ok ==> token == Failure(OAuthFailed(FailureText(res)))
    ensures res.ok && !res.body.Object? ==> token == Failure(BadBody)
    ensures token.Success? ==> token.value == res.body.fields.accessToken
  {
    if !res.ok {
      return Failure(OAuthFailed(FailureText(res)));
    }
    match res.body
    case Object(data) =>
      token := Success(data.accessToken);
    case _ =>
      token := Failure(BadBody);
  }

  /** `full?.links || []` */
  function Links(full: FullInvoice): seq<Link>
  {
    if full.links.Some? then full.links.value else []
  }

  /** The index of the first link with `rel === 'pay'`. */
  function FirstPayLink(links: seq<Link>): (r: Option<nat>)
    ensures r.Some? ==> r.value < |links| && links[r.value].rel == Some(PayRel)
    ensures r.Some? ==> forall j :: 0 <= j < r.value ==> links[j].rel != Some(PayRel)
    ensures r.None? ==> forall j :: 0 <= j < |links| ==> links[j].rel != Some(PayRel)
  {
    if |links| == 0 then None
    else if links[0].rel == Some(PayRel) then Some(0)
    else match FirstPayLink(links[1..])
      case Some(i) => Some(i + 1)
      case None => None
  }

  /**
   * `(full?.links || []).find(l => l.rel === 'pay')?.href || full?.href || null`:
   * the href of the FIRST pay link if it is non-empty, otherwise the invoice's own
   * href if non-empty, otherwise `null`.  A later pay link is never consulted.
   */
  function PayLink(full: FullInvoice): (r: Option<string>)
    ensures r.Some? ==> r.value != ""
    ensures forall i :: 0 <= i < |Links(full)| && Links(full)[i].rel == Some(PayRel)
                        && (forall j :: 0 <= j < i ==> Links(full)[j].rel != Some(PayRel)) ==>
              r == (if Truthy(Links(full)[i].href) then Links(full)[i].href else OrNull(full.href))
    ensures (forall i :: 0 <= i < |Links(full)| ==> Links(full)[i].rel != Some(PayRel)) ==> r == OrNull(full.href)
  {
    var links := Links(full);
    var found := match FirstPayLink(links) case Some(i) => links[i].href case None => None;
    OrNull(Or(found, full.href))
  }

  /**
   * `createAndShareInvoice`: a token, then create, send and get, strictly in that
   * order.  A non-ok token, create or send response throws before any later
   * request; the get response's `ok` is never looked at.
   */
  method CreateAndShareInvoice(
    itemName: string, amountUSD: string, reference: string, now: nat,
    tokenRes: Response<TokenBody>, createRes: Response<CreatedInvoice>,
    sendRes: Response<()>, getRes: Response<FullInvoice>)
    returns (calls: seq<Call>, result: Result<SharedInvoice, Error>)
    ensures 1 <= |calls| <= 4 && calls[0] == TokenRequest
    // no invoice request without a token
    ensures |calls| > 1 <==> tokenRes.ok && tokenRes.body.Object?
    ensures !tokenRes.ok ==> result == Failure(OAuthFailed(FailureText(tokenRes)))
    ensures |calls| > 1 ==>
              calls[1] == CreateInvoice(tokenRes.body.fields.accessToken, NewInvoiceDraft(itemName, amountUSD, reference, now))
    // send only after an ok create, with the id the create returned
    ensures |calls| > 2 <==> |calls| > 1 && createRes.ok && createRes.body.Object?
    ensures |calls| > 1 && !createRes.ok ==> result == Failure(CreateFailed(FailureText(createRes)))
    ensures |calls| > 2 ==> calls[2] == SendInvoice(tokenRes.body.fields.accessToken, createRes.body.fields.id)
    // get only after an ok send, with the same id
    ensures |calls| > 3 <==> |calls| > 2 && sendRes.ok
    ensures |calls| > 2 && !sendRes.ok ==> result == Failure(SendFailed(FailureText(sendRes)))
    ensures |calls| > 3 ==> calls[3] == GetInvoice(tokenRes.body.fields.accessToken, createRes.body.fields.id)
    // success whatever getRes.ok is, as long as its body reads
    ensures result.Success? <==> |calls| == 4 && !getRes.body.Malformed?
    ensures result.Success? ==> result.value.id == createRes.body.fields.id
    ensures result.Success? ==>
              result.value.payLink == (if getRes.body.Object? then PayLink(getRes.body.fields) else None)
  {
    calls := [TokenRequest];
    var token := GetAccessToken(tokenRes);
    if token.Failure? {
      return calls, Failure(token.error);
    }
    var bearer := token.value;

    calls := calls + [CreateInvoice(bearer, NewInvoiceDraft(itemName, amountUSD, reference, now))];
    if !createRes.ok {
      return calls, Failure(CreateFailed(FailureText(createRes)));
    }
    if !createRes.body.Object? {
      return calls, Failure(BadBody);
    }
    var id := createRes.body.fields.id;

    calls := calls + [SendInvoice(bearer, id)];
    if !sendRes.ok {
      return calls, Failure(SendFailed(FailureText(sendRes)));
    }

    calls := calls + [GetInvoice(bearer, id)];
    match getRes.body
    case Malformed =>
      result := Failure(BadBody);
    case Null =>
      result := Success(SharedInvoice(id, None));
    case Object(full) =>
      result := Success(SharedInvoice(id, PayLink(full)));
  }

  /** `verify?.verification_status === 'SUCCESS'`; an unreadable body counts as `{}`. */
  predicate IsVerified(body: Json<VerifyBody>)
  {
    body.Object? && body.fields.verificationStatus == Some(VerificationSuccess)
  }

  /**
   * `verifyWebhookSignature`: a token, then the verification request; the answer
   * is true exactly when PayPal reports "SUCCESS".  Of the responses, only the
   * token response can make it throw.
   */
  method VerifyWebhookSignature(tokenRes: Response<TokenBody>, verifyBody: Json<VerifyBody>)
    returns (calls: seq<Call>, result: Result<bool, Error>)
    ensures result.Success? <==> tokenRes.ok && tokenRes.body.Object?
    ensures !tokenRes.ok ==> result == Failure(OAuthFailed(FailureText(tokenRes)))
    ensures result.Success? ==> (result.value <==> verifyBody == Object(VerifyBody(Some(VerificationSuccess))))
    ensures result.Success? ==> calls == [TokenRequest, VerifySignature(tokenRes.body.fields.accessToken)]
    ensures result.Failure? ==> calls == [TokenRequest]
  {
    calls := [TokenRequest];
    var token := GetAccessToken(tokenRes);
    if token.Failure? {
      return calls, Failure(token.error);
    }
    calls := calls + [VerifySignature(token.value)];
    result := Success(IsVerified(verifyBody));
  }
}
