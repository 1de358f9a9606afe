/**
 * The `/invoice` command after its permission and amount checks (index.js:237-265):
 * build the reference, create and share the invoice, remember which channel it
 * came from, and reply with the pay link or with an error.
 */
module InvoiceCommand {
  import opened Js
  import Reference
  import PayPal
  import opened Correlation
  import Webhook

  /** The command's final reply. */
  datatype Reply = Shared(itemName: string, amountUSD: string, payLink: Option<string>) | CouldNotCreate

  /**
   * One `/invoice` in channel `channelId` at time `now`.  The invoice carries
   * the encoded reference; only an invoice that was created, sent and read back
   * is remembered, under the id PayPal gave it.
   */
  method IssueInvoice(store: Store, guildId: Option<string>, channelId: string, invokerId: string,
                      itemName: string, amountUSD: string, now: nat,
                      tokenRes: PayPal.Response<PayPal.TokenBody>, createRes: PayPal.Response<PayPal.CreatedInvoice>,
                      sendRes: PayPal.Response<()>, getRes: PayPal.Response<PayPal.FullInvoice>)
    returns (calls: seq<PayPal.Call>, reply: Reply)
    requires guildId.Some? ==> Reference.Plain(guildId.value)
    requires Reference.Plain(channelId) && Reference.Plain(invokerId)
    requires store.Settled(now)
    modifies store
    ensures |calls| > 1 ==> calls[1].CreateInvoice?
                            && calls[1].draft.reference == Reference.Encode(guildId, channelId, invokerId)
                            && calls[1].draft.itemName == itemName && calls[1].draft.itemValue == amountUSD
    ensures reply.Shared? <==> |calls| == 4 && !getRes.body.Malformed?
    ensures reply.Shared? ==> tokenRes.ok && createRes.ok && createRes.body.Object? && sendRes.ok
    ensures reply.CouldNotCreate? ==>
              store.invoiceMap == old(store.invoiceMap) && store.recent == old(store.recent)
              && store.timers == old(store.timers)
    ensures reply.Shared? ==>
              var id := createRes.body.fields.id;
              && reply.itemName == itemName && reply.amountUSD == amountUSD
              && reply.payLink == (if getRes.body.Object? then PayPal.PayLink(getRes.body.fields) else None)
              && store.invoiceMap == old(store.invoiceMap)[id := channelId]
              && store.recent == Pruned(old(store.recent) + [RecentEntry(id, channelId, now)], now)
              && store.timers == old(store.timers) + [Expiry(now + RetentionMs, id)]
  {
    var reference := Reference.Encode(guildId, channelId, invokerId);
    var result;
    calls, result := PayPal.CreateAndShareInvoice(itemName, amountUSD, reference, now, tokenRes, createRes, sendRes, getRes);
    if result.Failure? {
      return calls, CouldNotCreate;
    }
    store.Remember(result.value.id, channelId, now);
    reply := Shared(itemName, amountUSD, result.value.payLink);
  }

  /**
   * From command to confirmation: an invoice issued in `channelId` whose "paid"
   * event comes back with the reference it was created with is announced in
   * `channelId` first, whatever the event's ids, whether or not the invoice
   * could be fetched, and however long after the command it is paid (the
   * timers due by then have fired first).
   */
  method IssueThenPaid(guildId: Option<string>, channelId: string, invokerId: string,
                       itemName: string, amountUSD: string, issuedAt: nat, paidAt: int,
                       tokenRes: PayPal.Response<PayPal.TokenBody>, createRes: PayPal.Response<PayPal.CreatedInvoice>,
                       sendRes: PayPal.Response<()>, getRes: PayPal.Response<PayPal.FullInvoice>,
                       ev: Webhook.Event, fetched: Option<Webhook.FetchedInvoice>, paidChannel: Option<string>,
                       outcome: string -> Webhook.SendOutcome)
    returns (reply: Reply, trace: seq<Webhook.Step>)
    requires guildId.Some? ==> Reference.Plain(guildId.value)
    requires Reference.Plain(channelId) && Reference.Plain(invokerId) && channelId != ""
    requires ev.eventType == Some(Webhook.PaidEventType)
    requires ev.reference == Some(Reference.Encode(guildId, channelId, invokerId))
    ensures |trace| >= 2 && trace[0] == Webhook.Acknowledge
    ensures trace[1] == Webhook.Attempt(channelId, Webhook.PaidMessage(ev), outcome(channelId))
  {
    var store := new Store();
    var calls;
    calls, reply := IssueInvoice(store, guildId, channelId, invokerId, itemName, amountUSD, issuedAt,
                                 tokenRes, createRes, sendRes, getRes);
    store.Tick(paidAt);
    Webhook.EncodedReferenceResolves(ev, guildId, channelId, invokerId, fetched, store.invoiceMap,
                                     store.recent, paidAt, paidChannel);
    ghost var ids := Webhook.NotifyIds(Webhook.Resolve(Reference.ParseChannelId, ev, fetched, store.invoiceMap,
                                                       store.recent, paidAt, paidChannel));
    Webhook.FirstAttemptAfterAcknowledge(ids, Webhook.PaidMessage(ev), outcome);
    trace := Webhook.HandleWebhook(store, Reference.ParseChannelId, ev, Success(true), fetched,
                                   paidChannel, paidAt, outcome);
  }
}
