/**
 * The `/paypal/webhook` handler of index.js:278-392: acknowledge, and for a
 * verified "invoice paid" event find the channels to tell, in priority order
 * (the event's reference, or failing that the invoice fetched by id; the
 * invoice map; the recent queue; the static fallback), and attempt one send to
 * each.
 *
 * The resolution is pure: it takes the store's map and queue as values, the
 * JSON extractor as the parameter `parse`, and the answer of `getInvoiceById`
 * as the input `fetched` (`None` when that call throws).  The handler method
 * runs it against a `Correlation.Store`, whose queue it may prune.
 */
module Webhook {
  import opened Js
  import ChannelToken
  import Reference
  import PayPal
  import opened Correlation

  const PaidEventType := "INVOICING.INVOICE.PAID"
  const UnknownInvoice := "(unknown)"
  /** PROOFS_CHANNEL_ID, index.js:25. */
  const ProofsChannelId := "1406121226367275008"
  const PaidPrefix := "✅ **Paid** — Invoice has been paid"
  const PaidText := PaidPrefix + "."

  /**
   * The fields of the webhook body the handler reads.  Optional chaining makes a
   * missing object on the path read as `undefined`, so every field is an option.
   */
  datatype Event = Event(
    eventType: Option<string>,          // ev.event_type
    resourceId: Option<string>,         // ev.resource.id
    resourceInvoiceId: Option<string>,  // ev.resource.invoice_id
    invoiceNumber: Option<string>,      // ev.resource.detail.invoice_number
    reference: Option<string>,          // ev.resource.detail.reference
    amountValue: Option<string>,        // ev.resource.amount.value
    amountCurrency: Option<string>)     // ev.resource.amount.currency_code

  /** `detail.reference` and `detail.invoice_number` of an invoice fetched by id. */
  datatype FetchedInvoice = FetchedInvoice(reference: Option<string>, invoiceNumber: Option<string>)

  /** `JSON.parse(s)?.channelId`, `None` when `s` does not parse or has no such field. */
  type ChannelIdParser = string -> Option<string>

  /** The channel ids each strategy produced, and the static fallback. */
  datatype Candidates = Candidates(fromRef: Option<string>, fromMap: Option<string>, fromRecent: Option<string>, fallback: string)

  datatype SendOutcome = Posted | ChannelNotFound | SendFailed

  /** What the handler does, in order: answer 200, or try to post in a channel. */
  datatype Step = Acknowledge | Attempt(channelId: string, message: string, outcome: SendOutcome)

  /** The map key, `(resource.id || resource.invoice_id || '').toString()`. */
  function MapKey(ev: Event): (r: string)
    ensures r != "" <==> Truthy(ev.resourceId) || Truthy(ev.resourceInvoiceId)
    ensures Truthy(ev.resourceId) ==> r == ev.resourceId.value
    ensures r != "" ==> Some(r) == ev.resourceId || Some(r) == ev.resourceInvoiceId
  {
    if Truthy(ev.resourceId) then ev.resourceId.value
    else if Truthy(ev.resourceInvoiceId) then ev.resourceInvoiceId.value
    else ""
  }

  /**
   * The invoice id the handler reports and fetches by:
   * `resource.id || resource.invoice_id || detail.invoice_number || '(unknown)'`.
   * It agrees with the map key whenever that is non-empty; otherwise it falls on
   * to the invoice number.
   */
  function DisplayInvoiceId(ev: Event): (r: string)
    ensures r != ""
    ensures MapKey(ev) != "" ==> r == MapKey(ev)
    ensures MapKey(ev) == "" ==> r == (if Truthy(ev.invoiceNumber) then ev.invoiceNumber.value else UnknownInvoice)
  {
    var id := Or(ev.resourceId, Or(ev.resourceInvoiceId, ev.invoiceNumber));
    if Truthy(id) then id.value else UnknownInvoice
  }

  /** `if (parsed?.channelId) channelFromRef = parsed.channelId` */
  function JsonChannel(parse: ChannelIdParser, s: string): Option<string>
  {
    OrNull(parse(s))
  }

  /**
   * The channel named by a reference text: the JSON `channelId` if there is a
   * truthy one, and only otherwise the leftmost `ch_` token.
   */
  function ChannelFromText(parse: ChannelIdParser, s: string): (r: Option<string>)
    ensures Truthy(parse(s)) ==> r == parse(s)
    ensures !Truthy(parse(s)) ==> r == ChannelToken.Match(s)
    ensures r.Some? ==> r.value != ""
  {
    ChannelToken.MatchIsLeftmost(s);
    var fromJson := JsonChannel(parse, s);
    if fromJson.Some? then fromJson else ChannelToken.Match(s)
  }

  /** `refRaw = detail.reference ?? detail.invoice_number ?? null` */
  function RawReference(ev: Event): Option<string>
  {
    Coalesce(ev.reference, ev.invoiceNumber)
  }

  /** Step 1: the channel named by the event's own reference text. */
  function ChannelFromEvent(parse: ChannelIdParser, ev: Event): (r: Option<string>)
    ensures ev.reference.Some? ==> r == ChannelFromText(parse, ev.reference.value)
    ensures ev.reference.None? && ev.invoiceNumber.Some? ==> r == ChannelFromText(parse, ev.invoiceNumber.value)
    ensures ev.reference.None? && ev.invoiceNumber.None? ==> r == None
    ensures r.Some? ==> r.value != ""
  {
    match RawReference(ev)
    case Some(s) => ChannelFromText(parse, s)
    case None => None
  }

  /**
   * Step 3 on a fetched invoice: JSON only on `detail.reference`, the `ch_` token
   * only on `detail.invoice_number`; empty fields count as absent.
   */
  function ChannelFromFetched(parse: ChannelIdParser, inv: FetchedInvoice): (r: Option<string>)
    ensures Truthy(inv.reference) && Truthy(parse(inv.reference.value)) ==> r == parse(inv.reference.value)
    ensures !(Truthy(inv.reference) && Truthy(parse(inv.reference.value))) ==>
              r == (if Truthy(inv.invoiceNumber) then ChannelToken.Match(inv.invoiceNumber.value) else None)
    ensures r.Some? ==> r.value != ""
  {
    var fromRef := if Truthy(inv.reference) then JsonChannel(parse, inv.reference.value) else None;
    if fromRef.Some? then fromRef
    else if Truthy(inv.invoiceNumber) then ChannelToken.Match(inv.invoiceNumber.value)
    else None
  }

  /**
   * `channelFromRef` after steps 1 and 3.  The fetched invoice is consulted only
   * when the event's reference named no channel and the invoice id is known; a
   * failed fetch leaves step 1's answer.
   */
  function ChannelFromRef(parse: ChannelIdParser, ev: Event, fetched: Option<FetchedInvoice>): (r: Option<string>)
    ensures ChannelFromEvent(parse, ev).Some? ==> r == ChannelFromEvent(parse, ev)
    ensures DisplayInvoiceId(ev) == UnknownInvoice ==> r == ChannelFromEvent(parse, ev)
    ensures fetched.None? ==> r == ChannelFromEvent(parse, ev)
    ensures ChannelFromEvent(parse, ev).None? && DisplayInvoiceId(ev) != UnknownInvoice && fetched.Some? ==>
              r == ChannelFromFetched(parse, fetched.value)
    ensures r.Some? ==> r.value != ""
  {
    var fromEvent := ChannelFromEvent(parse, ev);
    if fromEvent.None? && DisplayInvoiceId(ev) != UnknownInvoice && fetched.Some? then
      ChannelFromFetched(parse, fetched.value)
    else fromEvent
  }

  /** `recentInvoices[recentInvoices.length - 1]?.channelId || null` */
  function LastChannel(recent: seq<RecentEntry>): (r: Option<string>)
    ensures r.Some? <==> |recent| > 0 && recent[|recent| - 1].channelId != ""
    ensures r.Some? ==> r.value == recent[|recent| - 1].channelId
  {
    if |recent| == 0 then None else OrNull(Some(recent[|recent| - 1].channelId))
  }

  /** `PAID_CHANNEL_ID || PROOFS_CHANNEL_ID || null`, with PAID_CHANNEL_ID from the environment. */
  function FallbackChannel(paidChannel: Option<string>): (r: string)
    ensures r != ""
  {
    if Truthy(paidChannel) then paidChannel.value else ProofsChannelId
  }

  /**
   * Every strategy of the handler, given the map and the queue as they are when
   * the event arrives.  The recent queue is pruned and consulted only when
   * neither the reference nor the map resolved.
   */
  function Resolve(parse: ChannelIdParser, ev: Event, fetched: Option<FetchedInvoice>,
                   invoiceMap: map<string, string>, recent: seq<RecentEntry>, now: int,
                   paidChannel: Option<string>): (r: Candidates)
    ensures r.fromRef == ChannelFromRef(parse, ev, fetched)
    ensures r.fallback == FallbackChannel(paidChannel) && r.fallback != ""
    ensures r.fromRef.Some? ==> r.fromRef.value != ""
    ensures r.fromMap.Some? <==> MapKey(ev) in invoiceMap && invoiceMap[MapKey(ev)] != ""
    ensures r.fromMap.Some? ==> r.fromMap.value == invoiceMap[MapKey(ev)]
    ensures r.fromRecent.Some? ==> r.fromRef.None? && r.fromMap.None? && r.fromRecent.value != ""
  {
    var fromRef := ChannelFromRef(parse, ev, fetched);
    var fromMap := Get(invoiceMap, MapKey(ev));
    var fromRecent := if fromRef.None? && fromMap.None? then LastChannel(Pruned(recent, now)) else None;
    Candidates(fromRef, fromMap, fromRecent, FallbackChannel(paidChannel))
  }

  /** `.filter(Boolean)` */
  function Present(xs: seq<Option<string>>): (r: seq<string>)
    ensures |r| <= |xs|
    ensures forall x :: x in r <==> Some(x) in xs && x != ""
  {
    if xs == [] then []
    else
      var rest := Present(xs[1..]);
      assert forall o :: o in xs <==> o == xs[0] || o in xs[1..];
      if Truthy(xs[0]) then [xs[0].value] + rest else rest
  }

  /** `[...new Set(xs)]`: each value once, where it first occurs. */
  function Distinct(xs: seq<string>): (r: seq<string>)
    ensures |r| <= |xs|
    ensures forall x :: x in r <==> x in xs
    ensures forall i, j :: 0 <= i < j < |r| ==> r[i] != r[j]
  {
    if xs == [] then []
    else
      var init := xs[..|xs| - 1];
      var last := xs[|xs| - 1];
      assert xs == init + [last];
      var seen := Distinct(init);
      if last in init then seen else seen + [last]
  }

  /** The index of the first occurrence of `x` in `xs`. */
  function FirstIndex<T(==)>(xs: seq<T>, x: T): (k: nat)
    requires x in xs
    ensures k < |xs| && xs[k] == x && x !in xs[..k]
  {
    if xs[0] == x then 0
    else
      var k := 1 + FirstIndex(xs[1..], x);
      assert xs[..k] == [xs[0]] + xs[1..][..k - 1];
      k
  }

  lemma FirstIndexOfPrefix(init: seq<string>, last: string, x: string)
    requires x in init
    ensures FirstIndex(init + [last], x) == FirstIndex(init, x)
  {
    var xs := init + [last];
    var k, k' := FirstIndex(xs, x), FirstIndex(init, x);
    forall j | 0 <= j < k
      ensures xs[j] != x
    {
      assert xs[..k][j] == xs[j];
    }
    forall j | 0 <= j < k'
      ensures init[j] != x
    {
      assert init[..k'][j] == init[j];
    }
    assert xs[k'] == init[k'] == x;
    assert k <= k';
    assert init[k] == xs[k];
  }

  /** Distinct keeps first-occurrence order. */
  lemma {:induction false} DistinctKeepsFirstOccurrenceOrder(xs: seq<string>)
    ensures forall i, j :: 0 <= i < j < |Distinct(xs)| ==>
              FirstIndex(xs, Distinct(xs)[i]) < FirstIndex(xs, Distinct(xs)[j])
  {
    if xs != [] {
      var init := xs[..|xs| - 1];
      var last := xs[|xs| - 1];
      assert xs == init + [last];
      DistinctKeepsFirstOccurrenceOrder(init);
      var seen := Distinct(init);
      var r := Distinct(xs);
      forall i, j | 0 <= i < j < |r|
        ensures FirstIndex(xs, r[i]) < FirstIndex(xs, r[j])
      {
        assert r[i] == seen[i] && r[i] in init;
        FirstIndexOfPrefix(init, last, r[i]);
        if j < |seen| {
          assert r[j] == seen[j] && r[j] in init;
          FirstIndexOfPrefix(init, last, r[j]);
        } else {
          assert r[j] == last && last !in init;
          assert FirstIndex(xs, last) == |init|;
        }
      }
    }
  }

  /** `.filter(Boolean)` keeps the values it keeps in the order of their first slots. */
  lemma {:induction false} PresentKeepsOrder(xs: seq<Option<string>>, a: string, b: string)
    requires a in Present(xs) && b in Present(xs)
    ensures FirstIndex(Present(xs), a) < FirstIndex(Present(xs), b)
            <==> FirstIndex(xs, Some(a)) < FirstIndex(xs, Some(b))
  {
    var r, rest := Present(xs), Present(xs[1..]);
    if xs[0] != Some(a) && xs[0] != Some(b) {
      assert a in rest && b in rest;
      PresentKeepsOrder(xs[1..], a, b);
      if Truthy(xs[0]) {
        assert r[1..] == rest;
      }
    }
  }

  /** Every value of `r` has a slot in `xs`, and `r` lists them in the order of their first slots. */
  ghost predicate InFirstSlotOrder(r: seq<string>, xs: seq<Option<string>>)
  {
    forall i, j :: 0 <= i < j < |r| ==>
      Some(r[i]) in xs && Some(r[j]) in xs && FirstIndex(xs, Some(r[i])) < FirstIndex(xs, Some(r[j]))
  }

  /**
   * Filtering and then deduplicating lists each kept value in the order of its
   * first slot in the input.
   */
  lemma FilteredDistinctInOrder(xs: seq<Option<string>>)
    ensures InFirstSlotOrder(Distinct(Present(xs)), xs)
  {
    var p := Present(xs);
    var d := Distinct(p);
    DistinctKeepsFirstOccurrenceOrder(p);
    forall i, j | 0 <= i < j < |d|
      ensures Some(d[i]) in xs && Some(d[j]) in xs && FirstIndex(xs, Some(d[i])) < FirstIndex(xs, Some(d[j]))
    {
      assert d[i] in p && d[j] in p;
      PresentKeepsOrder(xs, d[i], d[j]);
    }
  }

  /** The first value always survives `Distinct`, in first place. */
  lemma DistinctKeepsHead(xs: seq<string>)
    requires |xs| > 0
    ensures |Distinct(xs)| > 0 && Distinct(xs)[0] == xs[0]
  {
    DistinctKeepsFirstOccurrenceOrder(xs);
    assert FirstIndex(xs, xs[0]) == 0;
  }

  function CandidateList(c: Candidates): seq<Option<string>>
  {
    [c.fromRef, c.fromMap, c.fromRecent, Some(c.fallback)]
  }

  /**
   * `notifyIds`: the candidates that are set, each once, in priority order.  With
   * a non-empty fallback it holds one to four channels, so the handler's
   * "no channels" branch never runs.
   */
  function NotifyIds(c: Candidates): (r: seq<string>)
    requires c.fallback != ""
    ensures 1 <= |r| <= 4
    ensures forall i, j :: 0 <= i < j < |r| ==> r[i] != r[j]
    ensures forall x :: x in r <==> x == c.fallback || (x != "" && (Some(x) == c.fromRef || Some(x) == c.fromMap || Some(x) == c.fromRecent))
    ensures Truthy(c.fromRef) ==> r[0] == c.fromRef.value
    // in priority order: reference, map, recent, fallback, each where it first occurs
    ensures InFirstSlotOrder(r, CandidateList(c))
  {
    NotifyListFacts(c);
    Distinct(Present(CandidateList(c)))
  }

  /** The facts `NotifyIds` promises, about the deduplicated, filtered candidate list. */
  lemma NotifyListFacts(c: Candidates)
    requires c.fallback != ""
    ensures var r := Distinct(Present(CandidateList(c)));
            && 1 <= |r| <= 4
            && (forall i, j :: 0 <= i < j < |r| ==> r[i] != r[j])
            && (forall x :: x in r <==> x == c.fallback || (x != "" && (Some(x) == c.fromRef || Some(x) == c.fromMap || Some(x) == c.fromRecent)))
            && (Truthy(c.fromRef) ==> r[0] == c.fromRef.value)
            && InFirstSlotOrder(r, CandidateList(c))
  {
    var present := Present(CandidateList(c));
    assert c.fallback in present;
    DistinctKeepsHead(present);
    FilteredDistinctInOrder(CandidateList(c));
  }

  /** `${amount.value} ${amount.currency_code}` when both are truthy. */
  function AmountText(ev: Event): Option<string>
  {
    if Truthy(ev.amountValue) && Truthy(ev.amountCurrency) then
      Some(ev.amountValue.value + " " + ev.amountCurrency.value)
    else None
  }

  /** The confirmation text; every variant starts with the same words. */
  function PaidMessage(ev: Event): (r: string)
    ensures PaidPrefix <= r
  {
    match AmountText(ev)
    case Some(amount) =>
      var r := PaidPrefix + (" (**" + amount + "**).");
      assert r[..|PaidPrefix|] == PaidPrefix;
      r
    case None =>
      assert PaidText[..|PaidPrefix|] == PaidPrefix;
      PaidText
  }

  /** The confirmation shows the amount exactly when value and currency are both present. */
  lemma PaidMessageShowsAmount(ev: Event)
    ensures Truthy(ev.amountValue) && Truthy(ev.amountCurrency) ==>
              Contains(PaidMessage(ev), ev.amountValue.value + " " + ev.amountCurrency.value)
    ensures !(Truthy(ev.amountValue) && Truthy(ev.amountCurrency)) ==> PaidMessage(ev) == PaidText
  {
    if Truthy(ev.amountValue) && Truthy(ev.amountCurrency) {
      var amount := ev.amountValue.value + " " + ev.amountCurrency.value;
      var head := PaidPrefix + " (**";
      var msg := PaidMessage(ev);
      assert msg == head + amount + "**).";
      assert msg[|head|..] == amount + "**).";
      assert amount <= msg[|head|..];
    }
  }

  /** Only a verified "invoice paid" event leads to any send. */
  predicate ShouldNotify(verification: Result<bool, PayPal.Error>, ev: Event)
  {
    verification == Success(true) && ev.eventType == Some(PaidEventType)
  }

  /**
   * The attempts the send loop makes: one per channel, in list order, each with
   * its own outcome.
   */
  function Attempts(ids: seq<string>, message: string, outcome: string -> SendOutcome): (r: seq<Step>)
    ensures |r| == |ids|
    ensures forall i :: 0 <= i < |ids| ==> r[i] == Attempt(ids[i], message, outcome(ids[i]))
  {
    if ids == [] then []
    else Attempts(ids[..|ids| - 1], message, outcome) + [Attempt(ids[|ids| - 1], message, outcome(ids[|ids| - 1]))]
  }

  /** The first channel of the list is the first one tried, right after the acknowledgement. */
  lemma FirstAttemptAfterAcknowledge(ids: seq<string>, message: string, outcome: string -> SendOutcome)
    requires |ids| > 0
    ensures |[Acknowledge] + Attempts(ids, message, outcome)| >= 2
    ensures ([Acknowledge] + Attempts(ids, message, outcome))[1] == Attempt(ids[0], message, outcome(ids[0]))
  {
  }

  /**
   * The `for (const id of notifyIds)` loop: a failed or impossible send is
   * caught and the loop goes on, so every channel gets its attempt.
   */
  method Dispatch(ids: seq<string>, message: string, outcome: string -> SendOutcome) returns (log: seq<Step>)
    ensures log == Attempts(ids, message, outcome)
  {
    log := [];
    for i := 0 to |ids|
      invariant log == Attempts(ids[..i], message, outcome)
    {
      assert ids[..i + 1][..i] == ids[..i];
      log := log + [Attempt(ids[i], message, outcome(ids[i]))];
    }
    assert ids[..|ids|] == ids;
  }

  /**
   * Steps 1 to 4 of the handler against the store: the candidates are the
   * ones `Resolve` gives for the map and queue as they were on arrival, and the
   * queue is pruned exactly when the recent fallback is consulted.
   */
  method ResolveChannels(store: Store, parse: ChannelIdParser, ev: Event, fetched: Option<FetchedInvoice>,
                         paidChannel: Option<string>, now: int)
    returns (c: Candidates)
    requires store.Settled(now)
    modifies store`recent
    ensures c == Resolve(parse, ev, fetched, store.invoiceMap, old(store.recent), now, paidChannel)
    ensures store.recent == if c.fromRef.None? && c.fromMap.None? then Pruned(old(store.recent), now) else old(store.recent)
  {
    var fromRef := ChannelFromEvent(parse, ev);
    var fromMap := store.Lookup(MapKey(ev));
    if fromRef.None? && DisplayInvoiceId(ev) != UnknownInvoice && fetched.Some? {
      fromRef := ChannelFromFetched(parse, fetched.value);
    }
    assert fromRef == ChannelFromRef(parse, ev, fetched);

    var fromRecent := None;
    if fromRef.None? && fromMap.None? {
      store.PruneRecent(now);
      fromRecent := LastChannel(store.recent);
    }
    c := Candidates(fromRef, fromMap, fromRecent, FallbackChannel(paidChannel));
  }

  /**
   * The whole handler.  `verification` is what `verifyWebhookSignature` returned
   * or threw (a throw is caught at index.js:388 and answered with 200 too);
   * `outcome` says how the send to each channel ends.  Every deletion timer due
   * by `now` has already fired, as the event loop guarantees.
   */
  method HandleWebhook(store: Store, parse: ChannelIdParser, ev: Event,
                       verification: Result<bool, PayPal.Error>, fetched: Option<FetchedInvoice>,
                       paidChannel: Option<string>, now: int, outcome: string -> SendOutcome)
    returns (trace: seq<Step>)
    requires store.Settled(now)
    modifies store`recent
    ensures !ShouldNotify(verification, ev) ==> trace == [Acknowledge] && store.recent == old(store.recent)
    ensures ShouldNotify(verification, ev) ==>
              trace == [Acknowledge] + Attempts(NotifyIds(Resolve(parse, ev, fetched, store.invoiceMap, old(store.recent), now, paidChannel)),
                                                PaidMessage(ev), outcome)
    ensures ShouldNotify(verification, ev) ==>
              var c := Resolve(parse, ev, fetched, store.invoiceMap, old(store.recent), now, paidChannel);
              store.recent == if c.fromRef.None? && c.fromMap.None? then Pruned(old(store.recent), now) else old(store.recent)
  {
    trace := [Acknowledge];
    if !ShouldNotify(verification, ev) {
      return;
    }
    var c := ResolveChannels(store, parse, ev, fetched, paidChannel, now);
    var ids := NotifyIds(c);
    var log := Dispatch(ids, PaidMessage(ev), outcome);
    trace := trace + log;
  }

  /**
   * A reference written by `/invoice` resolves to its channel at step 1: the
   * channel is notified first and the recent queue is not consulted.
   */
  lemma EncodedReferenceResolves(ev: Event, guildId: Option<string>, channelId: string, invokerId: string,
                                 fetched: Option<FetchedInvoice>, invoiceMap: map<string, string>,
                                 recent: seq<RecentEntry>, now: int, paidChannel: Option<string>)
    requires guildId.Some? ==> Reference.Plain(guildId.value)
    requires Reference.Plain(channelId) && Reference.Plain(invokerId) && channelId != ""
    requires ev.reference == Some(Reference.Encode(guildId, channelId, invokerId))
    ensures var c := Resolve(Reference.ParseChannelId, ev, fetched, invoiceMap, recent, now, paidChannel);
            && c.fromRef == Some(channelId) && c.fromRecent == None
            && NotifyIds(c)[0] == channelId
  {
    Reference.EncodeRoundTrip(guildId, channelId, invokerId);
  }

  /**
   * `??` rather than `||`: an empty reference does not fall through to the
   * invoice number, even one that carries a channel token.
   */
  lemma EmptyReferenceShadowsInvoiceNumber(ev: Event)
    requires ev.reference == Some("")
    ensures ChannelFromEvent(Reference.ParseChannelId, ev) == None
  {
    assert ChannelToken.FindFrom("", 0) == None;
  }

  /**
   * On a fetched invoice a bare `ch_` token in the reference is never searched
   * for, although the same text in the event's own reference resolves.
   */
  lemma FetchedReferenceTokenIgnored(s: string, ev: Event)
    requires ChannelToken.Match(s).Some? && Reference.ParseChannelId(s) == None
    requires ev.reference == Some(s)
    ensures ChannelFromFetched(Reference.ParseChannelId, FetchedInvoice(Some(s), None)) == None
    ensures ChannelFromEvent(Reference.ParseChannelId, ev) == ChannelToken.Match(s)
  {
  }

  /**
   * Step 3 as index.js runs it: `getInvoiceById` is imported from paypal.js but
   * not exported there, so the call throws, the error is swallowed, and the
   * fetched invoice never contributes.
   */
  function ChannelFromRefAsDeployed(parse: ChannelIdParser, ev: Event): (r: Option<string>)
    ensures r == ChannelFromEvent(parse, ev)
  {
    ChannelFromRef(parse, ev, None)
  }

  /**
   * An invoice paid with an event that carries neither reference nor invoice
   * number, whose fetched copy carries the reference `/invoice` wrote: the
   * intended step 3 finds the channel, the deployed one does not.
   */
  lemma DeployedFetchIsDead(channelId: string, invokerId: string)
    requires Reference.Plain(channelId) && Reference.Plain(invokerId) && channelId != ""
    ensures var ev := Event(Some(PaidEventType), Some("INV2-TEST"), None, None, None, None, None);
            var inv := FetchedInvoice(Some(Reference.Encode(None, channelId, invokerId)), None);
            && ChannelFromRef(Reference.ParseChannelId, ev, Some(inv)) == Some(channelId)
            && ChannelFromRefAsDeployed(Reference.ParseChannelId, ev) == None
  {
    FetchedReferenceRecoversChannel(Event(Some(PaidEventType), Some("INV2-TEST"), None, None, None, None, None),
                                    None, channelId, invokerId, None);
  }

  /**
   * With a working fetch, an invoice whose event named no channel is traced back
   * through the reference stored on the invoice itself.
   */
  lemma FetchedReferenceRecoversChannel(ev: Event, guildId: Option<string>, channelId: string, invokerId: string,
                                        invoiceNumber: Option<string>)
    requires guildId.Some? ==> Reference.Plain(guildId.value)
    requires Reference.Plain(channelId) && Reference.Plain(invokerId) && channelId != ""
    requires ChannelFromEvent(Reference.ParseChannelId, ev) == None && DisplayInvoiceId(ev) != UnknownInvoice
    ensures ChannelFromRef(Reference.ParseChannelId, ev,
                           Some(FetchedInvoice(Some(Reference.Encode(guildId, channelId, invokerId)), invoiceNumber)))
            == Some(channelId)
  {
    Reference.EncodeRoundTrip(guildId, channelId, invokerId);
  }

  /**
   * The recent queue is a last resort: it yields only when the reference and the
   * map both failed, and then the newest entry left after pruning, which on a
   * chronological queue is no older than 20 minutes.
   */
  lemma RecentIsLastResort(parse: ChannelIdParser, ev: Event, fetched: Option<FetchedInvoice>,
                           invoiceMap: map<string, string>, recent: seq<RecentEntry>, now: int,
                           paidChannel: Option<string>)
    ensures var c := Resolve(parse, ev, fetched, invoiceMap, recent, now, paidChannel);
            c.fromRecent.Some? ==>
              && c.fromRef.None? && c.fromMap.None?
              && |Pruned(recent, now)| > 0
              && c.fromRecent.value == Pruned(recent, now)[|Pruned(recent, now)| - 1].channelId
              && (Chronological(recent) ==> now - RecentWindowMs <= Pruned(recent, now)[|Pruned(recent, now)| - 1].ts)
  {
    var c := Resolve(parse, ev, fetched, invoiceMap, recent, now, paidChannel);
    var kept := Pruned(recent, now);
    if c.fromRecent.Some? {
      assert c.fromRecent == LastChannel(kept);
      if Chronological(recent) {
        PrunedWithinWindow(recent, now);
      }
    }
  }

  /**
   * On a chronological queue the recent fallback yields exactly when the
   * reference and the map both failed and the newest entry is inside the
   * 20-minute window with a non-empty channel; it is then that entry's channel.
   */
  lemma RecentFallbackYields(parse: ChannelIdParser, ev: Event, fetched: Option<FetchedInvoice>,
                             invoiceMap: map<string, string>, recent: seq<RecentEntry>, now: int,
                             paidChannel: Option<string>)
    requires Chronological(recent)
    ensures var c := Resolve(parse, ev, fetched, invoiceMap, recent, now, paidChannel);
            c.fromRecent.Some? <==>
              && c.fromRef.None? && c.fromMap.None? && |recent| > 0
              && !Expired(recent[|recent| - 1], now) && recent[|recent| - 1].channelId != ""
    ensures var c := Resolve(parse, ev, fetched, invoiceMap, recent, now, paidChannel);
            c.fromRecent.Some? ==> c.fromRecent.value == recent[|recent| - 1].channelId
  {
    var kept := Pruned(recent, now);
    PrunedMeaning(recent, now);
    if |recent| > 0 && !Expired(recent[|recent| - 1], now) {
      PrunedKeepsNewest(recent, now);
    } else if |recent| > 0 {
      // the newest entry has expired, so every entry has, and nothing is kept
      forall i | 0 <= i < |recent|
        ensures Expired(recent[i], now)
      {
        assert recent[i].ts <= recent[|recent| - 1].ts;
      }
    }
    if |kept| > 0 {
      assert kept[|kept| - 1] == recent[|recent| - 1];
    }
  }

  /**
   * With no reference, no map entry and an empty window, only the static
   * fallback is notified.
   */
  lemma OnlyFallbackWhenNothingResolves(parse: ChannelIdParser, ev: Event, fetched: Option<FetchedInvoice>,
                                        invoiceMap: map<string, string>, recent: seq<RecentEntry>, now: int,
                                        paidChannel: Option<string>)
    requires ChannelFromRef(parse, ev, fetched) == None
    requires Get(invoiceMap, MapKey(ev)) == None
    requires Pruned(recent, now) == []
    ensures NotifyIds(Resolve(parse, ev, fetched, invoiceMap, recent, now, paidChannel)) == [FallbackChannel(paidChannel)]
  {
    var c := Resolve(parse, ev, fetched, invoiceMap, recent, now, paidChannel);
    var r := NotifyIds(c);
  }

  lemma PresentMapAndFallback(a: string, b: string)
    requires a != "" && b != ""
    ensures Present([None, Some(a), None, Some(b)]) == [a, b]
  {
    var l := [None, Some(a), None, Some(b)];
    assert l[1..] == [Some(a), None, Some(b)];
    assert l[1..][1..] == [None, Some(b)];
    assert l[1..][1..][1..] == [Some(b)];
    assert [Some(b)][1..] == [];
    assert Present([Some(b)]) == [b];
    assert Present([None, Some(b)]) == [b];
    assert Present([Some(a), None, Some(b)]) == [a, b];
  }

  lemma DistinctPair(a: string, b: string)
    ensures Distinct([a, b]) == if a == b then [a] else [a, b]
  {
    assert [a, b][..1] == [a];
    assert [a][..0] == [];
  }

  /**
   * An invoice remembered in the map and paid without a usable reference is
   * announced in its channel first and then in the fallback channel: two sends
   * unless the two coincide.
   */
  lemma RememberedInvoiceNotifiesOrigin(parse: ChannelIdParser, ev: Event, invoiceMap: map<string, string>,
                                        recent: seq<RecentEntry>, now: int, paidChannel: Option<string>,
                                        channelId: string)
    requires ChannelFromRef(parse, ev, None) == None
    requires MapKey(ev) in invoiceMap && invoiceMap[MapKey(ev)] == channelId && channelId != ""
    ensures var fallback := FallbackChannel(paidChannel);
            NotifyIds(Resolve(parse, ev, None, invoiceMap, recent, now, paidChannel))
              == if channelId == fallback then [channelId] else [channelId, fallback]
  {
    var c := Resolve(parse, ev, None, invoiceMap, recent, now, paidChannel);
    assert CandidateList(c) == [None, Some(channelId), None, Some(c.fallback)];
    PresentMapAndFallback(channelId, c.fallback);
    DistinctPair(channelId, c.fallback);
  }
}
