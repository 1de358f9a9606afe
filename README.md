# PayPal invoice correlation for a Discord shop bot

The bot issues PayPal invoices from a Discord `/invoice` command. When PayPal later reports an invoice as paid, the bot posts a confirmation in the channel the invoice came from. This project models that correlation core in Dafny and proves its behaviour.

What is modelled:

- **Correlation store** (`index.js`). A map from invoice id to channel id, where the last write wins. A queue of recent invoices, pruned to a 20-minute window. A 7-day deletion timer for every remembered id. The store is the class `Correlation.Store`. Time is an explicit `now` argument. Each pending `setTimeout` is an `Expiry(deadline, key)` entry, fired by `Store.Tick(now)`.
- **The `/invoice` flow** (`index.js:237-265`). It builds the JSON reference `{guildId, channelId, invokerId}`, creates and shares the invoice, then remembers the invoice's channel.
- **The PayPal calls** (`paypal.js`):
  - the OAuth token request and its error path;
  - the create → send → get order, which aborts on a non-ok create or send;
  - the choice of the payer link;
  - the verification decision.

  Every HTTP response is an input: its `ok` flag, its text, and what its JSON body reads as.
- **The paid webhook** (`index.js:278-392`). The handler acknowledges the request. For a verified `INVOICING.INVOICE.PAID` event it collects candidate channels in priority order:
  1. the event's reference, read first as JSON and then for a `ch_<17-20 digits>` token. When it names no channel and the invoice id is not "(unknown)", the invoice fetched by id refills this same slot;
  2. the in-memory map;
  3. the newest recent invoice;
  4. the static fallback channel.

  It drops empty candidates, removes duplicates in first-occurrence order, and attempts one send per channel.

The resolution chain is pure functions over a flattened event record. A missing field reads as `None`, and the JavaScript operators `||`, `??` and `|| null` are written out in module `Js`. `JSON.parse(s)?.channelId` is a parameter `parse`. The concrete decoder `Reference.ParseChannelId` handles the flat objects the bot writes, and it inverts `Reference.Encode`. The regular expression `/ch_(\d{17,20})/` is a leftmost search in `ChannelToken`.

Points of the code that the model keeps as written:

- Resolution does not stop at the first success. The reference, the map and the fallback are all collected. The invoice is fetched only when the reference named no channel. The recent queue is consulted only when both the reference and the map failed.
- The static fallback is always added, and its `PROOFS_CHANNEL_ID` is a non-empty constant. So a remembered invoice is announced in its own channel and also in the fallback channel, not exactly once (`Webhook.RememberedInvoiceNotifiesOrigin`).
- The comment at index.js:226-227 says the PayPal item title is always "Digital Item". The code sends `itemName` as both the item name and the note (paypal.js:41, 49), and the model follows the code.
- The model assumes that every 7-day timer that is due has fired before a command or a webhook request reads the store. It ignores the races of a few milliseconds that Node's event loop allows. The assumption is `Correlation.Store.Settled(now)`: `Remember`, `/invoice` and the webhook handler require it, and `Store.Tick(now)` establishes it.

## Model

| member | source | states |
|---|---|---|
| Correlation.Pruned | index.js:41-44 | the pruned queue is never longer than the queue, and an entry it starts with has not expired |
| Correlation.PrunedMeaning | index.js:41-44 | pruning drops exactly the leading expired entries: the result is a suffix of the queue, every dropped entry was older than 20 minutes, and the first kept entry is not |
| Correlation.Store.PruneRecent | index.js:41-44 | the `while … shift()` loop leaves exactly `Pruned(old queue, now)` |
| Correlation.ChronologicalTail | index.js:43 | dropping the oldest entry of a chronological queue leaves it chronological |
| Correlation.PrunedWithinWindow | index.js:38-44 | on a queue with nondecreasing timestamps, pruning keeps it chronological and leaves only entries from the last 20 minutes |
| Correlation.PrunedKeepsNewest | index.js:48-49 | an entry pushed at `now` survives the prune and stays last |
| Correlation.PushChronological | index.js:48 | pushing an entry no older than any queued one keeps the queue chronological |
| Correlation.RememberKeepsWindow | index.js:46-49 | when every push uses the current time, the queue after remember is chronological and within the 20-minute window |
| Correlation.Get | index.js:323-324 | the map lookup, where a missing key and an empty channel both read as null, is set exactly when the key is present with a non-empty channel, and then it is that channel |
| Correlation.Store.Lookup | index.js:324 | the map lookup, where a missing key and an empty channel both read as null, is set exactly when the key is present with a non-empty channel, and then it is that channel |
| Correlation.Store.Remember | index.js:46-55 | on a store with no overdue timer, the map gets `id → channelId`, the entry is pushed and the queue pruned (the new entry stays newest), and a deletion at `now + 7 days` is scheduled; nothing else changes, and still no timer is overdue |
| Correlation.DueKeysMeaning | index.js:51-54 | a key is due exactly when some scheduled deletion for it has a deadline at or before `now` |
| Correlation.PendingMeaning | index.js:51-54 | a timer still waits exactly when it was scheduled and its deadline is after `now` |
| Correlation.TimerStep | index.js:51-54 | one more timer adds its key to the due set when its deadline has passed, and otherwise joins the waiting timers at the end; the earlier timers' verdicts do not change |
| Correlation.Store.Tick | index.js:51-54 | firing the due timers removes every due key from the map whatever was written since, keeps the others waiting in order, leaves the recent queue alone, and leaves no timer overdue |
| Correlation.OneDueOneWaiting | index.js:51-54 | of an earlier and a later timer on the same key, at the earlier deadline the key is due and only the later timer waits |
| Correlation.LastWriteWins | index.js:46-47 | after remembering the same id twice, a lookup returns the second channel |
| Correlation.ForgottenAfterRetention | index.js:51-54 | seven days or more after its only remember, once the due timers have fired, a lookup of the id finds nothing |
| Correlation.EarlierTimerDeletesRewrite | index.js:46-54 | the timer of the first remember deletes an id that was re-remembered later, before the later write's 7 days are up; the recent queue still ends with the later entry, and the later timer still waits |
| ChannelToken.LeadingDigits | index.js:317 | the length of the leading run of ASCII digits: all of them digits, and the next character is not one |
| ChannelToken.FindFrom | index.js:317 | the leftmost position at or after `p` where "ch_" is followed by at least 17 digits, or none if there is no such position |
| ChannelToken.CaptureAt | index.js:317-318 | the capture is the text right after "ch_": 17 to 20 ASCII digits, and fewer than 20 only where the run of digits ends |
| ChannelToken.Match | index.js:317 | a captured token is 17 to 20 ASCII digits |
| ChannelToken.MatchIsLeftmost | index.js:317-318 | the regex finds a token exactly when some position matches; it captures at the leftmost match the digits that follow "ch_" there (`CaptureAt`), 17 to 20 of them |
| ChannelToken.NoTokenWithoutC | index.js:317 | text without the letter 'c' never yields a channel token |
| Reference.ScanString | index.js:313 | a JSON string literal that is read consumes input and holds no quote, backslash or control character; `Reference.ScanPlain` shows it reads plain text back unchanged |
| Reference.Encode | index.js:238-242 | the reference is a JSON object, braces at both ends, that holds the member `"channelId":"<channel>"` followed by a comma |
| Reference.ScanPlain | index.js:238-242 | a string literal without quotes, backslashes or control characters reads back as itself, followed by the rest |
| Reference.ParseRendered | index.js:238-242 | a rendered string or `null` value parses back to itself |
| Reference.ParseOneMember | index.js:238-242 | a rendered `"key":value` member parses back to its key and value |
| Reference.ParseMembersStep | index.js:313-314 | a member followed by a comma hands over to the members after it, and "channelId" updates the value found |
| Reference.ParseMembersLast | index.js:313-314 | a member followed by the closing brace ends the object with the last "channelId" found |
| Reference.ParseThreeMembers | index.js:313-314 | a three-member object whose middle member is "channelId" yields that member's value |
| Reference.ParseObject | index.js:313-314 | an object whose members end with channel `c` has `channelId` `c` |
| Reference.ParseChannelId | index.js:313-314 | only an object yields a channel id, and the id read contains no quote, backslash or control character |
| Reference.EncodeRoundTrip | index.js:238-242 | `JSON.parse(reference).channelId` of the reference `/invoice` builds is that invoice's channel id |
| PayPal.DigitChar | paypal.js:39 | each decimal digit is written as an ASCII digit |
| PayPal.DecimalString | paypal.js:39 | the timestamp is written as a non-empty run of digits |
| PayPal.InvoiceNumber | paypal.js:39 | the invoice number starts with "INV-" followed by at least one character, and never holds a `ch_` token |
| PayPal.NewInvoiceDraft | paypal.js:36-53 | the created invoice is in USD in both the detail and the item, carries the given reference, amount and item name, and has an invoice number without a channel token |
| PayPal.GetAccessToken | paypal.js:9-26 | a non-ok OAuth response throws with its text ("?" if the text cannot be read); an unreadable body throws; otherwise the result is the body's `access_token` |
| PayPal.FirstPayLink | paypal.js:77 | the index of the first link whose `rel` is "pay": no earlier link has that rel, and none exists when there is no index |
| PayPal.PayLink | paypal.js:77 | the payer link is the first pay link's href if non-empty, otherwise the invoice's own href if non-empty, otherwise null; later pay links are never consulted, and a missing link list counts as empty |
| PayPal.CreateAndShareInvoice | paypal.js:29-80 | requests go token, create, send, get, strictly in order; no invoice request without a token; a non-ok create or send throws with its text before any later request; the id from the create is used in send and get and is returned; the get response's `ok` is never checked |
| PayPal.VerifyWebhookSignature | paypal.js:83-100 | of the responses, only the token response can make it throw; otherwise the answer is true exactly when the body reads `verification_status: "SUCCESS"`, and an unreadable body gives false |
| Webhook.MapKey | index.js:324 | the map key is `resource.id` when that is non-empty, otherwise `resource.invoice_id`; it is empty exactly when both are missing or empty |
| Webhook.DisplayInvoiceId | index.js:289-293 | the reported invoice id is never empty; it equals the map key whenever that key is non-empty, and otherwise falls through to the invoice number, then "(unknown)" |
| Webhook.ChannelFromText | index.js:311-319 | a truthy JSON `channelId` wins over the `ch_` token; the token is searched only when JSON gives nothing; a result is never empty |
| Webhook.ChannelFromEvent | index.js:305-320 | `??` picks the reference whenever it is set, even when it is empty, and the invoice number only when the reference is missing; the chosen text goes through JSON and then the token search; a channel found is never empty |
| Webhook.ChannelFromFetched | index.js:331-344 | on a fetched invoice, a truthy JSON `channelId` of a non-empty reference wins; otherwise only the token search on a non-empty invoice number can answer; the reference is never searched for a token, and the invoice number is never parsed as JSON |
| Webhook.ChannelFromRef | index.js:305-348 | the fetched invoice cannot override a channel the event named, is not consulted for an "(unknown)" invoice, and a failed fetch leaves the event's answer; when it is consulted, its answer is `ChannelFromFetched`'s; a channel found is never empty |
| Webhook.LastChannel | index.js:354-356 | the recent candidate is set exactly when the queue is non-empty and its newest entry has a non-empty channel, and then it is that channel |
| Webhook.EmptyReferenceShadowsInvoiceNumber | index.js:305-308 | `??` does not skip an empty reference, so the invoice number is not read even if it carries a token |
| Webhook.FetchedReferenceTokenIgnored | index.js:311-344 | a bare `ch_` token in a fetched invoice's reference is ignored, although the same text in the event's reference resolves |
| Webhook.FallbackChannel | index.js:361 | the fallback channel is never empty |
| Webhook.Resolve | index.js:303-359 | the reference slot is step 1's answer, refilled from the fetched invoice as `ChannelFromRef` says, and the fallback is `PAID_CHANNEL_ID` or `PROOFS_CHANNEL_ID`; every candidate that is set is a non-empty channel id; the map candidate is set exactly when the map holds a non-empty channel under the key; the recent candidate is set only when the reference and the map both failed |
| Webhook.Present | index.js:362 | `.filter(Boolean)` keeps exactly the set, non-empty candidates |
| Webhook.PresentKeepsOrder | index.js:362 | `.filter(Boolean)` keeps the order of the values it keeps: one comes before another in the output exactly when its first slot in the input does |
| Webhook.FilteredDistinctInOrder | index.js:362 | `[...new Set(xs.filter(Boolean))]` lists each kept value in the order of its first slot in `xs` |
| Webhook.Distinct | index.js:362 | the deduplicated list has the same elements as its input, each exactly once |
| Webhook.FirstIndex | index.js:362 | the first position where a value occurs |
| Webhook.FirstIndexOfPrefix | index.js:362 | appending an element does not move the first occurrence of a value already present |
| Webhook.DistinctKeepsFirstOccurrenceOrder | index.js:362 | `[...new Set(xs)]` lists the values in the order of their first occurrence in `xs` |
| Webhook.PresentMapAndFallback | index.js:362 | when only the map and the fallback give channels, `.filter(Boolean)` leaves exactly those two, in that order |
| Webhook.DistinctPair | index.js:362 | two channels deduplicate to one when they are equal, and otherwise stay as they are, in order |
| Webhook.DistinctKeepsHead | index.js:362 | the first candidate stays first after deduplication |
| Webhook.NotifyIds | index.js:361-368 | the notify list has 1 to 4 distinct channels: the fallback plus every non-empty candidate, listed in the priority order reference (or fetched invoice), map, recent, fallback, each where it first occurs, so the reference's channel comes first when present; the "no channels" branch is unreachable |
| Webhook.PaidMessage | index.js:370-372 | every confirmation starts with "✅ **Paid** — Invoice has been paid" |
| Webhook.PaidMessageShowsAmount | index.js:295-372 | the confirmation shows "value currency" when both fields are present, and is the plain text otherwise |
| Webhook.Attempts | index.js:374-386 | there is one send attempt per channel of the list, in list order, each with the same message and that channel's own outcome, whatever happened to the others |
| Webhook.Dispatch | index.js:374-386 | the `for … of` loop with its per-channel `try/catch` records exactly `Attempts` over the list |
| Webhook.FirstAttemptAfterAcknowledge | index.js:285-386 | with at least one channel to notify, the step right after the acknowledgement is the attempt in the first channel |
| Webhook.ResolveChannels | index.js:303-359 | on a store with no overdue timer, the candidates are those `Resolve` gives for the map and the recent queue at arrival; the queue is pruned exactly when neither the reference nor the map gave a channel, and is otherwise untouched |
| Webhook.HandleWebhook | index.js:278-392 | on a store with no overdue timer, the request is acknowledged before any send; without verification or for another event type nothing else happens; otherwise the trace is the acknowledgement followed by `Attempts` over the notify list resolved from the state at arrival, and the recent queue is pruned only when neither the reference nor the map resolved |
| Webhook.EncodedReferenceResolves | index.js:305-319 | an event that carries the reference `/invoice` wrote names that channel first, and the recent queue is not consulted |
| Webhook.RecentFallbackYields | index.js:350-359 | on a chronological queue, the recent fallback yields exactly when the reference and the map both failed and the newest entry is inside the 20-minute window with a non-empty channel, and then it is that entry's channel |
| Webhook.RecentIsLastResort | index.js:350-359 | the recent fallback yields only when the reference and the map both failed, and then it is the newest entry left after pruning, which on a chronological queue is at most 20 minutes old |
| Webhook.OnlyFallbackWhenNothingResolves | index.js:350-368 | with no reference, no map entry and an empty window, only the fallback channel is notified |
| Webhook.RememberedInvoiceNotifiesOrigin | index.js:322-368 | a remembered invoice paid without a usable reference is announced in its own channel and then in the fallback channel, once if they coincide |
| Webhook.ChannelFromRefAsDeployed | index.js:327-347 | as deployed, step 3 never changes the event's answer |
| Webhook.DeployedFetchIsDead | index.js:327-347 | for a concrete event and fetched invoice, the intended step 3 finds the channel and the deployed one does not |
| Webhook.FetchedReferenceRecoversChannel | index.js:327-340 | with a working fetch, an invoice whose event named no channel is traced back through the reference stored on the invoice |
| InvoiceCommand.IssueInvoice | index.js:237-265 | the invoice carries the encoded reference, the item name and the amount; the command succeeds exactly when the invoice was created, sent and read back, and then replies with the item, the amount and the pay link chosen from the read-back invoice (none for a `null` body); only then is `id → channel` remembered, and otherwise the store is unchanged |
| InvoiceCommand.IssueThenPaid | index.js:237-386 | an invoice issued in a channel, whose paid event carries its reference, is announced first in that channel, right after the acknowledgement, however long after the command it is paid |

## Left out

- Discord glue is not modelled: the client, the other commands, permission lists, embeds, buttons, replies and login. The reply to `/invoice` is reduced to the pay link or an error. Building the "Pay Invoice" button with a `null` link is not modelled.
- The Express server is not modelled. The 200 answer appears only as the first step of the handler's trace.
- The amount check and `toFixed(2)` at index.js:231-235 are floating point. The amount is an opaque string.
- HTTP, Base64 credentials, the request headers and the PayPal API are not modelled. Each response is an input (`ok`, text, body), and each request appears as a `PayPal.Call` value.
- `Date.now()` and real timers are replaced by the `now` argument and the `timers` field. Concurrency between handlers is not modelled.
- JSON values other than strings and `null` are not modelled, such as a numeric `channelId` or a non-array `links`. Neither is a `null` element in `links`, where `l.rel` throws.
- Reference.ParseChannelId: decodes only flat objects with string or `null` values, without whitespace or escape sequences. That covers everything `Reference.Encode` writes. The webhook functions take any decoder as `parse`.
- Reference.Encode: requires ids without quotes, backslashes or control characters. The escaping JSON.stringify would apply is not modelled. Discord ids are digit strings.
- Webhook.Dispatch: how a send ends (posted, channel not found, send error) is the input `outcome`. The Discord cache and fetch are not modelled.
- Webhook.HandleWebhook: the outcome of `verifyWebhookSignature`, including a throw, is the input `verification`. The invoice that `getInvoiceById` would return is the input `fetched`.
- PayPal.CreatedInvoice: a create response without an `id` is not expressible. The source would then post to `/invoices/undefined/send` and, if that succeeds, remember the channel under `undefined`. The model assumes PayPal returns an id.
- A `fetch` that rejects, for example on a network error, is not modelled: every request gets a response. So the model does not cover a throw from the verification request at paypal.js:85, or from the create, send and get requests.
- deploy-commands.js is not part of this model. It holds static command definitions and one registration call.

## Findings

| source | as written | input that shows it | evidently intended | confidence | as-written member | corrected member |
|---|---|---|---|---|---|---|
| index.js:16, index.js:330, paypal.js:102-105 | `getInvoiceById` is imported from paypal.js, which does not export it. The call in step 3 throws, index.js:345 swallows the error, and the fetched invoice never contributes a channel. | A paid event with `resource.id` "INV2-TEST" and no reference or invoice number, for an invoice whose stored reference is the one `/invoice` wrote (`Webhook.DeployedFetchIsDead`) | Step 3 reads the fetched invoice's reference and recovers the channel | high; not executed | Webhook.ChannelFromRefAsDeployed | Webhook.FetchedReferenceRecoversChannel |
