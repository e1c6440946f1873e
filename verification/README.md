# RSS manager: feed registration and the new-item sweep

This project models the RSS manager of an LLM review pipeline
(`rss-manager/index.ts`). The manager keeps a Firestore collection
`rss-feeds` with one record `{url, lastCheckedGuid}` per registered feed.
It has two entry points:

- `rssRegister` registers a feed URL. A missing or empty URL is refused
  with 400. Otherwise a record with that URL and a null `lastCheckedGuid`
  is added. A store error answers 500 and adds nothing.
- `checkRssFeeds` is run periodically. It lists every record and visits
  them in listing order. For each record it parses the feed. The new items
  are the fetched items whose `guid` is strictly different from the stored
  watermark `lastCheckedGuid`. It builds one `{title, link, pubDate}`
  message per new item, in feed order. Then it writes the first new item's
  guid back as the watermark, but only when some item was new. Any error
  stops the whole sweep, which then fails.

The model has two modules:

- `FeedDiff` (`feed_diff.dfy`) holds the pure part. It defines the records,
  items and messages. `NewItems` is the filter, `Messages` builds the
  payloads, and `ProcessFeed` is one record's turn of a sweep. `Sweep` is
  the sweep over the first `n` listed records, stopping at the first
  failure. The lemmas about them are here too.
- `RssManager` (`rss_manager.dfy`) holds the class `FeedStore`. Its
  field `feeds` is the collection and its field `outbox` is the log of
  built messages. `Register`, `CheckFeed` (the body of the sweep loop),
  `PublishAll` (the inner loop over new items) and `CheckRssFeeds` are
  methods that change these fields. Their postconditions tie the new state
  to the functions of `FeedDiff`.

The outside world is a parameter. An `Environment` says whether listing
the collection succeeds, what parsing the feed at each listing position
yields (`Fetched(items)` or `FetchFailed`), and whether the watermark
write at each position succeeds. `Register` takes whether the store
accepts the new document and the listing position its new id sorts to.

Three behaviours of the code are worth knowing:

- The filter keeps every item whose guid differs from the watermark; it
  does not stop at the watermark item (`ResweepReemitsOlderItems`).
- The first error aborts the whole sweep (`AbortOnError`).
- The publish call is commented out; only the payload is built. The model
  appends each built payload to `outbox`.

## Model

| member | source | states |
|---|---|---|
| `RssManager.IsMissing` | rss-manager/index.ts:18 | A URL is missing when the request carries none or an empty string, the values for which `!rssUrl` holds. |
| `RssManager.FeedStore.Register` | rss-manager/index.ts:15-34 | A missing or empty URL answers BadRequest. A store failure answers StoreError. In both cases the collection is unchanged. Otherwise exactly one record `{url, null}` is inserted at the position its document id gives it, and the existing records stay, in their order. |
| `FeedDiff.IsNew` | rss-manager/index.ts:58-60 | An item is new when its guid is not strictly equal to the stored watermark; a null watermark makes every item new. |
| `FeedDiff.NewItems` | rss-manager/index.ts:58-60 | The filter never yields more items than were fetched. |
| `FeedDiff.NewItemsMembers` | rss-manager/index.ts:58-60 | An item is kept if and only if it was fetched and its guid differs from the watermark. |
| `FeedDiff.NewItemsLength` | rss-manager/index.ts:58-60 | The number of kept items equals the number of fetched items whose guid differs from the watermark. |
| `FeedDiff.NewItemAt` | rss-manager/index.ts:58-60 | Order is kept: the new item at feed position k appears in the result right after the new items that precede it in the feed. |
| `FeedDiff.AllNew` | rss-manager/index.ts:58-60 | When no fetched item carries the watermark's guid, every fetched item is new, in feed order. |
| `FeedDiff.NoneNew` | rss-manager/index.ts:58-60 | When every fetched item carries the watermark's guid, nothing is new. |
| `FeedDiff.NullWatermarkKeepsAll` | rss-manager/index.ts:55-60 | With a null watermark, every fetched item is new. |
| `FeedDiff.FirstNewItem` | rss-manager/index.ts:58-77 | The first new item is the first fetched item whose guid differs from the watermark. |
| `FeedDiff.ToMsg` | rss-manager/index.ts:66-70 | The payload of one item is its title, link and pubDate, without its guid. |
| `FeedDiff.Messages` | rss-manager/index.ts:64-74 | One message per item: the result is as long as the item list. |
| `FeedDiff.MessagesAt` | rss-manager/index.ts:64-74 | There is exactly one message per item. Message k carries item k's title, link and pubDate. |
| `FeedDiff.MessagesSnoc` | rss-manager/index.ts:64-74 | Building the message of one more item appends exactly that item's message. |
| `RssManager.FeedStore.PublishAll` | rss-manager/index.ts:64-74 | The loop appends the messages of all new items, in order, to the log and changes no record. |
| `FeedDiff.ProcessFeed` | rss-manager/index.ts:48-81 | One record's turn keeps the record's URL. A failed turn leaves the record unchanged. The record changes only after a successful fetch and write that built at least one message. |
| `FeedDiff.WatermarkAdvances` | rss-manager/index.ts:62-78 | When some item is new and the write succeeds, the watermark becomes the guid of the first fetched item whose guid differs from the old watermark. The URL is kept and one message per new item is built. |
| `FeedDiff.NothingNewNoWrite` | rss-manager/index.ts:62-81 | When nothing is new, the turn succeeds, builds no message and leaves the record as it was. |
| `FeedDiff.FailedWriteRepeats` | rss-manager/index.ts:62-86 | When the watermark write fails, the turn fails after building its messages and the record keeps its old watermark. Retrying with the same items builds the same messages again. |
| `FeedDiff.FirstSweepOfNewFeed` | rss-manager/index.ts:25-78 | A freshly registered record's first turn builds a message for every fetched item and moves the watermark to the first item's guid. |
| `FeedDiff.ResweepReemitsOlderItems` | rss-manager/index.ts:58-78 | Take a record whose watermark is not the first item's guid, and an unchanged feed of two or more items whose first guid occurs once. Sweeping it twice builds, the second time, the messages of all items but the first again, and the watermark moves to the second item. |
| `RssManager.FeedStore.CheckFeed` | rss-manager/index.ts:48-81 | One loop iteration changes only the current record, exactly as its turn says, and appends exactly its turn's messages. It reports failure when the fetch or the write failed. |
| `FeedDiff.Sweep` | rss-manager/index.ts:47-86 | A sweep keeps the number of records. |
| `FeedDiff.SweepFrame` | rss-manager/index.ts:47-81 | A sweep changes no record's URL, and no record it has not reached yet. |
| `FeedDiff.SweepRecord` | rss-manager/index.ts:47-81 | Each record visited by a sweep that has not failed holds what its own turn produced from the listed record. |
| `FeedDiff.SweepLog` | rss-manager/index.ts:47-74 | A sweep that has not failed has built each record's messages in listing order. |
| `FeedDiff.SweepHalts` | rss-manager/index.ts:83-86 | Once a sweep has failed, later records are neither read nor changed and no further message is built. |
| `FeedDiff.AbortOnError` | rss-manager/index.ts:47-86 | When record j fails, the sweep fails. Earlier records keep their new watermarks. Record j and all later records stay as listed. The log holds the earlier records' messages followed by those record j built before failing. |
| `RssManager.FeedStore.CheckRssFeeds` | rss-manager/index.ts:38-87 | A failed listing fails and changes nothing. Otherwise the records and the log end exactly as `Sweep` over the whole listing says, and the status is Failed exactly when the sweep failed. An empty collection completes with no change. |

## Left out

- The review worker (`gemini-reviewer/index.ts`, `gemini-reviewer/test.js`) is not part of this model. It is I/O plumbing: message decoding, HTML scraping, prompt lookup, authentication, calls to a text-generation API and chat posting.
- Feed parsing (`rss-parser`), Firestore and Pub/Sub are foreign libraries. Their results are inputs: fetch outcomes per listing position, and whether listing, adding and updating succeed.
- Fetch outcomes are keyed by listing position, not by URL. Two records with the same URL may therefore see different items, as two real fetches can.
- The publish call is commented out in the source. The model keeps the built payload in `outbox`; the JSON serialisation into a `Buffer` is not modelled.
- Console logging and HTTP status texts are not modelled. Firestore-assigned document ids are not modelled either: the collection is listed in id order, and `Register` takes the position the new id sorts to as an input.
- Listing order: `Register` takes the new record's position as an input, so the model does not say where a newly registered feed is listed or swept. That position decides the order of messages across feeds and which feeds are processed before an abort.
- Item and Msg: `title`, `link` and `pubDate` are always strings. A parsed item may lack any of them, and then `JSON.stringify` drops that key from the payload; the model does not capture missing payload fields.
- The async/await scheduling is not modelled; the sweep is a plain sequential loop.
- A request URL that is present but not a string (a number or an object) is not modelled; the URL is absent or a string. Item guids are always strings, so the `undefined` guid case is not modelled.
