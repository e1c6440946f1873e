/** The pure part of the RSS manager: which fetched items are new, the
    message built for each of them, what one feed's turn of a sweep does to
    its record, and what a whole sweep does to the collection of records. */
module FeedDiff {

  datatype Option<+T> = None | Some(value: T)

  /** A document of the `rss-feeds` collection. A null `lastCheckedGuid`
      is `None`. */
  datatype Record = Record(url: string, lastCheckedGuid: Option<string>)

  /** One item of a parsed feed, in the order the feed lists it. */
  datatype Item = Item(guid: string, title: string, link: string, pubDate: string)

  /** The payload built for one new item (the item without its guid). */
  datatype Msg = Msg(title: string, link: string, pubDate: string)

  /** The outcome of parsing one feed URL: its items, or a thrown error. */
  datatype FetchResult = Fetched(items: seq<Item>) | FetchFailed

  /** What the outside world does during one sweep: whether listing the
      collection succeeds, what fetching the feed at each listing position
      yields, and whether the watermark write at each position succeeds. */
  datatype Environment = Environment(
    listOk: bool,
    fetch: nat -> FetchResult,
    writeOk: nat -> bool)

  /** An item is new when its guid is strictly different from the stored
      watermark; a string is never strictly equal to null. */
  predicate IsNew(item: Item, watermark: Option<string>) {
    watermark != Some(item.guid)
  }

  /** The fetched items kept by the filter on the watermark, in feed order. */
  function NewItems(items: seq<Item>, watermark: Option<string>): (r: seq<Item>)
    ensures |r| <= |items|
    decreases |items|
  {
    if items == [] then []
    else if IsNew(items[0], watermark) then [items[0]] + NewItems(items[1..], watermark)
    else NewItems(items[1..], watermark)
  }

  /** How many of `items` are new; an independent count used to say where
      each new item lands in the filtered sequence. */
  function CountNew(items: seq<Item>, watermark: Option<string>): nat
    decreases |items|
  {
    if items == [] then 0
    else (if IsNew(items[0], watermark) then 1 else 0) + CountNew(items[1..], watermark)
  }

  function ToMsg(item: Item): Msg {
    Msg(item.title, item.link, item.pubDate)
  }

  /** The messages built for `items`, one after the other. */
  function Messages(items: seq<Item>): (r: seq<Msg>)
    ensures |r| == |items|
    decreases |items|
  {
    if items == [] then [] else [ToMsg(items[0])] + Messages(items[1..])
  }

  /** Exactly one message per item, in the same order, carrying that item's
      title, link and publication date. */
  lemma {:induction false} MessagesAt(items: seq<Item>, k: nat)
    requires k < |items|
    ensures |Messages(items)| == |items|
    ensures Messages(items)[k] == Msg(items[k].title, items[k].link, items[k].pubDate)
    decreases |items|
  {
    if k > 0 {
      MessagesAt(items[1..], k - 1);
    } else if |items| > 1 {
      MessagesAt(items[1..], 0);
    }
  }

  /** Building the messages of one more item appends its message. */
  lemma {:induction false} MessagesSnoc(items: seq<Item>, j: nat)
    requires j < |items|
    ensures Messages(items[..j + 1]) == Messages(items[..j]) + [ToMsg(items[j])]
    decreases j
  {
    if j > 0 {
      MessagesSnoc(items[1..], j - 1);
      assert items[..j + 1][1..] == items[1..][..j];
      assert items[..j][1..] == items[1..][..j - 1];
    }
  }

  /** What one feed's turn of a sweep produces: whether it went through, the
      record afterwards, and the messages built. */
  datatype Step = Step(ok: bool, record: Record, msgs: seq<Msg>)

  /** One feed's turn: a failed fetch stops before any message; with no new
      item nothing is written; otherwise every new item's message is built,
      then the watermark becomes the first new item's guid, unless that write
      fails (the messages have then been built already). */
  function ProcessFeed(r: Record, fetched: FetchResult, writeOk: bool): (s: Step)
    ensures s.record.url == r.url
    ensures !s.ok ==> s.record == r
    ensures s.record != r ==> fetched.Fetched? && writeOk && s.msgs != []
  {
    match fetched
    case FetchFailed => Step(false, r, [])
    case Fetched(items) =>
      var newOnes := NewItems(items, r.lastCheckedGuid);
      if |newOnes| == 0 then Step(true, r, [])
      else if writeOk then Step(true, r.(lastCheckedGuid := Some(newOnes[0].guid)), Messages(newOnes))
      else Step(false, r, Messages(newOnes))
  }

  /** The state of a sweep: whether it has failed, the records, and the
      messages built so far. */
  datatype SweepState = SweepState(failed: bool, feeds: seq<Record>, log: seq<Msg>)

  /** The sweep over the first `n` records of the listing `feeds`, stopping
      at the first failing record. Each record is read from the listing. */
  function Sweep(feeds: seq<Record>, env: Environment, n: nat): (s: SweepState)
    requires n <= |feeds|
    ensures |s.feeds| == |feeds|
    decreases n
  {
    if n == 0 then SweepState(false, feeds, [])
    else
      var prev := Sweep(feeds, env, n - 1);
      if prev.failed then prev
      else
        var step := ProcessFeed(feeds[n - 1], env.fetch(n - 1), env.writeOk(n - 1));
        SweepState(!step.ok, prev.feeds[n - 1 := step.record], prev.log + step.msgs)
  }

  /** The messages the turns of the first `n` records build, concatenated
      in listing order. */
  function LogOf(feeds: seq<Record>, env: Environment, n: nat): seq<Msg>
    requires n <= |feeds|
    decreases n
  {
    if n == 0 then []
    else LogOf(feeds, env, n - 1) + ProcessFeed(feeds[n - 1], env.fetch(n - 1), env.writeOk(n - 1)).msgs
  }

  // ---------------------------------------------------------------------
  // The new-item filter

  /** The filter keeps exactly the fetched items whose guid differs from the
      watermark. */
  lemma {:induction false} NewItemsMembers(items: seq<Item>, watermark: Option<string>, x: Item)
    ensures x in NewItems(items, watermark) <==> x in items && IsNew(x, watermark)
    decreases |items|
  {
    if items != [] {
      NewItemsMembers(items[1..], watermark, x);
      assert items == [items[0]] + items[1..];
    }
  }

  /** Every item is new when no item carries the watermark's guid. */
  lemma {:induction false} AllNew(items: seq<Item>, watermark: Option<string>)
    requires forall k :: 0 <= k < |items| ==> IsNew(items[k], watermark)
    ensures NewItems(items, watermark) == items
    decreases |items|
  {
    if items != [] {
      AllNew(items[1..], watermark);
    }
  }

  /** No item is new when every item carries the watermark's guid. */
  lemma {:induction false} NoneNew(items: seq<Item>, watermark: Option<string>)
    requires forall k :: 0 <= k < |items| ==> !IsNew(items[k], watermark)
    ensures NewItems(items, watermark) == []
    decreases |items|
  {
    if items != [] {
      NoneNew(items[1..], watermark);
    }
  }

  /** With a null watermark (a freshly registered feed) every fetched item
      is new. */
  lemma {:induction false} NullWatermarkKeepsAll(items: seq<Item>)
    ensures NewItems(items, None) == items
  {
    AllNew(items, None);
  }

  /** The filter keeps exactly as many items as are new. */
  lemma {:induction false} NewItemsLength(items: seq<Item>, watermark: Option<string>)
    ensures |NewItems(items, watermark)| == CountNew(items, watermark)
    decreases |items|
  {
    if items != [] {
      NewItemsLength(items[1..], watermark);
    }
  }

  /** Order: the new item at feed position `k` sits in the filtered sequence
      right after the new items that precede it in the feed. */
  lemma {:induction false} NewItemAt(items: seq<Item>, watermark: Option<string>, k: nat)
    requires k < |items| && IsNew(items[k], watermark)
    ensures CountNew(items[..k], watermark) < |NewItems(items, watermark)|
    ensures NewItems(items, watermark)[CountNew(items[..k], watermark)] == items[k]
    decreases |items|
  {
    if k > 0 {
      NewItemAt(items[1..], watermark, k - 1);
      assert items[..k][1..] == items[1..][..k - 1];
      assert items[..k][0] == items[0];
    }
  }

  /** The first new item is the first fetched item whose guid differs from
      the watermark. */
  lemma {:induction false} FirstNewItem(items: seq<Item>, watermark: Option<string>, k: nat)
    requires k < |items| && IsNew(items[k], watermark)
    requires forall j :: 0 <= j < k ==> !IsNew(items[j], watermark)
    ensures NewItems(items, watermark) != []
    ensures NewItems(items, watermark)[0] == items[k]
    decreases |items|
  {
    if k > 0 {
      FirstNewItem(items[1..], watermark, k - 1);
    }
  }

  // ---------------------------------------------------------------------
  // One feed's turn

  /** When some fetched item is new and the write succeeds, the watermark
      becomes the guid of the first item whose guid differs from the old
      watermark, the URL stays, and one message per new item is built. */
  lemma WatermarkAdvances(r: Record, items: seq<Item>, k: nat)
    requires k < |items| && IsNew(items[k], r.lastCheckedGuid)
    requires forall j :: 0 <= j < k ==> !IsNew(items[j], r.lastCheckedGuid)
    ensures ProcessFeed(r, Fetched(items), true)
         == Step(true, Record(r.url, Some(items[k].guid)), Messages(NewItems(items, r.lastCheckedGuid)))
  {
    FirstNewItem(items, r.lastCheckedGuid, k);
  }

  /** When no fetched item is new, the turn succeeds, builds nothing and
      leaves the record as it was, whatever a write would have done. */
  lemma NothingNewNoWrite(r: Record, items: seq<Item>, writeOk: bool)
    requires forall k :: 0 <= k < |items| ==> !IsNew(items[k], r.lastCheckedGuid)
    ensures ProcessFeed(r, Fetched(items), writeOk) == Step(true, r, [])
  {
    NoneNew(items, r.lastCheckedGuid);
  }

  /** A failed watermark write leaves the record as it was after its
      messages were built, so the next sweep over the same items builds the
      same messages again. */
  lemma FailedWriteRepeats(r: Record, items: seq<Item>)
    requires exists k :: 0 <= k < |items| && IsNew(items[k], r.lastCheckedGuid)
    ensures var first := ProcessFeed(r, Fetched(items), false);
            !first.ok && first.record == r && |first.msgs| > 0 &&
            ProcessFeed(first.record, Fetched(items), true).msgs == first.msgs
  {
    var k :| 0 <= k < |items| && IsNew(items[k], r.lastCheckedGuid);
    NewItemsMembers(items, r.lastCheckedGuid, items[k]);
  }

  /** A freshly registered record's first turn builds a message for every
      fetched item, in feed order, and moves its watermark to the first
      item. */
  lemma {:induction false} FirstSweepOfNewFeed(url: string, items: seq<Item>)
    requires items != []
    ensures ProcessFeed(Record(url, None), Fetched(items), true)
         == Step(true, Record(url, Some(items[0].guid)), Messages(items))
  {
    NullWatermarkKeepsAll(items);
  }

  /** The filter is "guid differs", not the prefix before the watermark
      item: when the watermark is not the first item's guid and that guid
      occurs once, sweeping the unchanged feed twice builds, the second
      time, the messages of all the older items again and moves the
      watermark to the second item. */
  lemma ResweepReemitsOlderItems(r: Record, items: seq<Item>)
    requires |items| >= 2
    requires r.lastCheckedGuid != Some(items[0].guid)
    requires forall k :: 1 <= k < |items| ==> items[k].guid != items[0].guid
    ensures var first := ProcessFeed(r, Fetched(items), true);
            var second := ProcessFeed(first.record, Fetched(items), true);
            second == Step(true, Record(r.url, Some(items[1].guid)), Messages(items[1..]))
  {
    FirstNewItem(items, r.lastCheckedGuid, 0);
    AllNew(items[1..], Some(items[0].guid));
    assert items == [items[0]] + items[1..];
  }

  // ---------------------------------------------------------------------
  // The sweep

  /** A sweep changes no URL, and no record it has not reached yet. */
  lemma {:induction false} SweepFrame(feeds: seq<Record>, env: Environment, n: nat, k: nat)
    requires n <= |feeds| && k < |feeds|
    ensures Sweep(feeds, env, n).feeds[k].url == feeds[k].url
    ensures n <= k ==> Sweep(feeds, env, n).feeds[k] == feeds[k]
    decreases n
  {
    if n > 0 {
      SweepFrame(feeds, env, n - 1, k);
    }
  }

  /** A record visited by a sweep that has not failed holds what its own
      turn produced from the listed record; records are independent. */
  lemma {:induction false} SweepRecord(feeds: seq<Record>, env: Environment, n: nat, k: nat)
    requires k < n <= |feeds|
    requires !Sweep(feeds, env, n).failed
    ensures Sweep(feeds, env, n).feeds[k] == ProcessFeed(feeds[k], env.fetch(k), env.writeOk(k)).record
    decreases n
  {
    if k < n - 1 {
      SweepRecord(feeds, env, n - 1, k);
    }
  }

  /** Once a sweep has failed it stays as it was: later records are neither
      read nor changed and no further message is built. */
  lemma {:induction false} SweepHalts(feeds: seq<Record>, env: Environment, j: nat, n: nat)
    requires j <= n <= |feeds|
    requires Sweep(feeds, env, j).failed
    ensures Sweep(feeds, env, n) == Sweep(feeds, env, j)
    decreases n
  {
    if n > j {
      SweepHalts(feeds, env, j, n - 1);
    }
  }

  /** A sweep that fails at record `j` keeps the turns of the records before
      it, leaves record `j` and every later one as listed, and its messages
      are those of the earlier records followed by the ones record `j` built
      before failing. */
  lemma AbortOnError(feeds: seq<Record>, env: Environment, j: nat)
    requires j < |feeds|
    requires !Sweep(feeds, env, j).failed
    requires !ProcessFeed(feeds[j], env.fetch(j), env.writeOk(j)).ok
    ensures var s := Sweep(feeds, env, |feeds|);
            var before := Sweep(feeds, env, j);
            s.failed &&
            s.feeds[..j] == before.feeds[..j] &&
            s.feeds[j..] == feeds[j..] &&
            s.log == before.log + ProcessFeed(feeds[j], env.fetch(j), env.writeOk(j)).msgs
  {
    var before := Sweep(feeds, env, j);
    var step := ProcessFeed(feeds[j], env.fetch(j), env.writeOk(j));
    SweepNext(feeds, env, j);
    assert before.feeds[j := step.record] == before.feeds;
    forall k | j <= k < |feeds|
      ensures before.feeds[k] == feeds[k]
    {
      SweepFrame(feeds, env, j, k);
    }
    SweepHalts(feeds, env, j + 1, |feeds|);
  }

  /** One more record: a sweep that has not failed goes on with the turn of
      the next listed record. */
  lemma SweepNext(feeds: seq<Record>, env: Environment, i: nat)
    requires i < |feeds|
    requires !Sweep(feeds, env, i).failed
    ensures var prev := Sweep(feeds, env, i);
            var step := ProcessFeed(feeds[i], env.fetch(i), env.writeOk(i));
            prev.feeds[i] == feeds[i] &&
            Sweep(feeds, env, i + 1) == SweepState(!step.ok, prev.feeds[i := step.record], prev.log + step.msgs)
  {
    SweepFrame(feeds, env, i, i);
  }

  /** A sweep that goes through has built, for each record, exactly the
      messages of its turn, in listing order, and every record ends as its
      turn left it. */
  lemma {:induction false} SweepLog(feeds: seq<Record>, env: Environment, n: nat)
    requires n <= |feeds|
    requires !Sweep(feeds, env, n).failed
    ensures Sweep(feeds, env, n).log == LogOf(feeds, env, n)
    decreases n
  {
    if n > 0 {
      SweepLog(feeds, env, n - 1);
    }
  }
}
