/** The two entry points of the RSS manager over its state: the `rss-feeds`
    collection and the log of messages built for the downstream topic. */
module RssManager {
  import opened FeedDiff

  datatype RegisterStatus = Added | BadRequest | StoreError
  datatype SweepStatus = Completed | Failed

  /** A URL is missing when the request carries none or an empty one. */
  predicate IsMissing(url: Option<string>) {
    url == None || url == Some("")
  }

  class FeedStore {
    /** The `rss-feeds` collection, in listing order (by document id). */
    var feeds: seq<Record>
    /** Every message built for the topic, oldest first. */
    var outbox: seq<Msg>

    constructor ()
      ensures feeds == [] && outbox == []
    {
      feeds := [];
      outbox := [];
    }

    /** Registers a feed URL: a missing URL is refused and changes nothing;
        otherwise a record with the URL and a null watermark is added,
        unless the store refuses the write. The collection lists records by
        their store-assigned id, so the new record lands at position `pos`
        (or last, when `pos` is past the end) and the others keep their
        order. */
    method Register(url: Option<string>, addOk: bool, pos: nat) returns (status: RegisterStatus)
      modifies this
      ensures status == BadRequest <==> IsMissing(url)
      ensures status == StoreError <==> !IsMissing(url) && !addOk
      ensures status == Added ==>
                var p := if pos <= |old(feeds)| then pos else |old(feeds)|;
                url.Some? && feeds == old(feeds)[..p] + [Record(url.value, None)] + old(feeds)[p..]
      ensures status != Added ==> feeds == old(feeds)
      ensures outbox == old(outbox)
    {
      if IsMissing(url) {
        return BadRequest;
      }
      if !addOk {
        return StoreError;
      }
      var p := if pos <= |feeds| then pos else |feeds|;
      feeds := feeds[..p] + [Record(url.value, None)] + feeds[p..];
      status := Added;
    }

    /** Builds one message per item, in order, and appends it to the log. */
    method PublishAll(items: seq<Item>)
      modifies this
      ensures outbox == old(outbox) + Messages(items)
      ensures feeds == old(feeds)
    {
      var j := 0;
      while j < |items|
        invariant 0 <= j <= |items|
        invariant outbox == old(outbox) + Messages(items[..j])
        invariant feeds == old(feeds)
      {
        MessagesSnoc(items, j);
        outbox := outbox + [Msg(items[j].title, items[j].link, items[j].pubDate)];
        j := j + 1;
      }
      assert items[..j] == items;
    }

    /** One record's turn of the sweep, for the record at listing position
        `i` as it was listed: builds a message per new item, then writes the
        first new item's guid as the record's watermark. `ok` is false when
        the fetch or the write threw. */
    method CheckFeed(i: nat, record: Record, fetched: FetchResult, writeOk: bool) returns (ok: bool)
      requires i < |feeds| && feeds[i] == record
      modifies this
      ensures var step := ProcessFeed(record, fetched, writeOk);
              ok == step.ok && feeds == old(feeds)[i := step.record] && outbox == old(outbox) + step.msgs
    {
      if fetched.FetchFailed? {
        return false;
      }
      var newItems := NewItems(fetched.items, record.lastCheckedGuid);
      if |newItems| > 0 {
        PublishAll(newItems);
        if !writeOk {
          return false;
        }
        feeds := feeds[i := feeds[i].(lastCheckedGuid := Some(newItems[0].guid))];
      }
      ok := true;
    }

    /** One sweep: lists the records, then for each in listing order fetches
        its feed, builds a message per new item and moves its watermark to
        the first new item's guid. The first error ends the sweep as failed;
        what was done before it stays. */
    method CheckRssFeeds(env: Environment) returns (status: SweepStatus)
      modifies this
      ensures !env.listOk ==> status == Failed && feeds == old(feeds) && outbox == old(outbox)
      ensures env.listOk ==>
                var s := Sweep(old(feeds), env, |old(feeds)|);
                feeds == s.feeds && outbox == old(outbox) + s.log && (status == Failed <==> s.failed)
    {
      if !env.listOk {
        return Failed;
      }
      var snapshot := feeds;
      var i: nat := 0;
      while i < |snapshot|
        invariant i <= |snapshot|
        invariant snapshot == old(feeds)
        invariant !Sweep(snapshot, env, i).failed
        invariant feeds == Sweep(snapshot, env, i).feeds
        invariant outbox == old(outbox) + Sweep(snapshot, env, i).log
      {
        ghost var prev := Sweep(snapshot, env, i);
        ghost var step := ProcessFeed(snapshot[i], env.fetch(i), env.writeOk(i));
        SweepNext(snapshot, env, i);
        var fetched := env.fetch(i);
        var writeOk := env.writeOk(i);
        var ok := CheckFeed(i, snapshot[i], fetched, writeOk);
        assert outbox == old(outbox) + (prev.log + step.msgs);
        if !ok {
          SweepHalts(snapshot, env, i + 1, |snapshot|);
          return Failed;
        }
        i := i + 1;
      }
      status := Completed;
    }
  }
}
