/** One worker (`Fetcher`): its scan of the event stream, consulting and
    updating the shared ledger and handing each new record to the callback.
    The scan is modelled as one sequential run of the loop. */
module Fetch {
  import opened Xml
  import opened Seqs
  import opened Shaper
  import opened Ledger
  import opened Scan
  import opened Config

  /** The records handed over for a sequence of delivered events. */
  function ShapeAll(ds: seq<Event>): (rs: seq<Record>)
    ensures |rs| == |ds|
    ensures forall i :: 0 <= i < |ds| ==> rs[i] == ToDict(ds[i].element)
  {
    if ds == [] then [] else ShapeAll(ds[..|ds| - 1]) + [ToDict(ds[|ds| - 1].element)]
  }

  lemma ShapeAllAppend(ds: seq<Event>, ev: Event)
    ensures ShapeAll(ds + [ev]) == ShapeAll(ds) + [ToDict(ev.element)]
  {
    assert (ds + [ev])[..|ds|] == ds;
  }

  /** One step of the scan, as the records it hands over: the record of `ev`
      is appended exactly when its line is not yet in the ledger. */
  lemma ShapeScannedSnoc(ms: seq<Event>, ev: Event, seen: set<int>)
    ensures Scanned(ms + [ev], seen).ledger == Scanned(ms, seen).ledger + {ev.sourceline}
    ensures ShapeAll(Scanned(ms + [ev], seen).delivered)
         == ShapeAll(Scanned(ms, seen).delivered)
            + (if ev.sourceline in Scanned(ms, seen).ledger then [] else [ToDict(ev.element)])
  {
    var t := Scanned(ms, seen);
    ScannedSnoc(ms, ev, seen);
    if ev.sourceline in t.ledger {
      assert Scanned(ms + [ev], seen) == t;
    } else {
      assert Scanned(ms + [ev], seen).delivered == t.delivered + [ev];
      ShapeAllAppend(t.delivered, ev);
    }
  }

  /** The `get_record` hook: every call appends its record to `records`. */
  class Consumer {
    var records: seq<Record>

    constructor ()
      ensures records == []
    {
      records := [];
    }

    method GetRecord(r: Record)
      modifies this
      ensures records == old(records) + [r]
    {
      records := records + [r];
    }
  }

  class Fetcher {
    /** The events the tokenizer produces for the worker's source; a syntax
        error ends this sequence early. */
    const content: seq<Event>
    const tag: string
    const storage: SyncStorage
    const lock: LockKind
    const callback: Consumer

    /** `Fetcher()` followed by `setup(...)`. */
    constructor Setup(content: seq<Event>, tag: string, storage: SyncStorage,
                      lock: LockKind, callback: Consumer)
      ensures this.content == content && this.tag == tag && this.storage == storage
      ensures this.lock == lock && this.callback == callback
    {
      this.content := content;
      this.tag := tag;
      this.storage := storage;
      this.lock := lock;
      this.callback := callback;
    }

    /** The body of the loop of `run()` for one matched element: unless its
        line is in the ledger, record the line under the lock, then hand the
        element's record to the callback. */
    method Visit(ev: Event)
      modifies storage, callback
      ensures storage.lines == old(storage.lines) + {ev.sourceline}
      ensures callback.records
           == old(callback.records)
              + (if ev.sourceline in old(storage.lines) then [] else [ToDict(ev.element)])
    {
      var parsed := storage.IsParsed(ev.sourceline);
      if !parsed {
        // only the `add` is made under the lock
        storage.Add(ev.sourceline);
        var r := Shape(ev.element);
        callback.GetRecord(r);
      }
    }

    /** `run()`: every matched element whose line is not yet in the ledger is
        added to it and its record handed to the callback; the ledger ends up
        holding every matched line, delivered or skipped. */
    method Run()
      modifies storage, callback
      ensures storage.lines == old(storage.lines) + Lines(Matched(content, tag))
      ensures callback.records
           == old(callback.records) + ShapeAll(Delivered(Matched(content, tag), old(storage.lines)))
    {
      ghost var seen := storage.lines;
      ghost var received := callback.records;
      ghost var ms: seq<Event> := [];
      var i := 0;
      while i < |content|
        invariant 0 <= i <= |content|
        invariant ms == Matched(content[..i], tag)
        invariant storage.lines == Scanned(ms, seen).ledger
        invariant callback.records == received + ShapeAll(Scanned(ms, seen).delivered)
      {
        var ev := content[i];
        if ev.element.tag == tag {
          MatchedTag(content, i, tag);
          ShapeScannedSnoc(ms, ev, seen);
          Visit(ev);
          ms := ms + [ev];
        } else {
          MatchedOther(content, i, tag);
        }
        i := i + 1;
      }
      ScannedLedger(ms, seen);
      PrefixAll(content);
    }
  }
}
