/** The entry point (`Luthor`): its settings, `extend`, and `start`, which
    checks the settings, creates the ledger and runs the configured number
    of workers over the document, one after another. */
module Coordinator {
  import opened Xml
  import opened Shaper
  import opened Ledger
  import opened Scan
  import opened Config
  import opened Fetch

  /** What a whole run hands to the callback: with at least one worker and a
      string tag, the record of the first matched element on every line, in
      document order; otherwise nothing. */
  function Delivery(events: seq<Event>, plan: RunPlan): (rs: seq<Record>)
    ensures !(plan.workers > 0 && plan.tag.Some?) ==> rs == []
    ensures plan.workers > 0 && plan.tag.Some? ==>
      |rs| == |Lines(Matched(events, plan.tag.value))|
  {
    if plan.workers > 0 && plan.tag.Some? then
      var ms := Matched(events, plan.tag.value);
      DedupCount(ms, {});
      DeliveredIsDedup(ms, {});
      DeliveredLines(ms, {});
      ShapeAll(Dedup(ms, {}))
    else []
  }

  /** The lines the ledger holds after a whole run: exactly the lines of the
      elements delivered. */
  function FinalLedger(events: seq<Event>, plan: RunPlan): (lines: set<int>)
    ensures !(plan.workers > 0 && plan.tag.Some?) ==> lines == {}
    ensures plan.workers > 0 && plan.tag.Some? ==>
      lines == Lines(Dedup(Matched(events, plan.tag.value), {}))
  {
    if plan.workers > 0 && plan.tag.Some? then
      var ms := Matched(events, plan.tag.value);
      DeliveredIsDedup(ms, {});
      DeliveredLines(ms, {});
      Lines(ms)
    else {}
  }

  /** Dedup keeps one event per distinct line, so it is as long as the set of
      its lines is large. */
  lemma {:induction false} DedupCount(ms: seq<Event>, seen: set<int>)
    ensures |Lines(Dedup(ms, seen))| == |Dedup(ms, seen)|
  {
    if ms == [] {
      assert Lines([]) == {};
    } else if ms[0].sourceline in seen {
      DedupCount(ms[1..], seen);
    } else {
      var x := ms[0];
      var rest := Dedup(ms[1..], seen + {x.sourceline});
      DedupCount(ms[1..], seen + {x.sourceline});
      LinesAppend([x], rest);
      assert Lines([x]) == {x.sourceline};
      assert x.sourceline !in Lines(rest);
    }
  }

  /** Of the elements the tag matches, a whole run delivers exactly one per
      source line, taken from the stream, and the ledger then holds exactly
      the delivered lines. */
  lemma DeliveryPerLine(events: seq<Event>, tag: string)
    ensures Lines(Dedup(Matched(events, tag), {})) == Lines(Matched(events, tag))
    ensures forall i, j :: 0 <= i < j < |Dedup(Matched(events, tag), {})| ==>
      Dedup(Matched(events, tag), {})[i].sourceline != Dedup(Matched(events, tag), {})[j].sourceline
    ensures forall e :: e in Dedup(Matched(events, tag), {}) ==> e in events && e.element.tag == tag
  {
    var ms := Matched(events, tag);
    DeliveredIsDedup(ms, {});
    DeliveredLines(ms, {});
    DeliveredOnce(ms, {});
    DeliveredFromStream(ms, {});
    MatchedFilter(events, tag);
  }

  /** Two matched elements on one source line give one delivery: in the
      one-line document `<shop><item sku="1">A</item><item sku="2">B</item></shop>`
      only the first `item` is handed over. */
  lemma OneLineShop()
    ensures
      var first := Element("item", map["sku" := "1"], Some("A"), []);
      var second := Element("item", map["sku" := "2"], Some("B"), []);
      var shop := Element("shop", map[], Option.None, [first, second]);
      var events := [Event(1, first), Event(1, second), Event(1, shop)];
      Delivery(events, RunPlan(Some("item"), RealLock, 1)) == [ToDict(first)]
  {
    var first := Element("item", map["sku" := "1"], Some("A"), []);
    var second := Element("item", map["sku" := "2"], Some("B"), []);
    var shop := Element("shop", map[], Option.None, [first, second]);
    var events := [Event(1, first), Event(1, second), Event(1, shop)];
    var one, two := [Event(1, first)], [Event(1, first), Event(1, second)];
    assert one[..0] == [] && two[..1] == one && events[..2] == two;
    assert Matched(one, "item") == one;
    assert Matched(two, "item") == two;
    assert Matched(events, "item") == two;
    var ms := [Event(1, first), Event(1, second)];
    assert ms[1..] == [Event(1, second)];
    assert Dedup(ms, {}) == [Event(1, first)];
    assert [Event(1, first)][..0] == [];
  }

  class Luthor {
    /** `_settings`. */
    var settings: Settings
    /** `_storage`, created by each `start`. */
    var storage: SyncStorage?

    /** The four default keys are never removed, since `extend` only adds
        and overwrites. */
    ghost predicate Valid()
      reads this
    {
      HasDefaults(settings)
    }

    constructor ()
      ensures Valid()
      ensures settings == Defaults() && storage == null
    {
      settings := Defaults();
      storage := null;
    }

    /** `extend(given)`. */
    method Extend(given: Settings)
      modifies this
      ensures settings == Merge(old(settings), given)
      ensures storage == old(storage)
      ensures old(Valid()) ==> Valid()
    {
      settings := settings + given;
    }

    /** `start()`: the checks of `__prepare` (raising before anything is
        created), a fresh ledger, the resolution of the source (raising on a
        non-string), then `__fetch_records`: the lock, the
        thread count (raising on a non-integer), and one worker per count,
        each scanning the whole document with the shared ledger. A worker
        whose tag is not a string raises inside its thread and delivers
        nothing. */
    method Start(events: seq<Event>, consumer: Consumer) returns (outcome: Outcome)
      requires Valid()
      modifies this, consumer
      ensures settings == old(settings)
      ensures Plan(settings).Err? ==> outcome == Fail(Plan(settings).error)
      ensures Plan(settings).Ok? ==> outcome == Pass
      ensures Validate(settings).Fail? ==> storage == old(storage)
      ensures Validate(settings) == Pass ==> storage != null && fresh(storage)
      ensures Plan(settings).Err? ==> consumer.records == old(consumer.records)
      ensures Plan(settings) == Err(SourceNotStr) ==> storage != null && storage.lines == {}
      ensures Plan(settings) == Err(ThreadsNotInt) ==> storage != null && storage.lines == {}
      ensures Plan(settings).Ok? ==>
        storage != null && storage.lines == FinalLedger(events, Plan(settings).value)
      ensures Plan(settings).Ok? ==>
        consumer.records == old(consumer.records) + Delivery(events, Plan(settings).value)
    {
      var checked := Validate(settings);
      if checked.Fail? {
        return checked;
      }
      var st := new SyncStorage();
      storage := st;
      if !settings["source"].Str? {
        return Fail(SourceNotStr);
      }
      var lock := ChooseLock(settings["with_lock"]);
      var count := WorkerCount(settings["threads"]);
      if count.Err? {
        return Fail(count.error);
      }
      var tag := TagName(settings["tag"]);
      ghost var plan := RunPlan(tag, lock, count.value);
      assert Plan(settings) == Ok(plan);
      ghost var received := consumer.records;
      var k := 0;
      while k < count.value
        invariant 0 <= k <= count.value
        invariant storage == st && settings == old(settings)
        invariant st.lines == FinalLedger(events, RunPlan(tag, lock, k))
        invariant consumer.records == received + Delivery(events, RunPlan(tag, lock, k))
      {
        if tag.Some? {
          var f := new Fetcher.Setup(events, tag.value, st, lock, consumer);
          ghost var ms := Matched(events, tag.value);
          ghost var before := st.lines;
          f.Run();
          DeliveredIsDedup(ms, before);
          if k > 0 {
            RescanDeliversNothing(ms, before);
          } else {
            assert before == {};
          }
        }
        k := k + 1;
      }
      outcome := Pass;
    }
  }
}
