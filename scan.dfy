/** What one worker's scan of the event stream delivers, as functions of the
    events and of the ledger it starts from, and the properties of the
    at-most-once-per-line scheme proved about them. */
module Scan {
  import opened Xml

  /** The events that `iterparse(content, tag=tag)` yields: the end events of
      the elements carrying the target tag, in document order. */
  function Matched(evs: seq<Event>, tag: string): seq<Event>
  {
    if evs == [] then []
    else
      var last := evs[|evs| - 1];
      Matched(evs[..|evs| - 1], tag) + (if last.element.tag == tag then [last] else [])
  }

  /** The matched events are exactly the events of the stream that carry the
      target tag, and there are no more of them than events. */
  lemma {:induction false} MatchedFilter(evs: seq<Event>, tag: string)
    ensures |Matched(evs, tag)| <= |evs|
    ensures forall e :: e in Matched(evs, tag) <==> e in evs && e.element.tag == tag
  {
    if evs != [] {
      var last := evs[|evs| - 1];
      assert evs == evs[..|evs| - 1] + [last];
      MatchedFilter(evs[..|evs| - 1], tag);
    }
  }

  /** The source lines of a sequence of events. */
  function Lines(ms: seq<Event>): set<int>
  {
    set e | e in ms :: e.sourceline
  }

  lemma LinesAppend(a: seq<Event>, b: seq<Event>)
    ensures Lines(a + b) == Lines(a) + Lines(b)
  {
    assert forall e :: e in a + b <==> e in a || e in b;
  }

  /** What a worker's scan produces: the events handed to the callback, in
      order, and the ledger afterwards. */
  datatype Tally = Tally(delivered: seq<Event>, ledger: set<int>)

  /** The scan of the matched events `ms` starting from ledger `seen`: each
      event whose line is not in the ledger is delivered and its line added;
      an event whose line is already there is skipped. */
  function Scanned(ms: seq<Event>, seen: set<int>): (t: Tally)
    ensures |t.delivered| <= |ms|
    ensures seen <= t.ledger
  {
    if ms == [] then Tally([], seen)
    else
      var t := Scanned(ms[..|ms| - 1], seen);
      var e := ms[|ms| - 1];
      if e.sourceline in t.ledger then t
      else Tally(t.delivered + [e], t.ledger + {e.sourceline})
  }

  /** The events the scan delivers. */
  function Delivered(ms: seq<Event>, seen: set<int>): (d: seq<Event>)
    ensures |d| <= |ms|
  {
    Scanned(ms, seen).delivered
  }

  /** After the scan the ledger holds its initial lines plus every matched
      line, whether delivered or skipped. */
  lemma {:induction false} ScannedLedger(ms: seq<Event>, seen: set<int>)
    ensures Scanned(ms, seen).ledger == seen + Lines(ms)
  {
    if ms == [] {
      assert Lines(ms) == {};
    } else {
      var prior := ms[..|ms| - 1];
      var e := ms[|ms| - 1];
      assert ms == prior + [e];
      ScannedLedger(prior, seen);
      LinesAppend(prior, [e]);
      assert Lines([e]) == {e.sourceline};
    }
  }

  /** Scanning one more matched event: it is delivered exactly when its
      line is not yet in the ledger. */
  lemma DeliveredSnoc(ms: seq<Event>, ev: Event, seen: set<int>)
    ensures Delivered(ms + [ev], seen)
         == Delivered(ms, seen) + (if ev.sourceline in seen + Lines(ms) then [] else [ev])
  {
    assert (ms + [ev])[..|ms|] == ms;
    ScannedLedger(ms, seen);
  }

  /** Reference definition: keep, front to back, each event whose line has
      not been seen yet, and remember its line. */
  function Dedup(ms: seq<Event>, seen: set<int>): (d: seq<Event>)
    ensures |d| <= |ms|
    ensures forall i :: 0 <= i < |d| ==> d[i].sourceline !in seen
  {
    if ms == [] then []
    else if ms[0].sourceline in seen then Dedup(ms[1..], seen)
    else [ms[0]] + Dedup(ms[1..], seen + {ms[0].sourceline})
  }

  lemma {:induction false} DedupAppend(a: seq<Event>, b: seq<Event>, seen: set<int>)
    ensures Dedup(a + b, seen) == Dedup(a, seen) + Dedup(b, seen + Lines(a))
  {
    if a == [] {
      assert a + b == b;
      assert Lines(a) == {};
      assert seen + Lines(a) == seen;
    } else {
      var x := a[0];
      assert (a + b)[0] == x;
      assert (a + b)[1..] == a[1..] + b;
      assert a == [x] + a[1..];
      LinesAppend([x], a[1..]);
      assert Lines([x]) == {x.sourceline};
      if x.sourceline in seen {
        DedupAppend(a[1..], b, seen);
        assert seen + Lines(a) == seen + Lines(a[1..]);
      } else {
        DedupAppend(a[1..], b, seen + {x.sourceline});
        assert seen + Lines(a) == seen + {x.sourceline} + Lines(a[1..]);
      }
    }
  }

  /** The scan delivers exactly what front-to-back dedup keeps: the first
      event of every line not already in the ledger, in document order;
      a later event on a line already seen is skipped. */
  lemma {:induction false} DeliveredIsDedup(ms: seq<Event>, seen: set<int>)
    ensures Delivered(ms, seen) == Dedup(ms, seen)
  {
    if ms != [] {
      var prior := ms[..|ms| - 1];
      var e := ms[|ms| - 1];
      assert ms == prior + [e];
      DeliveredSnoc(prior, e, seen);
      DeliveredIsDedup(prior, seen);
      DedupAppend(prior, [e], seen);
      assert [e][1..] == [];
    }
  }

  /** The lines delivered are exactly the matched lines that were not in
      the ledger beforehand. */
  lemma {:induction false} DeliveredLines(ms: seq<Event>, seen: set<int>)
    ensures Lines(Delivered(ms, seen)) == Lines(ms) - seen
  {
    if ms != [] {
      var prior := ms[..|ms| - 1];
      var e := ms[|ms| - 1];
      assert ms == prior + [e];
      DeliveredSnoc(prior, e, seen);
      DeliveredLines(prior, seen);
      LinesAppend(prior, [e]);
      assert Lines([e]) == {e.sourceline};
      var tail := if e.sourceline in seen + Lines(prior) then [] else [e];
      LinesAppend(Delivered(prior, seen), tail);
      assert Lines([]) == {};
    }
  }

  /** An event with the target tag is matched after those before it. */
  lemma MatchedTag(evs: seq<Event>, i: nat, tag: string)
    requires i < |evs| && evs[i].element.tag == tag
    ensures Matched(evs[..i + 1], tag) == Matched(evs[..i], tag) + [evs[i]]
  {
    assert evs[..i + 1][..i] == evs[..i];
  }

  /** An event with another tag is not matched. */
  lemma MatchedOther(evs: seq<Event>, i: nat, tag: string)
    requires i < |evs| && evs[i].element.tag != tag
    ensures Matched(evs[..i + 1], tag) == Matched(evs[..i], tag)
  {
    assert evs[..i + 1][..i] == evs[..i];
  }

  /** One step of the scan over a matched event. */
  lemma ScannedSnoc(ms: seq<Event>, ev: Event, seen: set<int>)
    ensures Scanned(ms + [ev], seen)
         == if ev.sourceline in Scanned(ms, seen).ledger then Scanned(ms, seen)
            else Tally(Scanned(ms, seen).delivered + [ev], Scanned(ms, seen).ledger + {ev.sourceline})
  {
    assert (ms + [ev])[..|ms|] == ms;
  }

  /** At most once per line: no line is delivered twice, and no delivered
      line was in the ledger beforehand. */
  lemma {:induction false} DeliveredOnce(ms: seq<Event>, seen: set<int>)
    ensures forall i :: 0 <= i < |Delivered(ms, seen)| ==> Delivered(ms, seen)[i].sourceline !in seen
    ensures forall i, j :: 0 <= i < j < |Delivered(ms, seen)| ==>
      Delivered(ms, seen)[i].sourceline != Delivered(ms, seen)[j].sourceline
  {
    if ms != [] {
      var prior := ms[..|ms| - 1];
      var e := ms[|ms| - 1];
      assert ms == prior + [e];
      DeliveredSnoc(prior, e, seen);
      DeliveredOnce(prior, seen);
      DeliveredLines(prior, seen);
      var d := Delivered(prior, seen);
      assert forall i :: 0 <= i < |d| ==> d[i].sourceline in Lines(d);
    }
  }

  /** Every delivered event is one of the matched events. */
  lemma {:induction false} DeliveredFromStream(ms: seq<Event>, seen: set<int>)
    ensures forall e :: e in Delivered(ms, seen) ==> e in ms
  {
    if ms != [] {
      var prior := ms[..|ms| - 1];
      assert ms == prior + [ms[|ms| - 1]];
      DeliveredSnoc(prior, ms[|ms| - 1], seen);
      DeliveredFromStream(prior, seen);
      assert forall e :: e in prior ==> e in ms;
    }
  }

  /** Scanning a prefix of the events delivers a prefix of what scanning all
      of them delivers. */
  lemma {:induction false} DeliveredPrefix(p: seq<Event>, ms: seq<Event>, seen: set<int>)
    requires p <= ms
    ensures Delivered(p, seen) <= Delivered(ms, seen)
    decreases |ms|
  {
    if p != ms {
      var prior := ms[..|ms| - 1];
      assert p <= prior;
      assert ms == prior + [ms[|ms| - 1]];
      DeliveredSnoc(prior, ms[|ms| - 1], seen);
      DeliveredPrefix(p, prior, seen);
    }
  }

  /** The events matched in a prefix of the stream are a prefix of the
      events matched in the whole stream. */
  lemma {:induction false} MatchedPrefix(evs: seq<Event>, k: nat, tag: string)
    requires k <= |evs|
    ensures Matched(evs[..k], tag) <= Matched(evs, tag)
    decreases |evs|
  {
    if k < |evs| {
      var prior := evs[..|evs| - 1];
      assert evs[..k] == prior[..k];
      MatchedPrefix(prior, k, tag);
    } else {
      assert evs[..k] == evs;
    }
  }

  /** A stream cut short by a syntax error after its first `k` events
      delivers a prefix of what the whole well-formed stream delivers. */
  lemma TruncatedScan(evs: seq<Event>, k: nat, tag: string, seen: set<int>)
    requires k <= |evs|
    ensures Delivered(Matched(evs[..k], tag), seen) <= Delivered(Matched(evs, tag), seen)
  {
    MatchedPrefix(evs, k, tag);
    DeliveredPrefix(Matched(evs[..k], tag), Matched(evs, tag), seen);
  }

  /** A scan that starts from a ledger already holding every matched line
      delivers nothing: a second worker over the same document after the
      first has finished. */
  lemma {:induction false} RescanDeliversNothing(ms: seq<Event>, seen: set<int>)
    requires Lines(ms) <= seen
    ensures Delivered(ms, seen) == []
  {
    if ms != [] {
      var prior := ms[..|ms| - 1];
      var e := ms[|ms| - 1];
      assert ms == prior + [e];
      LinesAppend(prior, [e]);
      assert e.sourceline in Lines([e]);
      DeliveredSnoc(prior, e, seen);
      RescanDeliversNothing(prior, seen);
    }
  }
}
