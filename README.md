# luthor, modelled in Dafny

Luthor is a small Python library for pulling records out of an XML
document. It works like this:

- The user names a source (a file path or a URL) and a record tag, and
  overrides a `get_record` hook.
- On `start()`, one or more worker threads stream the document with
  `lxml.etree.iterparse`.
- A shared ledger (`SyncStorage`) holds the source line of every element
  already handed over. A worker skips an element whose line is in the
  ledger. Otherwise it records the line, under a lock, and hands the
  element's record to the hook.
- The ledger is keyed by source line, not by element. Two matched
  elements on one line give one delivery: the one-line document
  `<shop><item sku="1">A</item><item sku="2">B</item></shop>` with tag
  `item` yields one record, for the first `item` (`OneLineShop`).
- A record is a nested dict. It holds the element's attributes, its
  children grouped by tag, and its stripped text.

The model has these modules:

- `Xml`: the data the tokenizer produces. An `Element` tree, and an
  `Event` that pairs an element with the source line lxml reports for it.
- `Seqs`: two facts about sequence prefixes, used by the loops and
  recursions over children and events.
- `Shaper`: the conversion of an element into a record (`__to_dict`), and
  Python's `str.strip()` on which it relies.
  - `ToDict` is the functional specification.
  - `Shape` is the loop the source runs, proved equal to it.
  - Lemmas show what the `children` dict contains.
- `Ledger`: the `SyncStorage` class, a set of line numbers.
- `Scan`: what one worker's scan delivers, as `Scanned` and `Delivered`,
  functions of the matched events and of the starting ledger. Properties
  proved about them:
  - at most one delivery per line;
  - equality with a front-to-back dedup reference (`Dedup`);
  - the ledger it leaves behind;
  - the prefix it yields when a syntax error cuts the stream short;
  - the empty second scan.
- `Config`: the settings dict and the decisions made from it:
  - the defaults;
  - `extend` as a dict update;
  - the two checks of `__prepare`;
  - the failure of `urlparse` on a source that is not a string;
  - the choice of lock;
  - the number of iterations of `range(threads)`.
- `Fetch`: the `Fetcher` worker. `Visit` is the body of the loop in
  `run()`, and `Run` is the loop itself. `Run` is proved against the scan
  specification.
- `Coordinator`: the `Luthor` class with `extend` and `start`. `start` is
  proved to hand over the first record of every matched line, in document
  order, exactly once, or to fail with the error the source raises.

Some things are parameters of the model:

- The document is a parameter of `Start`: the sequence of events the
  tokenizer yields for it. A syntax error makes the worker stop quietly,
  so it is a shorter sequence.
- The hook is a `Consumer` object that appends each record it receives.

Workers run one after another. Each one scans the whole sequence with the
shared ledger. `RescanDeliversNothing` shows that every worker after the
first delivers nothing.

## Model

| member | source | states |
|---|---|---|
| `Config.Defaults` | luthor.py:17-22 | the default settings have exactly the keys source, tag, threads and with_lock; source and tag start empty, threads is 1 and with_lock is true |
| `Config.Merge` | luthor.py:24-30 | `update`: the result has the union of the keys; exactly the given keys take the given values; every other key keeps its value; the four default keys stay present |
| `Config.Validate` | luthor.py:56-59 | the source is checked first; a falsy source fails with 'No source specified' whatever the tag; a truthy source with a falsy tag fails with 'No root tag specified'; both truthy is the only way to pass |
| `Config.ChooseLock` | luthor.py:78 | a real lock exactly when with_lock is truthy, else the dummy lock |
| `Config.WorkerCount` | luthor.py:83 | `range(threads)`: max(n, 0) iterations for an integer; 0 or 1 for a bool; a TypeError for any other value |
| `Config.TagName` | luthor.py:125 | a string tag is passed to the matcher as that very string; any other value matches nothing, since the worker raises before its first element |
| `Config.Plan` | luthor.py:56-93 | start's decisions in source order: each of the four errors occurs exactly under its condition (no source; no tag; a source that is not a string once both checks pass, which `urlparse` rejects at line 65; a non-integer thread count once the source is a string); on acceptance, the worker count, the lock, and the tag handed to every worker, which is the configured string when it is one |
| `Config.DefaultPlan` | luthor.py:17-22 | the defaults alone are refused for want of a source; a tag alone is refused the same way; a source alone is refused for want of a tag; a source and a tag give one worker behind a real lock |
| `Ledger.SyncStorage.constructor` | luthor.py:160-161 | a new ledger is empty |
| `Ledger.SyncStorage.Add` | luthor.py:163-169 | afterwards the value is present; a present value leaves the set unchanged; no other value's membership changes |
| `Ledger.SyncStorage.IsParsed` | luthor.py:171-177 | true exactly when the value has been added |
| `Shaper.LeadingSpaces` | luthor.py:152 | the length of the longest all-whitespace prefix: all its characters are whitespace and the next one is not |
| `Shaper.TrailingSpaces` | luthor.py:152 | the length of the longest all-whitespace suffix: all its characters are whitespace and the one before it is not |
| `Shaper.Strip` | luthor.py:152 | `str.strip()`: the result is a slice of the input; everything cut off on either side is whitespace; the result neither starts nor ends with whitespace; it is empty exactly when the input is all whitespace |
| `Shaper.Content` | luthor.py:152 | the content is "" for a missing text and the stripped text otherwise; it never starts or ends with whitespace |
| `Shaper.ToDict` | luthor.py:137-153 | the record's attributes are the element's attribute map, and its content is the stripped text |
| `Shaper.Shape` | luthor.py:137-153 | the dict-filling loop over the children, recursing on each child, returns exactly the record `ToDict` specifies |
| `Shaper.GroupKeys` | luthor.py:143-147 | after any number of children, the children dict has one key per tag seen so far and no empty list |
| `Shaper.GroupIsFilter` | luthor.py:143-147 | each list in the children dict holds the records of exactly the children with that tag, in document order; a tag no child carries has no entry |
| `Shaper.GroupTotal` | luthor.py:143-147 | the list lengths in the children dict sum to the number of children visited |
| `Shaper.ChildrenOfRecord` | luthor.py:137-153 | a record's children dict has one non-empty group per distinct child tag; the group sizes sum to the number of direct children; each group is the records of that tag's children in order |
| `Scan.MatchedFilter` | luthor.py:125 | `iterparse(tag=...)` with a plain tag (no wildcard), as string equality: the matched events are the stream's events whose element tag equals the tag, and there are no more of them than events |
| `Scan.Scanned` | luthor.py:126-131 | the worker's loop over the matched events as a function: it never delivers more events than were matched, and it never removes a line from the ledger |
| `Scan.Delivered` | luthor.py:126-131 | the events handed over, no more than were matched; which events they are is stated by `Scan.DeliveredIsDedup` and `Scan.DeliveredLines` |
| `Scan.Dedup` | luthor.py:126-131 | the reference for one scan, keeping the first event of each new line from front to back: no longer than its input, and no kept line was seen before |
| `Scan.ScannedLedger` | luthor.py:126-129 | after a scan the ledger holds its initial lines plus every matched line, whether delivered or skipped |
| `Scan.DeliveredSnoc` | luthor.py:126-131 | one more matched element is delivered exactly when its line is neither in the initial ledger nor on an earlier matched element |
| `Scan.DeliveredIsDedup` | luthor.py:123-135 | the scan delivers exactly what front-to-back dedup keeps: the first element of every line not already in the ledger, in document order |
| `Scan.DeliveredLines` | luthor.py:126-131 | the lines delivered are exactly the matched lines that were not in the ledger beforehand |
| `Scan.DeliveredOnce` | luthor.py:126-131 | within one scan, no delivered line was in the ledger beforehand and no line is delivered twice |
| `Scan.DeliveredFromStream` | luthor.py:125-131 | every delivered event is one of the matched events |
| `Scan.DeliveredPrefix` | luthor.py:123-135 | scanning a prefix of the matched events delivers a prefix of what scanning all of them delivers |
| `Scan.MatchedPrefix` | luthor.py:125 | the events matched in a prefix of the stream are a prefix of those matched in the whole stream |
| `Scan.TruncatedScan` | luthor.py:123-135 | a stream cut short by a syntax error, which is caught and ignored, delivers a prefix of what the well-formed stream delivers |
| `Scan.RescanDeliversNothing` | luthor.py:126 | a scan whose ledger already holds every matched line delivers nothing |
| `Scan.DedupAppend` | luthor.py:126-131 | dedup of a concatenation is the dedup of the first part followed by the dedup of the second against everything seen in the first |
| `Fetch.ShapeAll` | luthor.py:131 | one record per delivered event, in order: the record at each position is `ToDict` of the element delivered at that position |
| `Fetch.Consumer.GetRecord` | luthor.py:41-48 | the overridden hook records each record it receives, appending it |
| `Fetch.Fetcher.Setup` | luthor.py:106-116 | the worker keeps exactly the content, tag, ledger, lock and callback it is given |
| `Fetch.Fetcher.Visit` | luthor.py:126-131 | for one matched element: the line is in the ledger afterwards, and the element's record is handed to the callback exactly when its line was not in the ledger before |
| `Fetch.Fetcher.Run` | luthor.py:118-135 | the ledger ends up holding the initial lines plus every matched line; the callback receives, in order, the records of the elements the scan specification delivers from the initial ledger |
| `Coordinator.Delivery` | luthor.py:83-135 | what a whole run hands over during `start()`: nothing with no workers or a non-string tag, otherwise one record per distinct matched source line |
| `Coordinator.FinalLedger` | luthor.py:83-135 | the ledger after a whole run: empty with no workers or a non-string tag, otherwise exactly the lines of the delivered elements |
| `Coordinator.DedupCount` | luthor.py:126-131 | the dedup keeps exactly one event per line it keeps, so its length equals the number of its lines |
| `Coordinator.OneLineShop` | luthor.py:126 | two `item` elements on one source line give a single record, the first one's |
| `Coordinator.DeliveryPerLine` | luthor.py:118-135 | over a whole run, exactly one element per matched source line is delivered; no line is delivered twice; every delivered element carries the tag and comes from the stream |
| `Coordinator.Luthor.constructor` | luthor.py:17-22 | a new instance has the default settings and no ledger yet |
| `Coordinator.Luthor.Extend` | luthor.py:24-30 | the settings become the old settings updated with the given ones, and the default keys stay present |
| `Coordinator.Luthor.Start` | luthor.py:32-96 | the outcome is the error `Plan` names, in source order, or success. If validation fails, no ledger is created and nothing is delivered. A source that is not a string, and then a non-integer thread count, each fail after a fresh, empty ledger has been created and before any worker runs. On success the ledger is fresh and ends with every matched line. During the run, the callback is called with each line's first matched record, in order, once per run, as the record stands at the moment of the call; with no workers or a non-string tag it is not called |

## Left out

- Threads and locks are not modelled as concurrency. Workers run one
  after another, and the lock choice is computed but has no effect.
  Across truly concurrent workers the `is_parsed` test (luthor.py:126)
  sits outside the lock (luthor.py:128). Two workers can then both
  deliver the same line, so at-most-once delivery is proved only for the
  sequential run.
- `DummyLock` (luthor.py:180-194) is represented only by `LockKind.DummyLock`.
  Its methods do nothing, so there is nothing to state about them.
- Resolving the source is left out, because it is I/O: `urlparse`,
  `urlopen` and `abspath` (luthor.py:65-68). The document is given to
  `Start` as the tokenizer's event sequence. A URL response is a single
  stream that the first worker consumes, so later workers deliver nothing
  from it either. The model gives the same outcome.
- The XML tokenizer is left out: lxml `iterparse` and its `XMLSyntaxError`.
  The events are a parameter, and a syntax error is a shorter sequence.
  `TruncatedScan` relates a shortened stream to the full one.
- `element.clear()` (luthor.py:133) is not modelled. Each event carries its
  element as it stood when the end tag was read. The effect of clearing
  on an enclosing element that matches later is not captured.
- `element.clear()` also empties the element's attribute map after the
  callback returns. The record's `attributes` entry is that live map
  (luthor.py:150), not a copy. A hook that keeps records therefore later
  sees an empty top-level attribute map. The model states each record as
  passed to the callback, and the `Consumer` keeps those values. The later
  emptying is not modelled.
- Only plain tags are matched, by string equality, including
  `{uri}local` tags written out in full. lxml's wildcard and
  empty-namespace filter forms (`*`, `{*}name`, `{uri}*`, `{}name`) are
  not modelled. With `*`, the source would deliver every element.
- `Shaper.Record`'s children map does not keep the order of the child
  tags. A Python dict preserves first-occurrence order (luthor.py:143-147),
  and this order is lost. The order of the records within each tag's list
  is kept.
- Comments and processing instructions are not children. `list(element)`
  would include them with a non-string tag. Only elements are children
  here.
- A non-string truthy tag makes `iterparse` raise inside each worker
  thread. That exception never reaches `start`, so such workers deliver
  nothing and `start` returns normally. `Config.TagName` models this, and
  lists or bytes as tags are not modelled.
- `Fetch.Consumer.GetRecord` stands for any override of `get_record` by
  one that appends. Other overrides, and the default `pass`, are not
  modelled.
- The `_settings` dict is shared at class level (luthor.py:17). All
  instances therefore alias the same dict, and `extend` on one changes
  them all. Each `Luthor` here has its own settings.
- The `setup.py` packaging and the test script are outside the library
  core.
