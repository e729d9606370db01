/** The settings of a run: the defaults, `extend` as a dict update, the
    fail-fast check of `__prepare`, and the lock and worker count that
    `__fetch_records` derives from them. */
module Config {
  import Xml

  /** The Python values a setting can hold in this model. */
  datatype Value = None | Str(s: string) | Int(i: int) | Bool(b: bool)

  type Settings = map<string, Value>

  /** Python truthiness: `None`, `''`, `0` and `False` are false. */
  predicate Truthy(v: Value) {
    match v
    case None => false
    case Str(s) => s != ""
    case Int(i) => i != 0
    case Bool(b) => b
  }

  datatype ConfigError =
    | NoSource       // 'No source specified'
    | NoTag          // 'No root tag specified'
    | SourceNotStr   // AttributeError from urlparse() on a non-string source
    | ThreadsNotInt  // TypeError from range() on a non-integer thread count

  datatype Outcome = Pass | Fail(error: ConfigError)

  datatype Result<+T> = Ok(value: T) | Err(error: ConfigError)

  /** `Lock()` or `DummyLock()`. */
  datatype LockKind = RealLock | DummyLock

  /** The class-level defaults. */
  function Defaults(): (d: Settings)
    ensures d.Keys == {"source", "tag", "threads", "with_lock"}
    ensures !Truthy(d["source"]) && !Truthy(d["tag"])
    ensures d["threads"] == Int(1) && d["with_lock"] == Bool(true)
  {
    map["source" := None, "tag" := None, "threads" := Int(1), "with_lock" := Bool(true)]
  }

  /** Every key the defaults define is present, so the lookups of
      `__prepare` and `__fetch_records` cannot fail. */
  predicate HasDefaults(s: Settings) {
    Defaults().Keys <= s.Keys
  }

  /** `settings.update(given)`: exactly the given keys take the given values,
      every other key keeps its value. */
  function Merge(current: Settings, given: Settings): (r: Settings)
    ensures r.Keys == current.Keys + given.Keys
    ensures forall k :: k in given ==> r[k] == given[k]
    ensures forall k :: k in current && k !in given ==> r[k] == current[k]
    ensures HasDefaults(current) ==> HasDefaults(r)
  {
    current + given
  }

  /** The checks at the head of `__prepare`: the source first, then the tag. */
  function Validate(s: Settings): (r: Outcome)
    requires HasDefaults(s)
    ensures r == Fail(NoSource) <==> !Truthy(s["source"])
    ensures r == Fail(NoTag) <==> Truthy(s["source"]) && !Truthy(s["tag"])
    ensures r == Pass <==> Truthy(s["source"]) && Truthy(s["tag"])
  {
    if !Truthy(s["source"]) then Fail(NoSource)
    else if !Truthy(s["tag"]) then Fail(NoTag)
    else Pass
  }

  /** `Lock() if with_lock else DummyLock()`. */
  function ChooseLock(withLock: Value): (k: LockKind)
    ensures k == RealLock <==> Truthy(withLock)
  {
    if Truthy(withLock) then RealLock else DummyLock
  }

  /** The number of iterations of `range(threads)`: a negative count gives
      none, a Python bool counts as 0 or 1, anything else raises. */
  function WorkerCount(threads: Value): (r: Result<nat>)
    ensures r.Err? <==> !(threads.Int? || threads.Bool?)
    ensures threads.Int? ==> r == Ok(if threads.i > 0 then threads.i else 0)
    ensures threads.Bool? ==> r == Ok(if threads.b then 1 else 0)
  {
    match threads
    case Int(i) => Ok(if i > 0 then i else 0)
    case Bool(b) => Ok(if b then 1 else 0)
    case _ => Err(ThreadsNotInt)
  }

  /** The tag as lxml can match it: a string tag; any other truthy value
      makes `iterparse` raise inside each worker. */
  function TagName(tag: Value): (t: Xml.Option<string>)
    ensures tag.Str? ==> t == Xml.Some(tag.s)
    ensures !tag.Str? ==> t.None?
  {
    if tag.Str? then Xml.Some(tag.s) else Xml.None
  }

  /** What a run is started with once the settings are accepted. */
  datatype RunPlan = RunPlan(tag: Xml.Option<string>, lock: LockKind, workers: nat)

  /** The settings as `start()` consumes them: the `__prepare` checks, the
      resolution of the source (only a string can be parsed as a URL), then
      the lock and the thread count of `__fetch_records`. */
  function Plan(s: Settings): (r: Result<RunPlan>)
    requires HasDefaults(s)
    ensures r == Err(NoSource) <==> !Truthy(s["source"])
    ensures r == Err(NoTag) <==> Truthy(s["source"]) && !Truthy(s["tag"])
    ensures r == Err(SourceNotStr) <==> Validate(s) == Pass && !s["source"].Str?
    ensures r == Err(ThreadsNotInt) <==>
      Validate(s) == Pass && s["source"].Str? && WorkerCount(s["threads"]).Err?
    ensures r.Ok? ==> Validate(s) == Pass && s["source"].Str? && WorkerCount(s["threads"]).Ok?
    ensures r.Ok? ==> r.value.workers == WorkerCount(s["threads"]).value
    ensures r.Ok? ==> (r.value.lock == RealLock <==> Truthy(s["with_lock"]))
    ensures r.Ok? ==> (r.value.tag.Some? <==> s["tag"].Str?)
    ensures r.Ok? ==> r.value.tag == TagName(s["tag"])
    ensures r.Ok? && s["tag"].Str? ==> r.value.tag == Xml.Some(s["tag"].s)
  {
    match Validate(s)
    case Fail(e) => Err(e)
    case Pass =>
      if !s["source"].Str? then Err(SourceNotStr)
      else
      match WorkerCount(s["threads"])
      case Err(e) => Err(e)
      case Ok(n) => Ok(RunPlan(TagName(s["tag"]), ChooseLock(s["with_lock"]), n))
  }

  /** With the defaults alone, a run is refused for want of a source; once a
      source and a tag are given, a run has one worker behind a real lock. */
  lemma DefaultPlan(source: string, tag: string)
    requires source != "" && tag != ""
    ensures Plan(Defaults()) == Err(NoSource)
    ensures Plan(Merge(Defaults(), map["tag" := Str(tag)])) == Err(NoSource)
    ensures Plan(Merge(Defaults(), map["source" := Str(source)])) == Err(NoTag)
    ensures Plan(Merge(Defaults(), map["source" := Str(source), "tag" := Str(tag)]))
         == Ok(RunPlan(Xml.Some(tag), RealLock, 1))
  {
  }
}
