/** Scraping (openparcel/scraper.py): the state machine of one scraping
    operation and the bounded pool of running operations, run
    sequentially. The carrier's own `fetch` is an outcome given as a
    parameter, and so is `is_similar`, which base.py does not define. */
module Scraper {
  import opened Wrappers
  import opened Text

  // ---------------------------------------------------------------------
  // ScrapeOperation.State

  datatype State = Unknown | Setup | Fetching | Fetched | Scraped | Done

  /** The enum's value: `range(6)` in declaration order. */
  function Value(s: State): (v: nat)
    ensures v < 6
  {
    match s
    case Unknown => 0
    case Setup => 1
    case Fetching => 2
    case Fetched => 3
    case Scraped => 4
    case Done => 5
  }

  function FromValue(v: nat): (s: State)
    requires v < 6
    ensures Value(s) == v
  {
    if v == 0 then Unknown
    else if v == 1 then Setup
    else if v == 2 then Fetching
    else if v == 3 then Fetched
    else if v == 4 then Scraped
    else Done
  }

  /** The comparison operators compare values. */
  predicate Less(a: State, b: State) { Value(a) < Value(b) }

  predicate AtLeast(a: State, b: State) { Value(a) >= Value(b) }

  /** Values and states are in one-to-one correspondence, so `==` on
      values is `==` on states and the order is total. */
  lemma ValueBijective(a: State, b: State)
    ensures Value(a) == Value(b) <==> a == b
    ensures FromValue(Value(a)) == a
    ensures Less(a, b) || a == b || Less(b, a)
  {
    assert FromValue(Value(a)) == a by {
      match a
      case Unknown =>
      case Setup =>
      case Fetching =>
      case Fetched =>
      case Scraped =>
      case Done =>
    }
    assert FromValue(Value(b)) == b by {
      match b
      case Unknown =>
      case Setup =>
      case Fetching =>
      case Fetched =>
      case Scraped =>
      case Done =>
    }
  }

  /** The declared order: UNKNOWN < SETUP < FETCHING < FETCHED < SCRAPED
      < DONE. */
  lemma StatesAscend()
    ensures Less(Unknown, Setup) && Less(Setup, Fetching) && Less(Fetching, Fetched)
    ensures Less(Fetched, Scraped) && Less(Scraped, Done)
    ensures forall s :: AtLeast(s, Unknown) && AtLeast(Done, s)
  {
  }

  // ---------------------------------------------------------------------
  // ScrapeOperation

  /** The parcel an operation scrapes, as far as the pool looks at it. */
  datatype Parcel = Parcel(carrierUid: string, trackingCode: string)

  /** An exception escaping the carrier's `fetch`: a
      `ScrapingReturnedError` with its code, or any other exception. */
  datatype FetchError =
    | ScrapingReturned(code: string)
    | OtherError(name: string)

  /** Which exceptions `fetch` logs: all except a scraping error whose code
      is `ParcelNotFound` or `InvalidTrackingCode`. */
  function ShouldLog(e: FetchError): (r: bool)
    ensures !r <==> e.ScrapingReturned? && e.code in {"ParcelNotFound", "InvalidTrackingCode"}
  {
    match e
    case ScrapingReturned(code) => code != "ParcelNotFound" && code != "InvalidTrackingCode"
    case OtherError(_) => true
  }

  class ScrapeOperation {
    const baseParcel: Parcel
    const scraperName: string
    var state: State
    var exceptionRaised: Option<FetchError>
    /** The exceptions handed to `logger.warning`, in order. */
    var warnings: seq<FetchError>

    /** `__init__`: in SETUP, nothing raised, named after the lower-cased
        tracking code. */
    constructor (baseParcel: Parcel)
      ensures this.baseParcel == baseParcel
      ensures scraperName == "scraper-" + Lower(baseParcel.trackingCode)
      ensures state == Setup && exceptionRaised == None && warnings == []
    {
      this.baseParcel := baseParcel;
      scraperName := "scraper-" + Lower(baseParcel.trackingCode);
      state := Setup;
      exceptionRaised := None;
      warnings := [];
    }

    /** `set_state` */
    method SetState(s: State)
      modifies this
      ensures state == s
      ensures exceptionRaised == old(exceptionRaised) && warnings == old(warnings)
    {
      state := s;
    }

    /** `store_exception`: keeps the exception and logs it when asked to. */
    method StoreException(e: FetchError, log: bool)
      modifies this
      ensures exceptionRaised == Some(e)
      ensures warnings == old(warnings) + (if log then [e] else [])
      ensures state == old(state)
    {
      exceptionRaised := Some(e);
      if log {
        warnings := warnings + [e];
      }
    }

    /** `fetch`, with `outcome` the exception the carrier's `fetch` raises
        (`None` when it returns normally): always ends FETCHED; an exception
        is stored, and logged unless it is an expected scraping error. */
    method Fetch(outcome: Option<FetchError>)
      modifies this
      ensures state == Fetched
      ensures exceptionRaised == if outcome.Some? then outcome else old(exceptionRaised)
      ensures warnings == old(warnings) + (if outcome.Some? && ShouldLog(outcome.value) then [outcome.value] else [])
    {
      SetState(Fetching);
      if outcome.Some? {
        StoreException(outcome.value, ShouldLog(outcome.value));
      }
      SetState(Fetched);
    }

    /** `run`, sequentially: the thread runs `fetch` to completion, the
        state becomes SCRAPED, and a stored exception is raised again. */
    method Run(outcome: Option<FetchError>) returns (raised: Option<FetchError>)
      modifies this
      ensures state == Scraped
      ensures exceptionRaised == if outcome.Some? then outcome else old(exceptionRaised)
      ensures raised == exceptionRaised
      ensures warnings == old(warnings) + (if outcome.Some? && ShouldLog(outcome.value) then [outcome.value] else [])
    {
      Fetch(outcome);
      SetState(Scraped);
      if WasExceptionRaised() {
        return exceptionRaised;
      }
      return None;
    }

    /** `mark_done` */
    method MarkDone()
      modifies this
      ensures state == Done
      ensures exceptionRaised == old(exceptionRaised) && warnings == old(warnings)
    {
      SetState(Done);
    }

    /** `is_scrape_done`: scraping is over, whatever came after it. */
    function IsScrapeDone(): (r: bool)
      reads this
      ensures r <==> state == Scraped || state == Done
    {
      AtLeast(state, Scraped)
    }

    /** `is_done` */
    function IsDone(): (r: bool)
      reads this
      ensures r <==> state == Done
    {
      AtLeast(state, Done)
    }

    /** `was_exception_raised` */
    function WasExceptionRaised(): (r: bool)
      reads this
      ensures r <==> exceptionRaised.Some?
    {
      exceptionRaised != None
    }
  }

  // ---------------------------------------------------------------------
  // The wait loop of ScrapeOperation.run

  /** The loop as written, `while not thread.is_alive(): sleep`, over the
      successive answers of `is_alive()`: the number of sleeps before it
      stops, or `None` when it is still sleeping after the last answer. */
  function WaitAsWritten(alive: seq<bool>): Option<nat>
  {
    if alive == [] then None
    else if alive[0] then Some(0)
    else match WaitAsWritten(alive[1..])
      case None => None
      case Some(n) => Some(n + 1)
  }

  /** The loop that waits for the thread to finish,
      `while thread.is_alive(): sleep`. */
  function WaitWhileAlive(alive: seq<bool>): Option<nat>
  {
    if alive == [] then None
    else if !alive[0] then Some(0)
    else match WaitWhileAlive(alive[1..])
      case None => None
      case Some(n) => Some(n + 1)
  }

  /** A thread that has already finished is never alive again: the loop as
      written then sleeps forever, however many times it polls. */
  lemma {:induction false} FinishedThreadHangs(n: nat)
    ensures WaitAsWritten(seq(n, _ => false)) == None
  {
    if n > 0 {
      assert seq(n, _ => false)[1..] == seq(n - 1, _ => false);
      FinishedThreadHangs(n - 1);
    }
  }

  /** Waiting while the thread is alive stops at the first poll after it
      finished: after `k` polls of a thread that runs for `k` polls. */
  lemma {:induction false} WaitWhileAliveStops(k: nat, m: nat)
    ensures WaitWhileAlive(seq(k, _ => true) + seq(m + 1, _ => false)) == Some(k)
  {
    var alive := seq(k, _ => true) + seq(m + 1, _ => false);
    if k > 0 {
      assert alive[1..] == seq(k - 1, _ => true) + seq(m + 1, _ => false);
      WaitWhileAliveStops(k - 1, m);
    } else {
      assert alive[0] == false;
    }
  }

  // ---------------------------------------------------------------------
  // ScrapingPool

  /** Index of the first operation whose parcel is similar to `parcel`. */
  function FindSimilar(ops: seq<ScrapeOperation>, parcel: Parcel, similar: (Parcel, Parcel) -> bool): (k: nat)
    ensures k <= |ops|
    ensures forall j :: 0 <= j < k ==> !similar(ops[j].baseParcel, parcel)
    ensures k < |ops| ==> similar(ops[k].baseParcel, parcel)
  {
    if ops == [] then 0
    else if similar(ops[0].baseParcel, parcel) then 0
    else 1 + FindSimilar(ops[1..], parcel, similar)
  }

  /** `list.remove`: the list without its first occurrence of `x`. */
  function RemoveFirst<T(==)>(xs: seq<T>, x: T): seq<T>
    requires x in xs
  {
    if xs[0] == x then xs[1..] else [xs[0]] + RemoveFirst(xs[1..], x)
  }

  /** Removing the first occurrence takes exactly one `x` out. */
  lemma {:induction false} RemoveFirstCount<T>(xs: seq<T>, x: T)
    requires x in xs
    ensures |RemoveFirst(xs, x)| == |xs| - 1
    ensures multiset(RemoveFirst(xs, x)) == multiset(xs) - multiset{x}
  {
    assert xs == [xs[0]] + xs[1..];
    if xs[0] != x {
      RemoveFirstCount(xs[1..], x);
    }
  }

  /** The element removed is the one at the first index holding `x`, and
      the others keep their order. */
  lemma {:induction false} RemoveFirstAt<T>(xs: seq<T>, x: T, k: nat)
    requires k < |xs| && xs[k] == x && x !in xs[..k]
    ensures RemoveFirst(xs, x) == xs[..k] + xs[k + 1..]
  {
    if k == 0 {
      assert xs[..0] + xs[1..] == xs[1..];
    } else {
      var ys := xs[1..];
      assert xs[0] != x by { assert xs[0] == xs[..k][0]; }
      assert ys[..k - 1] == xs[1..k];
      assert ys[k..] == xs[k + 1..];
      assert xs[..k] == [xs[0]] + xs[1..k];
      RemoveFirstAt(ys, x, k - 1);
      calc {
        RemoveFirst(xs, x);
        [xs[0]] + RemoveFirst(ys, x);
        [xs[0]] + (xs[1..k] + xs[k + 1..]);
        ([xs[0]] + xs[1..k]) + xs[k + 1..];
        xs[..k] + xs[k + 1..];
      }
    }
  }

  /** Removing an element just appended to a list that did not hold it
      gives the list back. */
  lemma {:induction false} RemoveFirstOfAppended<T>(xs: seq<T>, x: T)
    requires x !in xs
    ensures RemoveFirst(xs + [x], x) == xs
  {
    if xs != [] {
      assert (xs + [x])[1..] == xs[1..] + [x];
      RemoveFirstOfAppended(xs[1..], x);
    }
  }

  /** What `ScrapingPool.fetch` ends in. */
  datatype PoolResult =
    | Completed(op: ScrapeOperation)
    | Duplicate(existing: ScrapeOperation)   // DuplicateScrapingOperation
    | Overloaded                             // TimeoutError
    | Raised(failed: ScrapeOperation, error: FetchError)

  class ScrapingPool {
    const maxInstances: int
    var instances: seq<ScrapeOperation>

    constructor (maxInstances: int)
      ensures this.maxInstances == maxInstances && instances == []
    {
      this.maxInstances := maxInstances;
      instances := [];
    }

    /** `get_operation`: the first running operation on a similar parcel. */
    method GetOperation(parcel: Parcel, similar: (Parcel, Parcel) -> bool) returns (r: Option<ScrapeOperation>)
      ensures var k := FindSimilar(instances, parcel, similar);
              r == if k < |instances| then Some(instances[k]) else None
    {
      var i := 0;
      while i < |instances|
        invariant 0 <= i <= |instances|
        invariant FindSimilar(instances[i..], parcel, similar) + i == FindSimilar(instances, parcel, similar)
      {
        assert instances[i..][1..] == instances[i + 1..];
        if similar(instances[i].baseParcel, parcel) {
          return Some(instances[i]);
        }
        i := i + 1;
      }
      return None;
    }

    /** `add_instance` */
    method AddInstance(op: ScrapeOperation)
      modifies this
      ensures instances == old(instances) + [op]
    {
      instances := instances + [op];
    }

    /** `drop_instance`: removes the first occurrence of `op`; `ok` is false
        for the `ValueError` of an operation not in the list, which then
        stays as it was. */
    method DropInstance(op: ScrapeOperation) returns (ok: bool)
      modifies this
      ensures ok <==> op in old(instances)
      ensures ok ==> instances == RemoveFirst(old(instances), op)
      ensures !ok ==> instances == old(instances)
    {
      var i := 0;
      while i < |instances|
        invariant 0 <= i <= |instances|
        invariant op !in instances[..i]
      {
        if instances[i] == op {
          RemoveFirstAt(instances, op, i);
          instances := instances[..i] + instances[i + 1..];
          return true;
        }
        assert instances[..i + 1] == instances[..i] + [instances[i]];
        i := i + 1;
      }
      assert instances[..i] == instances;
      return false;
    }

    /** `is_available` */
    function IsAvailable(): (r: bool)
      reads this
      ensures r <==> |instances| < maxInstances
    {
      |instances| < maxInstances
    }

    /** `run_instance`: adds the operation, runs it and drops it; when the
        operation re-raises its exception `drop_instance` is never reached
        and the operation stays in the list. */
    method RunInstance(op: ScrapeOperation, outcome: Option<FetchError>) returns (raised: Option<FetchError>)
      requires op !in instances
      modifies this, op
      ensures raised == op.exceptionRaised
      ensures raised == if outcome.Some? then outcome else old(op.exceptionRaised)
      ensures op.state == Scraped
      ensures raised.None? ==> instances == old(instances)
      ensures raised.Some? ==> instances == old(instances) + [op]
    {
      AddInstance(op);
      raised := op.Run(outcome);
      if raised.Some? {
        return;
      }
      RemoveFirstOfAppended(old(instances), op);
      var ok := DropInstance(op);
    }

    /** `fetch`, sequentially: a duplicate is refused; with every instance
        busy nothing can free one while waiting, so the wait times out;
        otherwise a new operation runs through `run_instance`. */
    method Fetch(parcel: Parcel, similar: (Parcel, Parcel) -> bool, outcome: Option<FetchError>)
      returns (r: PoolResult)
      modifies this
      ensures var k := FindSimilar(old(instances), parcel, similar);
              k < |old(instances)| ==> r == Duplicate(old(instances)[k]) && instances == old(instances)
      ensures FindSimilar(old(instances), parcel, similar) == |old(instances)| ==>
                (r.Overloaded? <==> |old(instances)| >= maxInstances)
      ensures r.Duplicate? <==> FindSimilar(old(instances), parcel, similar) < |old(instances)|
      ensures r.Overloaded? ==> instances == old(instances)
      ensures r.Completed? ==>
                fresh(r.op) && r.op.baseParcel == parcel && r.op.state == Scraped
                && outcome.None? && instances == old(instances)
      ensures r.Raised? ==>
                fresh(r.failed) && r.failed.baseParcel == parcel && r.failed.state == Scraped
                && outcome == Some(r.error) && instances == old(instances) + [r.failed]
    {
      var existing := GetOperation(parcel, similar);
      if existing.Some? {
        return Duplicate(existing.value);
      }
      if !IsAvailable() {
        return Overloaded;
      }
      var op := new ScrapeOperation(parcel);
      var raised := RunInstance(op, outcome);
      if raised.Some? {
        return Raised(op, raised.value);
      }
      return Completed(op);
    }
  }
}
