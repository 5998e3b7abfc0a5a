/** Proxies (openparcel/proxies.py; the classes of bin/proxy_list.py behave
    the same when run sequentially): proxy records, their test and save
    rules, the proxy list that gates what is appended, and the
    provider-specific request URLs and response processing. The database,
    HTTP responses, clocks, random tracking codes and the carriers' own
    `fetch` are parameters. */
module Proxies {
  import opened Wrappers
  import opened Text

  // ---------------------------------------------------------------------
  // Testing a proxy against every carrier

  /** One carrier's `valid_carriers` entry: `{'id': uid, 'timing': ms}`. */
  datatype Timing = Timing(id: string, timing: int)

  /** What trying one carrier through the proxy gives: `fetch` returned
      after `ms` milliseconds, raised a `ScrapingReturnedError` with `code`
      after `ms`, raised a `DrissionPage` error, or raised anything else,
      which `test` does not catch. */
  datatype Probe =
    | Fetched(ms: int)
    | Returned(code: string, ms: int)
    | BrowserFailed
    | Uncaught(error: string)

  /** Whether a probe shows the proxy working for that carrier: a real
      answer, including "no such parcel" or "invalid code". */
  predicate Counts(p: Probe)
  {
    p.Fetched? || (p.Returned? && (p.code == "ParcelNotFound" || p.code == "InvalidTrackingCode"))
  }

  /** The entries the probes record, in carrier order. */
  function Recorded(uids: seq<string>, probes: seq<Probe>): (ts: seq<Timing>)
    requires |uids| == |probes|
    ensures |ts| <= |probes|
  {
    if probes == [] then []
    else
      var n := |probes| - 1;
      Recorded(uids[..n], probes[..n]) + (if Counts(probes[n]) then [Timing(uids[n], probes[n].ms)] else [])
  }

  /** Index of the first probe `test` cannot catch. */
  function FirstUncaught(probes: seq<Probe>): (k: nat)
    ensures k <= |probes|
    ensures forall j :: 0 <= j < k ==> !probes[j].Uncaught?
    ensures k < |probes| ==> probes[k].Uncaught?
  {
    if probes == [] then 0
    else if probes[0].Uncaught? then 0
    else 1 + FirstUncaught(probes[1..])
  }

  /** What `test` records: everything before the first uncaught error. */
  function TestRecords(uids: seq<string>, probes: seq<Probe>): seq<Timing>
    requires |uids| == |probes|
  {
    var k := FirstUncaught(probes);
    Recorded(uids[..k], probes[..k])
  }

  /** What `test` ends in: the uncaught error, or whether anything was
      recorded. */
  function TestOutcome(uids: seq<string>, probes: seq<Probe>): Result<bool, string>
    requires |uids| == |probes|
  {
    var k := FirstUncaught(probes);
    if k < |probes| then Err(probes[k].error) else Ok(TestRecords(uids, probes) != [])
  }

  function SumTimings(ts: seq<Timing>): int
  {
    if ts == [] then 0 else SumTimings(ts[..|ts| - 1]) + ts[|ts| - 1].timing
  }

  /** Python's `round(num / den)`: to the nearest integer, halves to the
      even one. */
  function RoundHalfEven(num: int, den: int): int
    requires den > 0
  {
    var q := num / den;
    var r := num % den;
    if 2 * r > den || (2 * r == den && q % 2 == 1) then q + 1 else q
  }

  /** The rounded mean lies between any bounds of the values. */
  lemma RoundBetween(num: int, den: int, lo: int, hi: int)
    requires den > 0 && den * lo <= num <= den * hi
    ensures lo <= RoundHalfEven(num, den) <= hi
  {
    var q := num / den;
    var r := num % den;
    assert num == q * den + r && 0 <= r < den;
    if q < lo {
      assert (q + 1) * den <= lo * den by { MulLe(q + 1, lo, den); }
      assert false;
    }
    if q > hi {
      assert (hi + 1) * den <= q * den by { MulLe(hi + 1, q, den); }
      assert false;
    }
  }

  lemma MulLe(a: int, b: int, n: int)
    requires a <= b && n > 0
    ensures a * n <= b * n
  {
  }

  /** Every recording lies within `[lo, hi]`, so does their sum scaled. */
  lemma {:induction false} SumBounds(ts: seq<Timing>, lo: int, hi: int)
    requires forall i :: 0 <= i < |ts| ==> lo <= ts[i].timing <= hi
    ensures |ts| * lo <= SumTimings(ts) <= |ts| * hi
  {
    if ts != [] {
      var n := |ts| - 1;
      SumBounds(ts[..n], lo, hi);
      assert |ts| * lo == n * lo + lo && |ts| * hi == n * hi + hi;
    }
  }

  function MinTiming(ts: seq<Timing>): int
    requires ts != []
  {
    if |ts| == 1 then ts[0].timing
    else
      var m := MinTiming(ts[..|ts| - 1]);
      if ts[|ts| - 1].timing < m then ts[|ts| - 1].timing else m
  }

  function MaxTiming(ts: seq<Timing>): int
    requires ts != []
  {
    if |ts| == 1 then ts[0].timing
    else
      var m := MaxTiming(ts[..|ts| - 1]);
      if ts[|ts| - 1].timing > m then ts[|ts| - 1].timing else m
  }

  lemma {:induction false} MinMaxBound(ts: seq<Timing>)
    requires ts != []
    ensures forall i :: 0 <= i < |ts| ==> MinTiming(ts) <= ts[i].timing <= MaxTiming(ts)
  {
    if |ts| > 1 {
      MinMaxBound(ts[..|ts| - 1]);
      assert forall i :: 0 <= i < |ts| - 1 ==> ts[i] == ts[..|ts| - 1][i];
    }
  }

  /** The speed `test` computes, the rounded mean of the recorded timings,
      lies between the fastest and the slowest of them. */
  lemma SpeedBetween(ts: seq<Timing>)
    requires ts != []
    ensures MinTiming(ts) <= RoundHalfEven(SumTimings(ts), |ts|) <= MaxTiming(ts)
  {
    MinMaxBound(ts);
    SumBounds(ts, MinTiming(ts), MaxTiming(ts));
    RoundBetween(SumTimings(ts), |ts|, MinTiming(ts), MaxTiming(ts));
  }

  /** Nothing is recorded exactly when no probe counts. */
  lemma {:induction false} RecordedEmpty(uids: seq<string>, probes: seq<Probe>)
    requires |uids| == |probes|
    ensures Recorded(uids, probes) == [] <==> forall i :: 0 <= i < |probes| ==> !Counts(probes[i])
  {
    if probes != [] {
      var n := |probes| - 1;
      RecordedEmpty(uids[..n], probes[..n]);
      assert forall i :: 0 <= i < n ==> probes[..n][i] == probes[i];
    }
  }

  /** A carrier is recorded, with its probe's timing, exactly when its
      probe counts. */
  lemma {:induction false} RecordedExactly(uids: seq<string>, probes: seq<Probe>, t: Timing)
    requires |uids| == |probes|
    ensures t in Recorded(uids, probes) <==>
              exists i :: 0 <= i < |probes| && Counts(probes[i]) && t == Timing(uids[i], probes[i].ms)
  {
    if probes != [] {
      var n := |probes| - 1;
      RecordedExactly(uids[..n], probes[..n], t);
      if t in Recorded(uids[..n], probes[..n]) {
        var i :| 0 <= i < n && Counts(probes[..n][i]) && t == Timing(uids[..n][i], probes[..n][i].ms);
        assert Counts(probes[i]) && t == Timing(uids[i], probes[i].ms);
      }
      if exists i :: 0 <= i < |probes| && Counts(probes[i]) && t == Timing(uids[i], probes[i].ms) {
        var i :| 0 <= i < |probes| && Counts(probes[i]) && t == Timing(uids[i], probes[i].ms);
        if i < n {
          assert Counts(probes[..n][i]) && t == Timing(uids[..n][i], probes[..n][i].ms);
        }
      }
    }
  }

  // ---------------------------------------------------------------------
  // Proxy

  /** The row `save` writes, in the column order of its statements. */
  datatype Row = Row(addr: string, port: int, country: string, speed: int, protocol: string,
                     active: bool, carriers: seq<Timing>)

  /** The statement `save` executes: an insert, or an update of `id`. */
  datatype Statement = Insert(row: Row) | Update(row: Row, id: int)

  class Proxy {
    var dbId: Option<int>
    const addr: string
    const port: int
    const country: string
    var speed: int
    const protocol: string
    var active: bool
    var validCarriers: seq<Timing>

    /** `__init__`: the country upper-cased, the protocol lower-cased and a
        missing carrier list replaced by an empty one. */
    constructor (addr: string, port: int, country: string, speed: int, protocol: string,
                 active: bool, dbId: Option<int>, validCarriers: Option<seq<Timing>>)
      ensures this.addr == addr && this.port == port && this.speed == speed
      ensures this.country == Upper(country) && this.protocol == Lower(protocol)
      ensures this.active == active && this.dbId == dbId
      ensures this.validCarriers == if validCarriers.None? then [] else validCarriers.value
    {
      this.dbId := dbId;
      this.addr := addr;
      this.port := port;
      this.country := Upper(country);
      this.speed := speed;
      this.protocol := Lower(protocol);
      this.active := active;
      this.validCarriers := if validCarriers.None? then [] else validCarriers.value;
    }

    /** `as_str`: `protocol://addr:port`. */
    function AsStr(): string
      reads this
    {
      protocol + "://" + addr + ":" + IntToString(port)
    }

    /** `test`, with `uids` the uids of `carriers()` and `probes[i]` what
        trying carrier `i` gives: starts from an empty list, records every
        carrier whose probe counts, and with anything recorded sets the
        speed to the rounded mean timing. An uncaught error ends the test
        with what was recorded so far. */
    method Test(uids: seq<string>, probes: seq<Probe>) returns (r: Result<bool, string>)
      requires |uids| == |probes|
      modifies this
      ensures r == TestOutcome(uids, probes)
      ensures validCarriers == TestRecords(uids, probes)
      ensures r == Ok(true) ==> speed == RoundHalfEven(SumTimings(validCarriers), |validCarriers|)
      ensures r != Ok(true) ==> speed == old(speed)
      ensures active == old(active) && dbId == old(dbId)
    {
      validCarriers := [];
      var i := 0;
      while i < |probes|
        invariant 0 <= i <= |probes|
        invariant forall j :: 0 <= j < i ==> !probes[j].Uncaught?
        invariant validCarriers == Recorded(uids[..i], probes[..i])
        invariant speed == old(speed) && active == old(active) && dbId == old(dbId)
      {
        assert uids[..i + 1][..i] == uids[..i] && probes[..i + 1][..i] == probes[..i];
        if probes[i].Uncaught? {
          assert FirstUncaught(probes) == i by { UncaughtAt(probes, i); }
          return Err(probes[i].error);
        }
        if Counts(probes[i]) {
          validCarriers := validCarriers + [Timing(uids[i], probes[i].ms)];
        }
        i := i + 1;
      }
      UncaughtAt(probes, |probes|);
      assert uids[..|probes|] == uids && probes[..|probes|] == probes;
      if |validCarriers| == 0 {
        return Ok(false);
      }
      speed := RoundHalfEven(SumTimings(validCarriers), |validCarriers|);
      return Ok(true);
    }

    /** `save`, with `newId` the id the database gives an inserted row: a
        proxy with no working carrier is deactivated first; a proxy with an
        id is updated, one without is inserted and adopts the new id. */
    method Save(newId: int) returns (stmt: Statement)
      modifies this
      ensures active == (old(active) && validCarriers != [])
      ensures var row := Row(addr, port, country, speed, protocol, active, validCarriers);
              if old(dbId).Some? then stmt == Update(row, old(dbId).value) && dbId == old(dbId)
              else stmt == Insert(row) && dbId == Some(newId)
      ensures speed == old(speed) && validCarriers == old(validCarriers)
    {
      if |validCarriers| == 0 {
        active := false;
      }
      var row := Row(addr, port, country, speed, protocol, active, validCarriers);
      if dbId.Some? {
        stmt := Update(row, dbId.value);
      } else {
        stmt := Insert(row);
        dbId := Some(newId);
      }
    }
  }

  lemma {:induction false} UncaughtAt(probes: seq<Probe>, k: nat)
    requires k <= |probes|
    requires forall j :: 0 <= j < k ==> !probes[j].Uncaught?
    requires k < |probes| ==> probes[k].Uncaught?
    ensures FirstUncaught(probes) == k
    decreases k
  {
    if k > 0 {
      UncaughtAt(probes[1..], k - 1);
    }
  }

  /** `test` passes exactly when no error escaped and some carrier's
      probe counts. */
  lemma TestPasses(uids: seq<string>, probes: seq<Probe>)
    requires |uids| == |probes|
    ensures TestOutcome(uids, probes) == Ok(true) <==>
              (forall i :: 0 <= i < |probes| ==> !probes[i].Uncaught?) &&
              (exists i :: 0 <= i < |probes| && Counts(probes[i]))
  {
    var k := FirstUncaught(probes);
    if k == |probes| {
      assert uids[..k] == uids && probes[..k] == probes;
      RecordedEmpty(uids, probes);
    }
  }

  lemma IntToStringHasNoColon(i: int)
    ensures ':' !in IntToString(i)
  {
    var d := NatToString(if i < 0 then -i else i);
    assert forall j :: 0 <= j < |d| ==> IsDigit(d[j]);
    if i < 0 {
      assert IntToString(i) == "-" + d;
      assert forall j :: 0 <= j < |IntToString(i)| ==> IntToString(i)[j] == '-' || IsDigit(IntToString(i)[j]);
    }
  }

  /** Three colon-free pieces joined by colons split back into them. */
  lemma SplitThree(a: string, b: string, c: string)
    requires ':' !in a && ':' !in b && ':' !in c
    ensures Split(a + ":" + b + ":" + c, ':') == [a, b, c]
  {
    assert a + ":" + b + ":" + c == a + [':'] + (b + [':'] + c);
    SplitCons(a, ':', b + [':'] + c);
    SplitCons(b, ':', c);
  }

  lemma NoColonAfterSlashes(addr: string)
    requires ':' !in addr
    ensures ':' !in "//" + addr
  {
    assert forall j :: 2 <= j < |"//" + addr| ==> ("//" + addr)[j] == addr[j - 2];
  }

  /** `as_str` can be taken apart again: split on `:` it gives the
      protocol, `//` and the address, and the port, which reads back as
      the port number. */
  lemma AsStrParts(p: Proxy)
    requires ':' !in p.protocol && ':' !in p.addr
    ensures Split(p.AsStr(), ':') == [p.protocol, "//" + p.addr, IntToString(p.port)]
    ensures ParseInt(Split(p.AsStr(), ':')[2]) == Some(p.port)
  {
    var port := IntToString(p.port);
    IntToStringHasNoColon(p.port);
    NoColonAfterSlashes(p.addr);
    assert "://" == ":" + "//";
    assert p.AsStr() == p.protocol + ":" + ("//" + p.addr) + ":" + port;
    SplitThree(p.protocol, "//" + p.addr, port);
    ParseIntOfIntToString(p.port);
  }
  // ---------------------------------------------------------------------
  // Refreshing the stored proxies

  /** The row `save` writes for a proxy in its current state. */
  function RowOf(p: Proxy): Row
    reads p
  {
    Row(p.addr, p.port, p.country, p.speed, p.protocol, p.active, p.validCarriers)
  }

  /** The fields of a proxy that testing and saving change. */
  datatype Snapshot = Snapshot(active: bool, speed: int, dbId: Option<int>, validCarriers: seq<Timing>)

  function SnapshotOf(p: Proxy): Snapshot
    reads p
  {
    Snapshot(p.active, p.speed, p.dbId, p.validCarriers)
  }

  /** `p`, which was `before`, has been tested with `probes` without an
      uncaught error and then saved by `stmt`: it records what the test
      recorded, stays active only when the test passed, has the rounded
      mean speed when it passed and its old speed otherwise, and is
      updated under its id or inserted under `newId`. */
  ghost predicate Refreshed(p: Proxy, before: Snapshot, uids: seq<string>, probes: seq<Probe>, newId: int, stmt: Statement)
    reads p
    requires |probes| == |uids|
  {
    var outcome := TestOutcome(uids, probes);
    outcome.Ok? && p.validCarriers == TestRecords(uids, probes) &&
    p.active == (before.active && outcome == Ok(true)) &&
    (outcome == Ok(true) ==> p.validCarriers != [] &&
                             p.speed == RoundHalfEven(SumTimings(p.validCarriers), |p.validCarriers|)) &&
    (outcome != Ok(true) ==> p.speed == before.speed) &&
    if before.dbId.Some? then stmt == Update(RowOf(p), before.dbId.value) && p.dbId == before.dbId
    else stmt == Insert(RowOf(p)) && p.dbId == Some(newId)
  }

  /** `refresh_proxies` and `RefreshAction.perform`: every stored proxy is
      tested again, deactivated when the test fails and then saved.
      `probes[i]` is what testing proxy `i` meets and `newIds[i]` the id an
      insert of it would get. An error the test cannot catch ends the run
      at that proxy, which keeps what its test recorded and is not saved;
      the proxies after it are untouched. */
  method Refresh(proxies: seq<Proxy>, uids: seq<string>, probes: seq<seq<Probe>>, newIds: seq<int>)
    returns (stmts: seq<Statement>, raised: Option<string>)
    requires |probes| == |proxies| && |newIds| == |proxies|
    requires forall i :: 0 <= i < |probes| ==> |probes[i]| == |uids|
    requires forall i, j :: 0 <= i < j < |proxies| ==> proxies[i] != proxies[j]
    modifies set p | p in proxies
    ensures |stmts| <= |proxies|
    ensures raised.None? <==> |stmts| == |proxies|
    ensures forall i :: 0 <= i < |stmts| ==>
              Refreshed(proxies[i], old(SnapshotOf(proxies[i])), uids, probes[i], newIds[i], stmts[i])
    ensures raised.Some? ==>
              TestOutcome(uids, probes[|stmts|]) == Err(raised.value) &&
              SnapshotOf(proxies[|stmts|]) ==
                old(SnapshotOf(proxies[|stmts|])).(validCarriers := TestRecords(uids, probes[|stmts|]))
    ensures forall i :: |stmts| < i < |proxies| ==> SnapshotOf(proxies[i]) == old(SnapshotOf(proxies[i]))
  {
    stmts := [];
    var i := 0;
    while i < |proxies|
      invariant 0 <= i <= |proxies| && |stmts| == i
      invariant forall k :: 0 <= k < i ==>
                  Refreshed(proxies[k], old(SnapshotOf(proxies[k])), uids, probes[k], newIds[k], stmts[k])
      invariant forall k :: i <= k < |proxies| ==> SnapshotOf(proxies[k]) == old(SnapshotOf(proxies[k]))
    {
      assert forall k :: 0 <= k < |proxies| && k != i ==> proxies[k] != proxies[i];
      var r, stmt := RefreshOne(proxies[i], uids, probes[i], newIds[i]);
      if r.Err? {
        return stmts, Some(r.error);
      }
      stmts := stmts + [stmt];
      i := i + 1;
    }
    return stmts, None;
  }

  /** One proxy of `Refresh`. */
  method RefreshOne(proxy: Proxy, uids: seq<string>, probes: seq<Probe>, newId: int)
    returns (r: Result<bool, string>, stmt: Statement)
    requires |probes| == |uids|
    modifies proxy
    ensures r == TestOutcome(uids, probes)
    ensures r.Ok? ==> Refreshed(proxy, old(SnapshotOf(proxy)), uids, probes, newId, stmt)
    ensures r.Err? ==> SnapshotOf(proxy) == old(SnapshotOf(proxy)).(validCarriers := TestRecords(uids, probes))
  {
    r := proxy.Test(uids, probes);
    stmt := Insert(RowOf(proxy));
    if r.Err? {
      return;
    }
    if r != Ok(true) {
      proxy.active := false;
    }
    stmt := proxy.Save(newId);
  }

  // ---------------------------------------------------------------------
  // ProxyList

  /** The arguments a provider's `_append_item` gives `Proxy(...)`. */
  datatype ProxySpec = ProxySpec(addr: string, port: int, country: string, speed: int, protocol: string)

  /** What `append` is told about one proxy: whether the database already
      has it, the probes of its test, and the id an insert would get. */
  datatype Trial = Trial(duplicate: bool, probes: seq<Probe>, newId: int)

  /** Whether `append` keeps a proxy: it is new and its test passes. */
  predicate Accepted(uids: seq<string>, t: Trial)
  {
    !t.duplicate && |t.probes| == |uids| && TestOutcome(uids, t.probes) == Ok(true)
  }

  /** The indices of the trials `append` keeps, in order. */
  function AcceptedIndices(uids: seq<string>, trials: seq<Trial>): (ks: seq<nat>)
    ensures |ks| <= |trials|
  {
    if trials == [] then []
    else
      var n := |trials| - 1;
      AcceptedIndices(uids, trials[..n]) + (if Accepted(uids, trials[n]) then [n] else [])
  }

  /** The indices are increasing and each names an accepted trial. */
  lemma {:induction false} AcceptedIndicesValid(uids: seq<string>, trials: seq<Trial>)
    ensures forall j :: 0 <= j < |AcceptedIndices(uids, trials)| ==>
              AcceptedIndices(uids, trials)[j] < |trials| && Accepted(uids, trials[AcceptedIndices(uids, trials)[j]])
    ensures forall j, k :: 0 <= j < k < |AcceptedIndices(uids, trials)| ==>
              AcceptedIndices(uids, trials)[j] < AcceptedIndices(uids, trials)[k]
  {
    if trials != [] {
      var n := |trials| - 1;
      var prev := AcceptedIndices(uids, trials[..n]);
      AcceptedIndicesValid(uids, trials[..n]);
      var ks := AcceptedIndices(uids, trials);
      assert ks == prev + (if Accepted(uids, trials[n]) then [n] else []);
      forall j | 0 <= j < |ks|
        ensures ks[j] < |trials| && Accepted(uids, trials[ks[j]])
      {
        if j < |prev| {
          assert ks[j] == prev[j] && trials[..n][prev[j]] == trials[prev[j]];
        }
      }
    }
  }

  /** Whether `append` lets an error escape: the proxy is new and its test
      raises. */
  predicate Raises(uids: seq<string>, t: Trial)
  {
    !t.duplicate && |t.probes| == |uids| && TestOutcome(uids, t.probes).Err?
  }

  /** Index of the first trial whose test raises, or the length. */
  function FirstRaise(uids: seq<string>, trials: seq<Trial>): (k: nat)
    ensures k <= |trials|
    ensures forall j :: 0 <= j < k ==> !Raises(uids, trials[j])
    ensures k < |trials| ==> Raises(uids, trials[k])
  {
    if trials == [] then 0
    else if Raises(uids, trials[0]) then 0
    else 1 + FirstRaise(uids, trials[1..])
  }

  /** The specs of the items a sequential `_parse_response` keeps: the
      accepted ones before the first test that raises, in order. */
  function KeptSpecs(uids: seq<string>, specs: seq<ProxySpec>, trials: seq<Trial>): (kept: seq<ProxySpec>)
    requires |trials| == |specs|
    ensures |kept| <= |specs|
  {
    var ks := AcceptedIndices(uids, trials[..FirstRaise(uids, trials)]);
    AcceptedIndicesValid(uids, trials[..FirstRaise(uids, trials)]);
    seq(|ks|, j requires 0 <= j < |ks| => specs[ks[j]])
  }

  /** The first raising trial is the one no earlier trial precedes. */
  lemma FirstRaiseAt(uids: seq<string>, trials: seq<Trial>, i: nat)
    requires i <= |trials|
    requires forall j :: 0 <= j < i ==> !Raises(uids, trials[j])
    requires i < |trials| ==> Raises(uids, trials[i])
    ensures FirstRaise(uids, trials) == i
  {
  }

  /** `ps[j]` was built from `specs[j]`, for every `j`. */
  predicate MatchAll(ps: seq<Proxy>, specs: seq<ProxySpec>)
  {
    |ps| == |specs| && forall j :: 0 <= j < |ps| ==> Matches(ps[j], specs[j])
  }

  lemma MatchAllConcat(ps: seq<Proxy>, specs: seq<ProxySpec>, qs: seq<Proxy>, more: seq<ProxySpec>)
    requires MatchAll(ps, specs) && MatchAll(qs, more)
    ensures MatchAll(ps + qs, specs + more)
  {
    forall j | 0 <= j < |ps + qs|
      ensures Matches((ps + qs)[j], (specs + more)[j])
    {
      if j >= |ps| {
        assert (ps + qs)[j] == qs[j - |ps|] && (specs + more)[j] == more[j - |ps|];
      }
    }
  }

  /** A new proxy carries its spec's fields, normalised. */
  predicate Matches(p: Proxy, spec: ProxySpec)
  {
    p.addr == spec.addr && p.port == spec.port &&
    p.country == Upper(spec.country) && p.protocol == Lower(spec.protocol)
  }

  /** `ps[j]` was built from `specs[ks[j]]`. */
  predicate Built(ps: seq<Proxy>, specs: seq<ProxySpec>, ks: seq<nat>)
  {
    |ps| == |ks| && forall j :: 0 <= j < |ks| ==> ks[j] < |specs| && Matches(ps[j], specs[ks[j]])
  }

  /** Proxies built from the accepted items before the first raising one
      are built from the kept specs. */
  lemma BuiltKept(added: seq<Proxy>, specs: seq<ProxySpec>, uids: seq<string>, trials: seq<Trial>)
    requires |trials| == |specs|
    requires Built(added, specs, AcceptedIndices(uids, trials[..FirstRaise(uids, trials)]))
    ensures MatchAll(added, KeptSpecs(uids, specs, trials))
  {
    var ks := AcceptedIndices(uids, trials[..FirstRaise(uids, trials)]);
    var kept := KeptSpecs(uids, specs, trials);
    assert |kept| == |ks|;
    forall j | 0 <= j < |added|
      ensures Matches(added[j], kept[j])
    {
      assert kept[j] == specs[ks[j]];
    }
  }

  /** `ps[j]` carries what the test of the accepted trial `ks[j]`
      recorded, and the rounded mean speed that test set. */
  ghost predicate TestedAs(ps: seq<Proxy>, uids: seq<string>, trials: seq<Trial>, ks: seq<nat>)
    reads set p | p in ps
  {
    |ps| == |ks| &&
    forall j :: 0 <= j < |ks| ==>
      ks[j] < |trials| && Accepted(uids, trials[ks[j]]) &&
      ps[j].validCarriers == TestRecords(uids, trials[ks[j]].probes) && ps[j].validCarriers != [] &&
      ps[j].speed == RoundHalfEven(SumTimings(ps[j].validCarriers), |ps[j].validCarriers|)
  }

  lemma TestedExtend(ps: seq<Proxy>, uids: seq<string>, trials: seq<Trial>, ks: seq<nat>, p: Proxy, k: nat)
    requires TestedAs(ps, uids, trials, ks) && k < |trials| && Accepted(uids, trials[k])
    requires p.validCarriers == TestRecords(uids, trials[k].probes) && p.validCarriers != []
    requires p.speed == RoundHalfEven(SumTimings(p.validCarriers), |p.validCarriers|)
    ensures TestedAs(ps + [p], uids, trials, ks + [k])
  {
    assert forall j :: 0 <= j < |ks| ==> (ps + [p])[j] == ps[j] && (ks + [k])[j] == ks[j];
  }

  lemma BuiltExtend(ps: seq<Proxy>, specs: seq<ProxySpec>, ks: seq<nat>, p: Proxy, k: nat)
    requires Built(ps, specs, ks) && k < |specs| && Matches(p, specs[k])
    ensures Built(ps + [p], specs, ks + [k])
  {
    assert forall j :: 0 <= j < |ks| ==> (ps + [p])[j] == ps[j] && (ks + [k])[j] == ks[j];
  }

  lemma AcceptedStep(uids: seq<string>, trials: seq<Trial>, i: nat)
    requires i < |trials|
    ensures AcceptedIndices(uids, trials[..i + 1]) ==
            AcceptedIndices(uids, trials[..i]) + (if Accepted(uids, trials[i]) then [i] else [])
  {
    assert trials[..i + 1][..i] == trials[..i];
  }

  /** One step of the loop over a provider's items: the proxy built from
      item `i` joins the kept ones exactly when its trial is accepted. */
  lemma KeepStep(added: seq<Proxy>, ks: seq<nat>, specs: seq<ProxySpec>, uids: seq<string>,
                 trials: seq<Trial>, i: nat, server: Proxy, kept: bool)
    requires i < |trials| && i < |specs|
    requires ks == AcceptedIndices(uids, trials[..i]) && Built(added, specs, ks)
    requires Matches(server, specs[i]) && (kept <==> Accepted(uids, trials[i]))
    ensures ks + (if kept then [i] else []) == AcceptedIndices(uids, trials[..i + 1])
    ensures Built(added + (if kept then [server] else []), specs, ks + (if kept then [i] else []))
  {
    AcceptedStep(uids, trials, i);
    if kept {
      BuiltExtend(added, specs, ks, server, i);
    } else {
      assert added + [] == added && ks + [] == ks;
    }
  }

  /** The common part of every provider: the proxies kept so far, whether
      they are saved as they are kept, the API key, the request URL (the
      `url` class attribute until a constructor sets it) and the URL the
      per-request parameters are added to. */
  class ProxyList {
    var list: seq<Proxy>
    const autoSave: bool
    var apiKey: Option<string>
    var url: Option<string>
    var commonUrl: string

    constructor (autoSave: bool, url: Option<string>)
      ensures list == [] && this.autoSave == autoSave && apiKey == None
      ensures this.url == url && commonUrl == ""
    {
      list := [];
      this.autoSave := autoSave;
      apiKey := None;
      this.url := url;
      commonUrl := "";
    }

    /** `_import_api_key`: the key given, or else the configured one
        (`configured`, which may be missing). */
    method ImportApiKey(default: Option<string>, configured: Option<string>)
      modifies this
      ensures apiKey == if default.None? then configured else default
      ensures list == old(list) && url == old(url) && commonUrl == old(commonUrl)
    {
      if default.None? {
        apiKey := configured;
        return;
      }
      apiKey := default;
    }

    /** `append`: a duplicate is rejected without being tested; otherwise
        the proxy is tested against `carriers()` and kept, then saved when
        `auto_save` is set, exactly when the test passes. */
    method Append(server: Proxy, uids: seq<string>, trial: Trial) returns (r: Result<bool, string>, stmt: Option<Statement>)
      requires |trial.probes| == |uids|
      requires server !in list
      modifies this, server
      ensures trial.duplicate ==> r == Ok(false) && stmt.None?
      ensures trial.duplicate ==> server.validCarriers == old(server.validCarriers)
                                  && server.speed == old(server.speed) && server.active == old(server.active)
      ensures !trial.duplicate ==> r == TestOutcome(uids, trial.probes)
                                   && server.validCarriers == TestRecords(uids, trial.probes)
      ensures r == Ok(true) <==> Accepted(uids, trial)
      ensures list == old(list) + (if r == Ok(true) then [server] else [])
      ensures stmt.Some? <==> r == Ok(true) && autoSave
      ensures stmt.Some? ==>
                var row := Row(server.addr, server.port, server.country, server.speed, server.protocol,
                               old(server.active), server.validCarriers);
                stmt.value == if old(server.dbId).Some? then Update(row, old(server.dbId).value) else Insert(row)
      ensures r == Ok(true) ==>
                server.speed == RoundHalfEven(SumTimings(server.validCarriers), |server.validCarriers|)
      ensures r != Ok(true) ==> server.speed == old(server.speed)
      ensures server.active == old(server.active)
      ensures server.dbId == if stmt.Some? && old(server.dbId).None? then Some(trial.newId) else old(server.dbId)
      ensures url == old(url) && apiKey == old(apiKey) && commonUrl == old(commonUrl)
    {
      stmt := None;
      if trial.duplicate {
        return Ok(false), None;
      }
      r := server.Test(uids, trial.probes);
      if r == Ok(true) {
        list := list + [server];
        if autoSave {
          var s := server.Save(trial.newId);
          stmt := Some(s);
        }
        return;
      }
    }

    /** One item of `_parse_response`: a new `Proxy` built from the item's
        fields is handed to `append`. */
    method AppendNew(spec: ProxySpec, uids: seq<string>, trial: Trial) returns (r: Result<bool, string>, server: Proxy)
      requires |trial.probes| == |uids|
      modifies this
      ensures fresh(server) && Matches(server, spec)
      ensures !trial.duplicate ==> server.validCarriers == TestRecords(uids, trial.probes)
      ensures r == Ok(true) <==> Accepted(uids, trial)
      ensures r == Ok(true) ==>
                server.speed == RoundHalfEven(SumTimings(server.validCarriers), |server.validCarriers|)
      ensures r != Ok(true) ==> server.speed == spec.speed
      ensures r.Err? <==> Raises(uids, trial)
      ensures r.Err? ==> TestOutcome(uids, trial.probes) == r
      ensures list == old(list) + (if r == Ok(true) then [server] else [])
      ensures url == old(url) && apiKey == old(apiKey) && commonUrl == old(commonUrl)
    {
      server := new Proxy(spec.addr, spec.port, spec.country, spec.speed, spec.protocol, true, None, None);
      var stmt;
      r, stmt := Append(server, uids, trial);
    }

    /** One turn of the sequential `_parse_response` loop below, stated in
        the terms of its invariant: `added` holds the proxies kept from the
        first `i` items, built and tested as the accepted indices `ks`
        say, and grows by the item's proxy when it is kept. */
    method AppendStep(specs: seq<ProxySpec>, uids: seq<string>, trials: seq<Trial>, i: nat,
                      ghost start: seq<Proxy>, ghost added: seq<Proxy>, ghost ks: seq<nat>)
      returns (r: Result<bool, string>, ghost grown: seq<Proxy>, ghost ks': seq<nat>)
      requires i < |trials| == |specs| && |trials[i].probes| == |uids|
      requires ks == AcceptedIndices(uids, trials[..i])
      requires list == start + added && Built(added, specs, ks) && TestedAs(added, uids, trials, ks)
      modifies this
      ensures r.Err? <==> Raises(uids, trials[i])
      ensures r.Err? ==> TestOutcome(uids, trials[i].probes) == r && grown == added && ks' == ks
      ensures ks' == AcceptedIndices(uids, trials[..i + 1])
      ensures list == start + grown
      ensures Built(grown, specs, ks') && TestedAs(grown, uids, trials, ks')
      ensures |added| <= |grown| && grown[..|added|] == added
      ensures forall j :: |added| <= j < |grown| ==> fresh(grown[j])
      ensures url == old(url) && apiKey == old(apiKey) && commonUrl == old(commonUrl)
    {
      var server;
      r, server := AppendNew(specs[i], uids, trials[i]);
      KeepStep(added, ks, specs, uids, trials, i, server, r == Ok(true));
      if r == Ok(true) {
        TestedExtend(added, uids, trials, ks, server, i);
      } else {
        assert added + [] == added && ks + [] == ks;
      }
      grown := added + (if r == Ok(true) then [server] else []);
      ks' := ks + (if r == Ok(true) then [i] else []);
    }

    /** The loop of the sequential `_parse_response`: items are tried in
        order until one raises (`stop` is its index, or the number of
        items); the list grows by the proxies of the accepted items before
        `stop`. */
    method AppendUntilRaise(specs: seq<ProxySpec>, uids: seq<string>, trials: seq<Trial>)
      returns (stop: nat, raised: Option<string>, ghost added: seq<Proxy>)
      requires |trials| == |specs|
      requires forall i :: 0 <= i < |trials| ==> |trials[i].probes| == |uids|
      modifies this
      ensures stop <= |trials| && (raised.None? <==> stop == |trials|)
      ensures forall j :: 0 <= j < stop ==> !Raises(uids, trials[j])
      ensures raised.Some? ==> Raises(uids, trials[stop]) && TestOutcome(uids, trials[stop].probes) == Err(raised.value)
      ensures list == old(list) + added
      ensures forall j :: 0 <= j < |added| ==> fresh(added[j])
      ensures Built(added, specs, AcceptedIndices(uids, trials[..stop]))
      ensures TestedAs(added, uids, trials, AcceptedIndices(uids, trials[..stop]))
      ensures url == old(url) && apiKey == old(apiKey) && commonUrl == old(commonUrl)
    {
      stop := 0;
      added := [];
      ghost var ks: seq<nat> := [];
      while stop < |specs|
        invariant 0 <= stop <= |specs|
        invariant ks == AcceptedIndices(uids, trials[..stop])
        invariant list == old(list) + added
        invariant Built(added, specs, ks) && TestedAs(added, uids, trials, ks)
        invariant stop <= FirstRaise(uids, trials)
        invariant forall j :: 0 <= j < |added| ==> fresh(added[j])
        invariant url == old(url) && apiKey == old(apiKey) && commonUrl == old(commonUrl)
      {
        ghost var grown, ks';
        var r;
        r, grown, ks' := AppendStep(specs, uids, trials, stop, old(list), added, ks);
        if r.Err? {
          return stop, Some(r.error), added;
        }
        forall j | 0 <= j < |grown|
          ensures fresh(grown[j])
        {
          if j < |added| {
            assert grown[j] == added[j];
          }
        }
        added, ks := grown, ks';
        stop := stop + 1;
      }
      return stop, None, added;
    }

    /** The sequential `_parse_response`: one new proxy per item, appended
        in order; an error escaping a test stops it, with the proxies
        accepted before it already in the list. */
    method AppendAll(specs: seq<ProxySpec>, uids: seq<string>, trials: seq<Trial>)
      returns (raised: Option<string>, ghost added: seq<Proxy>)
      requires |trials| == |specs|
      requires forall i :: 0 <= i < |trials| ==> |trials[i].probes| == |uids|
      modifies this
      ensures list == old(list) + added
      ensures forall j :: 0 <= j < |added| ==> fresh(added[j])
      ensures raised.None? <==> FirstRaise(uids, trials) == |trials|
      ensures raised.None? ==> Built(added, specs, AcceptedIndices(uids, trials))
      ensures raised.Some? ==> TestOutcome(uids, trials[FirstRaise(uids, trials)].probes) == Err(raised.value)
      ensures Built(added, specs, AcceptedIndices(uids, trials[..FirstRaise(uids, trials)]))
      ensures TestedAs(added, uids, trials, AcceptedIndices(uids, trials[..FirstRaise(uids, trials)]))
      ensures MatchAll(added, KeptSpecs(uids, specs, trials))
      ensures url == old(url) && apiKey == old(apiKey) && commonUrl == old(commonUrl)
    {
      var stop;
      stop, raised, added := AppendUntilRaise(specs, uids, trials);
      FirstRaiseAt(uids, trials, stop);
      BuiltKept(added, specs, uids, trials);
      if raised.None? {
        assert trials[..|trials|] == trials;
      }
    }
  }
}
