/** `providers()` of openparcel/proxies.py and the loop over the providers
    that the fetch drivers of scripts/proxy.py and bin/proxy_list.py run.
    The classes a module defines are given as a list sorted by name, as
    `inspect.getmembers` returns them; what loading each provider ends in
    is a parameter. */
module ProxyFetch {
  import opened Wrappers
  import opened Text
  import opened ProxyProviders

  /** A class of the module: its name and whether it is `ProxyList` or a
      subclass of it. */
  datatype ClassInfo = ClassInfo(name: string, isProxyList: bool)

  /** Whether the filter keeps a class: a `ProxyList` subclass whose name
      is not excluded. */
  predicate Kept(c: ClassInfo, excluded: seq<string>)
  {
    c.isProxyList && c.name !in excluded
  }

  /** The `(name.lower(), class)` pairs of the kept classes, in order. */
  function ProvidersOf(classes: seq<ClassInfo>, excluded: seq<string>): seq<(string, ClassInfo)>
  {
    if classes == [] then []
    else
      var c := classes[|classes| - 1];
      ProvidersOf(classes[..|classes| - 1], excluded) + (if Kept(c, excluded) then [(Lower(c.name), c)] else [])
  }

  /** The names `providers()` leaves out. */
  const NotProviders := ["ProxyList", "FileProxyList"]

  /** `providers()`: every `ProxyList` subclass except `ProxyList` and
      `FileProxyList`, named in lower case. */
  method Providers(classes: seq<ClassInfo>) returns (objs: seq<(string, ClassInfo)>)
    ensures objs == ProvidersOf(classes, NotProviders)
  {
    objs := [];
    for i := 0 to |classes|
      invariant objs == ProvidersOf(classes[..i], NotProviders)
    {
      assert classes[..i + 1][..i] == classes[..i];
      var c := classes[i];
      if c.isProxyList && c.name != "ProxyList" && c.name != "FileProxyList" {
        objs := objs + [(Lower(c.name), c)];
      }
    }
    assert classes[..|classes|] == classes;
  }

  /** A pair is listed exactly when its class is kept, under its lower-case
      name. */
  lemma {:induction false} ProvidersMembers(classes: seq<ClassInfo>, excluded: seq<string>)
    ensures forall p :: p in ProvidersOf(classes, excluded) <==>
              p.1 in classes && Kept(p.1, excluded) && p.0 == Lower(p.1.name)
  {
    if classes != [] {
      var n := |classes| - 1;
      ProvidersMembers(classes[..n], excluded);
      assert classes == classes[..n] + [classes[n]];
      assert forall c :: c in classes <==> c in classes[..n] || c == classes[n];
    }
  }

  /** The classes openparcel/proxies.py defines, sorted by name. */
  const ProxiesModuleClasses := [
    ClassInfo("FileProxyList", true), ClassInfo("OpenProxySpace", true), ClassInfo("Proxifly", true),
    ClassInfo("Proxy", false), ClassInfo("ProxyList", true), ClassInfo("ProxyScrapeFree", true),
    ClassInfo("PubProxy", true), ClassInfo("WebShare", true)]

  /** One more class adds its pair exactly when the filter keeps it. */
  lemma ProvidersStep(classes: seq<ClassInfo>, excluded: seq<string>, n: nat)
    requires n < |classes|
    ensures ProvidersOf(classes[..n + 1], excluded) ==
      ProvidersOf(classes[..n], excluded) + (if Kept(classes[n], excluded) then [(Lower(classes[n].name), classes[n])] else [])
  {
    assert classes[..n + 1][..n] == classes[..n];
  }

  lemma ProxiesModuleHead()
    ensures ProvidersOf(ProxiesModuleClasses[..4], NotProviders) ==
      [(Lower("OpenProxySpace"), ProxiesModuleClasses[1]), (Lower("Proxifly"), ProxiesModuleClasses[2])]
  {
    var cs := ProxiesModuleClasses;
    ProvidersStep(cs, NotProviders, 0);
    ProvidersStep(cs, NotProviders, 1);
    ProvidersStep(cs, NotProviders, 2);
    ProvidersStep(cs, NotProviders, 3);
  }

  lemma ProxiesModuleMiddle()
    ensures ProvidersOf(ProxiesModuleClasses[..6], NotProviders) ==
      ProvidersOf(ProxiesModuleClasses[..4], NotProviders) + [(Lower("ProxyScrapeFree"), ProxiesModuleClasses[5])]
  {
    var cs := ProxiesModuleClasses;
    ProvidersStep(cs, NotProviders, 4);
    ProvidersStep(cs, NotProviders, 5);
  }

  lemma ProxiesModuleTail()
    ensures ProvidersOf(ProxiesModuleClasses, NotProviders) ==
      ProvidersOf(ProxiesModuleClasses[..6], NotProviders) +
      [(Lower("PubProxy"), ProxiesModuleClasses[6]), (Lower("WebShare"), ProxiesModuleClasses[7])]
  {
    var cs := ProxiesModuleClasses;
    ProvidersStep(cs, NotProviders, 6);
    ProvidersStep(cs, NotProviders, 7);
    assert cs[..8] == cs;
  }

  /** The providers of openparcel/proxies.py, in the order they are
      tried: `Proxy` is not a `ProxyList`, and `ProxyList` and
      `FileProxyList` are excluded by name. */
  lemma ProxiesModuleProviders()
    ensures Names(ProvidersOf(ProxiesModuleClasses, NotProviders)) ==
      [Lower("OpenProxySpace"), Lower("Proxifly"), Lower("ProxyScrapeFree"), Lower("PubProxy"), Lower("WebShare")]
  {
    ProxiesModuleHead();
    ProxiesModuleMiddle();
    ProxiesModuleTail();
  }

  /** The names of a provider list. */
  function Names(objs: seq<(string, ClassInfo)>): (ns: seq<string>)
    ensures |ns| == |objs| && forall i :: 0 <= i < |objs| ==> ns[i] == objs[i].0
  {
    seq(|objs|, i requires 0 <= i < |objs| => objs[i].0)
  }

  // ---------------------------------------------------------------------
  // The fetch loop

  /** A provider as the loop sees it: the name its messages print and the
      lower-case name matched against the wanted list. */
  datatype Entry = Entry(shown: string, key: string)

  /** A line printed on standard output or on standard error. */
  datatype Line = Out(text: string) | ErrOut(text: string)

  /** Where a fetch run ends: the providers instantiated and loaded, in
      order, the lines printed, and the exception that escaped, if any. */
  datatype Run = Run(attempted: seq<string>, lines: seq<Line>, raised: Option<string>)

  function FetchingLine(shown: string): Line
  {
    Out("Fetching proxies from " + shown + "...")
  }

  /** The lines and the outcome of loading one wanted provider. */
  function Attempt(e: Entry, r: LoadResult): (seq<Line>, Option<string>)
  {
    match r
    case Loaded => ([FetchingLine(e.shown), Out("Finished fetching proxies from " + e.shown + ".")], None)
    case HttpFailed(m) => ([FetchingLine(e.shown), ErrOut("Failed to fetch proxies from " + e.shown + ": " + m)], None)
    case Failed(err) => ([FetchingLine(e.shown)], Some(err))
  }

  /** The loop over the providers: each wanted one is loaded; an
      `HTTPError` is reported and the loop goes on; any other exception
      ends the run. `outcome(key)` is what loading that provider ends in. */
  function FetchRun(entries: seq<Entry>, wanted: seq<string>, outcome: string -> LoadResult): Run
  {
    if entries == [] then Run([], [], None)
    else
      var before := FetchRun(entries[..|entries| - 1], wanted, outcome);
      var e := entries[|entries| - 1];
      if before.raised.Some? || e.key !in wanted then before
      else
        var step := Attempt(e, outcome(e.key));
        Run(before.attempted + [e.key], before.lines + step.0, step.1)
  }

  /** The fetch loop of `FetchAction.perform` and `fetch_proxies`. */
  method FetchLoop(entries: seq<Entry>, wanted: seq<string>, outcome: string -> LoadResult) returns (run: Run)
    ensures run == FetchRun(entries, wanted, outcome)
  {
    var attempted: seq<string> := [];
    var lines: seq<Line> := [];
    for i := 0 to |entries|
      invariant FetchRun(entries[..i], wanted, outcome) == Run(attempted, lines, None)
    {
      assert entries[..i + 1][..i] == entries[..i];
      var e := entries[i];
      if e.key in wanted {
        var step := Attempt(e, outcome(e.key));
        attempted := attempted + [e.key];
        lines := lines + step.0;
        if step.1.Some? {
          RunStopped(entries, wanted, outcome, i + 1);
          return Run(attempted, lines, step.1);
        }
      }
    }
    assert entries[..|entries|] == entries;
    return Run(attempted, lines, None);
  }

  /** Once an exception escaped, the rest of the providers change nothing. */
  lemma {:induction false} RunStopped(entries: seq<Entry>, wanted: seq<string>, outcome: string -> LoadResult, k: nat)
    requires k <= |entries| && FetchRun(entries[..k], wanted, outcome).raised.Some?
    ensures FetchRun(entries, wanted, outcome) == FetchRun(entries[..k], wanted, outcome)
    decreases |entries| - k
  {
    if k < |entries| {
      assert entries[..k + 1][..k] == entries[..k];
      RunStopped(entries, wanted, outcome, k + 1);
    } else {
      assert entries[..k] == entries;
    }
  }

  /** The keys of the wanted providers, in order. */
  function WantedKeys(entries: seq<Entry>, wanted: seq<string>): seq<string>
  {
    if entries == [] then []
    else
      var e := entries[|entries| - 1];
      WantedKeys(entries[..|entries| - 1], wanted) + (if e.key in wanted then [e.key] else [])
  }

  /** No wanted provider's load ends in anything but success or an
      `HTTPError`. */
  predicate NoneFails(entries: seq<Entry>, wanted: seq<string>, outcome: string -> LoadResult)
  {
    forall i :: 0 <= i < |entries| && entries[i].key in wanted ==> !outcome(entries[i].key).Failed?
  }

  /** When no load raises anything but `HTTPError`, every wanted provider
      is loaded, in order, and the run ends normally: an `HTTPError` from
      one provider does not stop the others. */
  lemma {:induction false} FetchAllWanted(entries: seq<Entry>, wanted: seq<string>, outcome: string -> LoadResult)
    requires NoneFails(entries, wanted, outcome)
    ensures FetchRun(entries, wanted, outcome).raised.None?
    ensures FetchRun(entries, wanted, outcome).attempted == WantedKeys(entries, wanted)
  {
    if entries != [] {
      var n := |entries| - 1;
      assert forall i :: 0 <= i < n ==> entries[..n][i] == entries[i];
      FetchAllWanted(entries[..n], wanted, outcome);
    }
  }

  /** A provider whose load raises something other than `HTTPError` ends
      the run: it is the last one loaded, and the wanted providers after
      it are never loaded. */
  lemma {:induction false} FetchStopsAt(entries: seq<Entry>, wanted: seq<string>, outcome: string -> LoadResult, j: nat)
    requires j < |entries| && entries[j].key in wanted && outcome(entries[j].key).Failed?
    requires NoneFails(entries[..j], wanted, outcome)
    ensures FetchRun(entries, wanted, outcome).raised == Some(outcome(entries[j].key).error)
    ensures FetchRun(entries, wanted, outcome).attempted == WantedKeys(entries[..j + 1], wanted)
  {
    FetchAllWanted(entries[..j], wanted, outcome);
    assert entries[..j + 1][..j] == entries[..j];
    RunStopped(entries, wanted, outcome, j + 1);
  }

  /** The entries of `FetchAction.perform`: the pairs of `providers()`,
      printed and matched by their lower-case name. */
  function ProviderEntries(objs: seq<(string, ClassInfo)>): (es: seq<Entry>)
    ensures |es| == |objs| && forall i :: 0 <= i < |objs| ==> es[i] == Entry(objs[i].0, objs[i].0)
  {
    seq(|objs|, i requires 0 <= i < |objs| => Entry(objs[i].0, objs[i].0))
  }

  /** The default provider list: the configured API key names, in lower
      case. */
  method ConfiguredProviders(keys: seq<string>) returns (providers: seq<string>)
    ensures |providers| == |keys|
    ensures forall i :: 0 <= i < |keys| ==> providers[i] == Lower(keys[i])
  {
    providers := [];
    for i := 0 to |keys|
      invariant |providers| == i && forall j :: 0 <= j < i ==> providers[j] == Lower(keys[j])
    {
      providers := providers + [Lower(keys[i])];
    }
  }

  /** Every key the run loads is a wanted key of some entry. */
  lemma {:induction false} WantedKeysFrom(entries: seq<Entry>, wanted: seq<string>)
    ensures forall k :: k in WantedKeys(entries, wanted) ==> k in wanted && exists e :: e in entries && e.key == k
  {
    if entries != [] {
      var n := |entries| - 1;
      WantedKeysFrom(entries[..n], wanted);
      assert forall e :: e in entries[..n] ==> e in entries;
    }
  }

  /** A key that no entry up to the one that stopped the run carries is
      never loaded. */
  lemma NeverLoadedAfterStop(entries: seq<Entry>, wanted: seq<string>, outcome: string -> LoadResult, j: nat, k: string)
    requires j < |entries| && entries[j].key in wanted && outcome(entries[j].key).Failed?
    requires NoneFails(entries[..j], wanted, outcome)
    requires forall i :: 0 <= i <= j ==> entries[i].key != k
    ensures k !in FetchRun(entries, wanted, outcome).attempted
  {
    FetchStopsAt(entries, wanted, outcome, j);
    WantedKeysFrom(entries[..j + 1], wanted);
  }

  /** `FetchAction.perform` over openparcel/proxies.py. */
  function ModuleEntries(): seq<Entry>
  {
    ProviderEntries(ProvidersOf(ProxiesModuleClasses, NotProviders))
  }

  /** The keys of the module's entries, in order. */
  lemma ModuleEntryKeys()
    ensures |ModuleEntries()| == 5
    ensures ModuleEntries()[0].key == Lower("OpenProxySpace") && ModuleEntries()[1].key == Lower("Proxifly")
    ensures ModuleEntries()[2].key == Lower("ProxyScrapeFree") && ModuleEntries()[3].key == Lower("PubProxy")
    ensures ModuleEntries()[4].key == Lower("WebShare")
  {
    ProxiesModuleProviders();
  }

  /** The run over a provider list whose third entry is ProxyScrapeFree's
      and whose later keys differ from the first three. */
  lemma StopsAtThird(es: seq<Entry>, wanted: seq<string>, outcome: string -> LoadResult, k: string, l: string)
    requires |es| == 5 && es[2].key in wanted && outcome(es[2].key).Failed?
    requires !outcome(es[0].key).Failed? && !outcome(es[1].key).Failed?
    requires k !in [es[0].key, es[1].key, es[2].key] && l !in [es[0].key, es[1].key, es[2].key]
    ensures FetchRun(es, wanted, outcome).raised == Some(outcome(es[2].key).error)
    ensures k !in FetchRun(es, wanted, outcome).attempted && l !in FetchRun(es, wanted, outcome).attempted
  {
    FetchStopsAt(es, wanted, outcome, 2);
    NeverLoadedAfterStop(es, wanted, outcome, 2, k);
    NeverLoadedAfterStop(es, wanted, outcome, 2, l);
  }

  /** As written, `ProxyScrapeFree` leaves its `url` at `None`, so its
      load raises `MissingSchema`, which is not an `HTTPError`: a fetch that
      wants it stops there, and PubProxy and WebShare, which come after it,
      are never loaded even when wanted. */
  lemma ScrapeFreeStopsFetch(wanted: seq<string>, outcome: string -> LoadResult, status: int)
    requires Lower("ProxyScrapeFree") in wanted
    requires outcome(Lower("ProxyScrapeFree")) == FetchResult(None, status)
    requires !outcome(Lower("OpenProxySpace")).Failed? && !outcome(Lower("Proxifly")).Failed?
    ensures FetchRun(ModuleEntries(), wanted, outcome).raised == Some("MissingSchema")
    ensures Lower("PubProxy") !in FetchRun(ModuleEntries(), wanted, outcome).attempted
    ensures Lower("WebShare") !in FetchRun(ModuleEntries(), wanted, outcome).attempted
  {
    ModuleEntryKeys();
    LaterKeysDiffer();
    StopsAtThird(ModuleEntries(), wanted, outcome, Lower("PubProxy"), Lower("WebShare"));
  }

  /** The keys after ProxyScrapeFree's differ from those up to it. */
  lemma LaterKeysDiffer()
    ensures Lower("PubProxy") !in [Lower("OpenProxySpace"), Lower("Proxifly"), Lower("ProxyScrapeFree")]
    ensures Lower("WebShare") !in [Lower("OpenProxySpace"), Lower("Proxifly"), Lower("ProxyScrapeFree")]
  {
    assert Lower("PubProxy")[1] == 'u' && Lower("Proxifly")[1] == 'r';
    assert Lower("WebShare")[0] == 'w' && Lower("Proxifly")[0] == 'p';
  }

  /** With its `url` set, `ProxyScrapeFree`'s load ends in success or an
      `HTTPError`, so when the other providers' loads do too, every wanted
      provider is loaded in order. */
  lemma ScrapeFreeFetchCorrected(wanted: seq<string>, outcome: string -> LoadResult, timeout: int, status: int)
    requires outcome(Lower("ProxyScrapeFree")) == FetchResult(Some(ScrapeFreeUrl(timeout)), status)
    requires !outcome(Lower("OpenProxySpace")).Failed? && !outcome(Lower("Proxifly")).Failed?
    requires !outcome(Lower("PubProxy")).Failed? && !outcome(Lower("WebShare")).Failed?
    ensures FetchRun(ModuleEntries(), wanted, outcome).raised.None?
    ensures FetchRun(ModuleEntries(), wanted, outcome).attempted == WantedKeys(ModuleEntries(), wanted)
  {
    var es := ModuleEntries();
    ModuleEntryKeys();
    assert !outcome(es[2].key).Failed?;
    NoneFailsOfFive(es, wanted, outcome);
    FetchAllWanted(es, wanted, outcome);
  }

  lemma NoneFailsOfFive(es: seq<Entry>, wanted: seq<string>, outcome: string -> LoadResult)
    requires |es| == 5
    requires !outcome(es[0].key).Failed? && !outcome(es[1].key).Failed? && !outcome(es[2].key).Failed?
    requires !outcome(es[3].key).Failed? && !outcome(es[4].key).Failed?
    ensures NoneFails(es, wanted, outcome)
  {
    forall i | 0 <= i < 5 ensures !outcome(es[i].key).Failed? {
      if i == 0 {} else if i == 1 {} else if i == 2 {} else if i == 3 {} else {}
    }
  }
}
