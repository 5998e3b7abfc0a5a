/** The stand-alone script bin/proxy_list.py: its `fetch_proxies` loop and
    its command-line dispatch. Its `Proxy` and `ProxyList` are those of the
    Proxies module, its providers those of ProxyProviders and ProxyItems
    (with the `speed` flag and the per-protocol OpenProxySpace entries), and
    `refresh_proxies` is `Proxies.Refresh`. */
module ProxyListScript {
  import opened Wrappers
  import opened Text
  import opened ProxyProviders
  import opened ProxyFetch

  /** The classes bin/proxy_list.py defines, sorted by name. */
  const ScriptClasses := [
    ClassInfo("OpenProxySpace", true), ClassInfo("Proxifly", true), ClassInfo("Proxy", false),
    ClassInfo("ProxyList", true), ClassInfo("ProxyScrapeFree", true), ClassInfo("PubProxy", true),
    ClassInfo("WebShare", true)]

  /** `fetch_proxies` skips only `ProxyList` itself. */
  const NotFetched := ["ProxyList"]

  /** The loop's entries: messages print the class name as written, the
      wanted list is matched against its lower-case form. */
  function ScriptEntries(objs: seq<(string, ClassInfo)>): (es: seq<Entry>)
    ensures |es| == |objs| && forall i :: 0 <= i < |objs| ==> es[i] == Entry(objs[i].1.name, objs[i].0)
  {
    seq(|objs|, i requires 0 <= i < |objs| => Entry(objs[i].1.name, objs[i].0))
  }

  lemma ScriptEntriesSnoc(objs: seq<(string, ClassInfo)>, p: (string, ClassInfo))
    ensures ScriptEntries(objs + [p]) == ScriptEntries(objs) + [Entry(p.1.name, p.0)]
  {
  }

  /** One more entry extends a run that has not stopped by that entry's
      attempt. */
  lemma FetchRunSnoc(es: seq<Entry>, e: Entry, wanted: seq<string>, outcome: string -> LoadResult)
    ensures FetchRun(es + [e], wanted, outcome) ==
      var before := FetchRun(es, wanted, outcome);
      if before.raised.Some? || e.key !in wanted then before
      else
        var step := Attempt(e, outcome(e.key));
        Run(before.attempted + [e.key], before.lines + step.0, step.1)
  {
    assert (es + [e])[..|es|] == es;
  }

  /** `fetch_proxies(providers)`: with `providers` `None`, the wanted list
      is the configured key names in lower case; then every class except
      `ProxyList` whose lower-case name is wanted is fetched, in class
      order, an `HTTPError` being reported and the loop going on. */
  method FetchProxies(classes: seq<ClassInfo>, providers: Option<seq<string>>, apiKeys: seq<string>,
                      outcome: string -> LoadResult)
    returns (wanted: seq<string>, run: Run)
    ensures providers.Some? ==> wanted == providers.value
    ensures providers.None? ==> |wanted| == |apiKeys| && forall i :: 0 <= i < |apiKeys| ==> wanted[i] == Lower(apiKeys[i])
    ensures run == FetchRun(ScriptEntries(ProvidersOf(classes, NotFetched)), wanted, outcome)
  {
    if providers.None? {
      wanted := ConfiguredProviders(apiKeys);
    } else {
      wanted := providers.value;
    }
    var attempted: seq<string> := [];
    var lines: seq<Line> := [];
    for i := 0 to |classes|
      invariant FetchRun(ScriptEntries(ProvidersOf(classes[..i], NotFetched)), wanted, outcome) == Run(attempted, lines, None)
    {
      var c := classes[i];
      ScriptStep(classes, i, wanted, outcome);
      if c.isProxyList && c.name != "ProxyList" {
        if Lower(c.name) in wanted {
          var step := Attempt(Entry(c.name, Lower(c.name)), outcome(Lower(c.name)));
          attempted := attempted + [Lower(c.name)];
          lines := lines + step.0;
          if step.1.Some? {
            ScriptEntriesPrefix(classes, i + 1);
            RunStopped(ScriptEntries(ProvidersOf(classes, NotFetched)), wanted, outcome,
                       |ScriptEntries(ProvidersOf(classes[..i + 1], NotFetched))|);
            return wanted, Run(attempted, lines, step.1);
          }
        }
      }
    }
    assert classes[..|classes|] == classes;
    return wanted, Run(attempted, lines, None);
  }

  /** What one more class adds to the run of `fetch_proxies`. */
  lemma ScriptStep(classes: seq<ClassInfo>, i: nat, wanted: seq<string>, outcome: string -> LoadResult)
    requires i < |classes|
    ensures var c := classes[i];
            var before := FetchRun(ScriptEntries(ProvidersOf(classes[..i], NotFetched)), wanted, outcome);
            var e := Entry(c.name, Lower(c.name));
            FetchRun(ScriptEntries(ProvidersOf(classes[..i + 1], NotFetched)), wanted, outcome) ==
              if !c.isProxyList || c.name == "ProxyList" || before.raised.Some? || e.key !in wanted then before
              else
                var step := Attempt(e, outcome(e.key));
                Run(before.attempted + [e.key], before.lines + step.0, step.1)
  {
    var c := classes[i];
    var objs := ProvidersOf(classes[..i], NotFetched);
    ProvidersStep(classes, NotFetched, i);
    assert Kept(c, NotFetched) <==> c.isProxyList && c.name != "ProxyList";
    if Kept(c, NotFetched) {
      ScriptEntriesSnoc(objs, (Lower(c.name), c));
      FetchRunSnoc(ScriptEntries(objs), Entry(c.name, Lower(c.name)), wanted, outcome);
      assert ScriptEntries(ProvidersOf(classes[..i + 1], NotFetched)) == ScriptEntries(objs) + [Entry(c.name, Lower(c.name))];
    } else {
      assert ProvidersOf(classes[..i + 1], NotFetched) == objs;
    }
  }

  /** The entries of a prefix of the classes are a prefix of the entries. */
  lemma {:induction false} ScriptEntriesPrefix(classes: seq<ClassInfo>, n: nat)
    requires n <= |classes|
    ensures |ScriptEntries(ProvidersOf(classes[..n], NotFetched))| <= |ScriptEntries(ProvidersOf(classes, NotFetched))|
    ensures ScriptEntries(ProvidersOf(classes, NotFetched))[..|ScriptEntries(ProvidersOf(classes[..n], NotFetched))|] ==
            ScriptEntries(ProvidersOf(classes[..n], NotFetched))
    decreases |classes| - n
  {
    if n < |classes| {
      ScriptEntriesPrefix(classes, n + 1);
      ProvidersStep(classes, NotFetched, n);
      ScriptEntriesSnoc(ProvidersOf(classes[..n], NotFetched), (Lower(classes[n].name), classes[n]));
    } else {
      assert classes[..n] == classes;
    }
  }

  lemma ScriptClassesHead()
    ensures ProvidersOf(ScriptClasses[..4], NotFetched) ==
      [(Lower("OpenProxySpace"), ScriptClasses[0]), (Lower("Proxifly"), ScriptClasses[1])]
  {
    ProvidersStep(ScriptClasses, NotFetched, 0);
    ProvidersStep(ScriptClasses, NotFetched, 1);
    ProvidersStep(ScriptClasses, NotFetched, 2);
    ProvidersStep(ScriptClasses, NotFetched, 3);
  }

  lemma ScriptClassesTail()
    ensures ProvidersOf(ScriptClasses, NotFetched) ==
      ProvidersOf(ScriptClasses[..4], NotFetched) +
      [(Lower("ProxyScrapeFree"), ScriptClasses[4]), (Lower("PubProxy"), ScriptClasses[5]), (Lower("WebShare"), ScriptClasses[6])]
  {
    ProvidersStep(ScriptClasses, NotFetched, 4);
    ProvidersStep(ScriptClasses, NotFetched, 5);
    ProvidersStep(ScriptClasses, NotFetched, 6);
    assert ScriptClasses[..7] == ScriptClasses;
  }

  /** The providers `fetch_proxies` tries, in order: every class but
      `Proxy`, which is not a `ProxyList`, and `ProxyList` itself. */
  lemma ScriptProviders()
    ensures var es := ScriptEntries(ProvidersOf(ScriptClasses, NotFetched));
            |es| == 5 &&
            es[0] == Entry("OpenProxySpace", Lower("OpenProxySpace")) && es[1] == Entry("Proxifly", Lower("Proxifly")) &&
            es[2] == Entry("ProxyScrapeFree", Lower("ProxyScrapeFree")) && es[3] == Entry("PubProxy", Lower("PubProxy")) &&
            es[4] == Entry("WebShare", Lower("WebShare"))
  {
    ScriptClassesHead();
    ScriptClassesTail();
  }

  /** The script's `ProxyScrapeFree` has the same unassigned `url`: a run
      that wants it stops with `MissingSchema`, and PubProxy and WebShare
      are never fetched. */
  lemma ScriptScrapeFreeStopsFetch(wanted: seq<string>, outcome: string -> LoadResult, status: int)
    requires Lower("ProxyScrapeFree") in wanted
    requires outcome(Lower("ProxyScrapeFree")) == FetchResult(None, status)
    requires !outcome(Lower("OpenProxySpace")).Failed? && !outcome(Lower("Proxifly")).Failed?
    ensures var run := FetchRun(ScriptEntries(ProvidersOf(ScriptClasses, NotFetched)), wanted, outcome);
            run.raised == Some("MissingSchema") && Lower("PubProxy") !in run.attempted && Lower("WebShare") !in run.attempted
  {
    ScriptProviders();
    LaterKeysDiffer();
    StopsAtThird(ScriptEntries(ProvidersOf(ScriptClasses, NotFetched)), wanted, outcome, Lower("PubProxy"), Lower("WebShare"));
  }

  // ---------------------------------------------------------------------
  // The command line

  /** What the script's `__main__` block runs. */
  datatype Dispatch =
    | FetchAll(providers: Option<seq<string>>)
    | RefreshAll
    | Invalid(message: string, status: int)

  const InvalidMessage := "Invalid command. Use \"fetch\" or \"refresh\"."

  /** The command is the lower-cased argv[1], `fetch` when there is none;
      `fetch` takes an optional lower-cased provider name from argv[2]. */
  function MainDispatch(argv: seq<string>): (d: Dispatch)
    ensures d.FetchAll? <==> |argv| <= 1 || Lower(argv[1]) == "fetch"
    ensures d.RefreshAll? <==> |argv| > 1 && Lower(argv[1]) == "refresh"
    ensures d.Invalid? ==> d == Invalid(InvalidMessage, 1)
    ensures d.FetchAll? ==> (d.providers.Some? <==> |argv| > 2)
    ensures d.FetchAll? && d.providers.Some? ==> d.providers.value == [Lower(argv[2])]
  {
    var command := if |argv| > 1 then Lower(argv[1]) else "fetch";
    if command == "fetch" then
      FetchAll(if |argv| > 2 then Some([Lower(argv[2])]) else None)
    else if command == "refresh" then RefreshAll
    else Invalid(InvalidMessage, 1)
  }

  /** The command and the provider name are matched without regard to
      ASCII case. */
  lemma MainDispatchIgnoresCase(argv: seq<string>)
    ensures |argv| > 1 ==> MainDispatch(argv[1 := Lower(argv[1])]) == MainDispatch(argv)
    ensures |argv| > 2 ==> MainDispatch(argv[2 := Lower(argv[2])]) == MainDispatch(argv)
  {
    if |argv| > 1 {
      LowerIdempotent(argv[1]);
    }
    if |argv| > 2 {
      LowerIdempotent(argv[2]);
    }
  }
}
