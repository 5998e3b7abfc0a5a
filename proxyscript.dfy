/** The `proxy` maintenance command (scripts/proxy.py): its fetch, refresh
    and import actions on top of the command-line framework of the Scripts
    module. The database connection and the exit handler are left out;
    the refresh action's loop is `Proxies.Refresh` and the import action's
    load is `ProxyProviders.FileLoad`. */
module ProxyScript {
  import opened Wrappers
  import opened Text
  import opened Scripts
  import opened ProxyProviders
  import opened ProxyFetch

  /** `FetchAction.parse_arg`: argument 0 is a comma-separated list of
      providers, taken in lower case; any other index is kept as given. */
  function FetchParseArg(index: int, value: string): ArgValue
  {
    if index == 0 then StrList(Split(Lower(value), ',')) else AsGiven(index, value)
  }

  /** The providers given on the command line are lower-case, free of
      commas and, joined back with commas, give the lower-cased argument;
      other arguments are passed through untouched. */
  lemma FetchParseArgItems(index: int, value: string)
    ensures index != 0 ==> FetchParseArg(index, value) == Str(value)
    ensures index == 0 ==> FetchParseArg(index, value).StrList?
    ensures index == 0 ==>
      var items := FetchParseArg(index, value).items;
      |items| >= 1 && Join(items, ',') == Lower(value) &&
      forall i :: 0 <= i < |items| ==> ',' !in items[i] && forall j :: 0 <= j < |items[i]| ==> !IsUpperAscii(items[i][j])
  {
    JoinSplit(Lower(value), ',');
    SplitPiecesFrom(Lower(value), ',');
  }

  /** `FetchAction.perform(providers)`: with `providers` `None`, the wanted
      list is the configured key names in lower case; then each pair of
      `providers()` whose name is wanted is loaded, in order. */
  method FetchPerform(classes: seq<ClassInfo>, providers: Option<seq<string>>, apiKeys: seq<string>,
                      outcome: string -> LoadResult)
    returns (wanted: seq<string>, run: Run)
    ensures providers.Some? ==> wanted == providers.value
    ensures providers.None? ==> |wanted| == |apiKeys| && forall i :: 0 <= i < |apiKeys| ==> wanted[i] == Lower(apiKeys[i])
    ensures run == FetchRun(ProviderEntries(ProvidersOf(classes, NotProviders)), wanted, outcome)
  {
    if providers.None? {
      wanted := ConfiguredProviders(apiKeys);
    } else {
      wanted := providers.value;
    }
    var objs := Providers(classes);
    run := FetchLoop(ProviderEntries(objs), wanted, outcome);
  }

  /** `FetchAction`: the default action, with one optional argument. */
  method NewFetchAction() returns (a: Action)
    ensures fresh(a) && a.name == "fetch" && a.isDefault && a.parseArg == FetchParseArg
    ensures a.arguments.Some? && |a.arguments.value| == 1 && fresh(a.arguments.value[0])
    ensures a.arguments.value[0].name == "provider" && !a.arguments.value[0].required
    ensures !a.arguments.value[0].populated && a.arguments.value[0].value == None
    ensures a.parent == null && a.Distinct()
  {
    var provider := new Argument("provider", false);
    a := new Action("fetch", "Fetches proxies from a proxy list provider", Some([provider]), true, FetchParseArg);
  }

  /** `RefreshAction`: no arguments, not the default. */
  method NewRefreshAction() returns (a: Action)
    ensures fresh(a) && a.name == "refresh" && !a.isDefault && a.arguments.None?
    ensures a.parent == null && a.Distinct()
  {
    a := new Action("refresh", "Refreshes the list of cached proxies", None, false, AsGiven);
  }

  /** `ImportAction`: two required arguments, the protocol and the file. */
  method NewImportAction() returns (a: Action)
    ensures fresh(a) && a.name == "import" && !a.isDefault
    ensures a.arguments.Some? && |a.arguments.value| == 2
    ensures fresh(a.arguments.value[0]) && fresh(a.arguments.value[1])
    ensures a.arguments.value[0].name == "proto" && a.arguments.value[0].required
    ensures a.arguments.value[1].name == "file" && a.arguments.value[1].required
    ensures RequiredCount(a.arguments.value) == 2
    ensures a.parent == null && a.Distinct()
  {
    var proto := new Argument("proto", true);
    var file := new Argument("file", true);
    a := new Action("import", "Loads proxies from a file", Some([proto, file]), false, AsGiven);
    assert RequiredCount([proto, file][..1]) == 1;
  }

  /** The action table of `ProxiesCommand`: fetch (the default, one
      optional argument split by `FetchParseArg`), refresh (no arguments)
      and import (two required arguments), then help. */
  ghost predicate ProxiesTable(c: Command)
    reads c, c.actions
  {
    c.Valid() && |c.actions| == 4 &&
    c.actions[0].name == "fetch" && c.actions[1].name == "refresh" &&
    c.actions[2].name == "import" && c.actions[3].name == "help" &&
    c.actions[0].isDefault && c.actions[0].parseArg == FetchParseArg &&
    c.actions[0].arguments.Some? && |c.actions[0].arguments.value| == 1 &&
    !c.actions[0].arguments.value[0].required &&
    c.actions[1].arguments.None? &&
    c.actions[2].arguments.Some? && RequiredCount(c.actions[2].arguments.value) == 2
  }

  /** `ProxiesCommand`: fetch, refresh and import, in that order, ahead of
      the help action the post-init hook appends. */
  method NewProxiesCommand(parent: Manager?) returns (c: Command)
    ensures fresh(c) && c.name == "proxy" && c.parent == parent
    ensures ProxiesTable(c)
  {
    var fetch := NewFetchAction();
    var refresh := NewRefreshAction();
    var imp := NewImportAction();
    c := new Command("proxy", "Manages our proxies and the proxy list", parent, [fetch, refresh, imp]);
  }

  /** A bare `proxy` never fetches: the default fetch action declares an
      argument, so its count is -1 and `run` exits with status 1. */
  lemma ProxiesBareExits(c: Command, argv: seq<string>)
    requires ProxiesTable(c) && c.Argnum(argv) == 0
    ensures c.RunOutcome(argv) == Exit(NotEnoughMessage(0), 1)
  {
    assert FindDefault(c.actions) == 0;
    var args := c.actions[0].arguments.value;
    assert RequiredCount(args) == 0 by {
      assert args[..0] == [];
    }
    DefaultWithArgumentsExits(c, argv);
  }

  /** `proxy fetch a,b` performs the fetch action with the parsed list of
      providers; further arguments are ignored. */
  lemma ProxiesFetchGiven(c: Command, argv: seq<string>)
    requires ProxiesTable(c) && c.Argnum(argv) >= 2 && Lower(argv[c.ArgIndex(0)]) == "fetch"
    ensures c.RunOutcome(argv) ==
      Perform(c.actions[0], WithArgs([Some(StrList(Split(Lower(argv[c.ArgIndex(1)]), ',')))]))
  {
    var args := c.actions[0].arguments.value;
    assert RequiredCount(args) == 0 by {
      assert args[..0] == [];
    }
    var a := c.actions[0];
    assert a.parent == c;
    assert FindAction(c.actions, "fetch") == 0;
    assert a.PopCount(argv) == 1;
    assert a.FilledValue(argv, 0) == Some(FetchParseArg(0, argv[c.ArgIndex(1)]));
    assert a.FilledValues(argv) == [a.FilledValue(argv, 0)];
    assert c.RunOutcome(argv) == a.CliOutcome(argv);
  }

  /** `proxy import` with fewer than two arguments exits with status 1
      without importing. */
  lemma ProxiesImportNeedsTwo(c: Command, argv: seq<string>)
    requires ProxiesTable(c) && 1 <= c.Argnum(argv) < 3 && Lower(argv[c.ArgIndex(0)]) == "import"
    ensures c.RunOutcome(argv) == Exit(NotEnoughMessage(2), 1)
  {
    assert FindAction(c.actions, "import") == 2;
  }

  /** `proxy refresh` performs the refresh action with no arguments. */
  lemma ProxiesRefresh(c: Command, argv: seq<string>)
    requires ProxiesTable(c) && c.Argnum(argv) >= 1 && Lower(argv[c.ArgIndex(0)]) == "refresh"
    ensures c.RunOutcome(argv) == Perform(c.actions[1], Bare)
  {
    assert FindAction(c.actions, "refresh") == 1;
  }
}
