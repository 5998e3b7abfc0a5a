# openparcel: a Dafny model of the Python core

openparcel tracks parcels by scraping carrier websites in a browser. This
project models the sequential Python core around that scraping, and proves
properties of the model:

- the command-line framework of the maintenance scripts (`Argument`,
  `Action`, `Command`, `Manager`);
- the request-bundle decoder: the line reader over standard input and the
  BEGIN/END framing of a bundle;
- the carrier registry and the `${tracking_code}` URL templates;
- the scrape-operation state machine and the bounded pool of running
  operations;
- the proxy records, the provider lists that fetch and filter them (PubProxy,
  OpenProxySpace, ProxyScrapeFree, WebShare, file lists), the refresh and
  fetch drivers, and the two scripts that run them (`bin/proxy_list.py` and
  the `proxy` command).

The database, HTTP responses, carrier probes, the clock, configuration
values and the decryption of a bundle are parameters: each method takes the
answers those would give. The model follows the code as written, including
its quirks:

- the line reader reads standard input, not its own stream;
- `_args_list` stops early only on `populated is None`, which a boolean never
  is;
- `perform_from_cli` goes on to `perform(*None)` after performing an action
  with no arguments;
- `run_instance` leaves an operation in the pool when its run re-raises;
- OpenProxySpace re-appends one shared dictionary per protocol index;
- ProxyScrapeFree never stores the URL it builds.

Where a quirk is evidently a mistake, "## Findings" gives both the behaviour
as written and the corrected behaviour.

Modules, one per source file or concern:

- `Wrappers` defines Option and Result.
- `Text` models the Python string builtins the core uses: `lower`, `upper`,
  `split`, `join`, `ljust`, `str` and `int`; case mapping covers ASCII
  letters only.
- `RequestBundles` models `scripts/reqbundle.py`.
- `Scripts` models `scripts/__init__.py`.
- `Carriers` models `openparcel/carriers/base.py` and
  `openparcel/carriers/__init__.py`.
- `Scraper` models `openparcel/scraper.py`.
- `Proxies` models `Proxy`, `ProxyList` and the refresh loop.
- `ProxyProviders` models the provider URLs, `_fetch` and the file list.
- `ProxyItems` models the item processing of OpenProxySpace and
  ProxyScrapeFree.
- `ProxyFetch` models `providers()` and the fetch loop.
- `ProxyListScript` models `bin/proxy_list.py`.
- `ProxyScript` models `scripts/proxy.py`.

## Model

| member | source | states |
|---|---|---|
| RequestBundles.StdIn.Read1 | scripts/reqbundle.py:28 | `read(1)` gives the next character and advances, or `''` at the end without advancing |
| RequestBundles.DropCR | scripts/reqbundle.py:37-39 | the result holds no `'\r'`, and no `'\n'` unless the input had one |
| RequestBundles.Complete | scripts/reqbundle.py:31-36 | the part of the input delivered as lines is the longest prefix ending in `'\n'`; the rest holds no `'\n'` |
| RequestBundles.LinesAreClean | scripts/reqbundle.py:34-42 | no line yielded contains `'\n'` or `'\r'` |
| RequestBundles.LinesRoundTrip | scripts/reqbundle.py:23-42 | rejoining the lines with `'\n'` gives the input up to its last `'\n'` with every `'\r'` removed, so only the unterminated tail is lost |
| RequestBundles.FirstLine | scripts/reqbundle.py:34-36 | the first `'\n'` ends the first line, which excludes it |
| RequestBundles.LinesIgnoreTail | scripts/reqbundle.py:31-33 | characters after the last `'\n'` never reach a line |
| RequestBundles.InputLineStream.constructor | scripts/reqbundle.py:17-18 | keeps the stream it is given |
| RequestBundles.InputLineStream.ScanLine | scripts/reqbundle.py:27-42 | reads on until a `'\n'`, which it consumes, or to the end of the input when none is left; the characters before it, without `'\r'`, are collected |
| RequestBundles.InputLineStream.Next | scripts/reqbundle.py:23-42 | consumes up to and including the first `'\n'` and returns the line before it without `'\r'`; with no `'\n'` left it consumes the rest and stops; the line is the head of the remaining lines |
| RequestBundles.Find | scripts/reqbundle.py:81-82 | index of the first occurrence, the length of the list exactly when there is none |
| RequestBundles.Without | scripts/reqbundle.py:74-76 | the result holds no occurrence of the dropped line |
| RequestBundles.CollectIsPayload | scripts/reqbundle.py:69-85 | the flag-and-accumulator loop computes the framed payload |
| RequestBundles.PayloadFraming | scripts/reqbundle.py:72-85 | lines before the first BEGIN (an END included) and after the END that follows it are ignored, and repeated BEGIN lines are dropped |
| RequestBundles.PayloadAfterBegin | scripts/reqbundle.py:69-85 | the payload is the BEGIN-free concatenation of what follows the first BEGIN up to the next END, or to the end of input when there is none |
| RequestBundles.PayloadExample | scripts/reqbundle.py:72-85 | a worked framing with a stray END, a repeated BEGIN and trailing lines |
| RequestBundles.MarkersDiffer | scripts/reqbundle.py:74-81 | the BEGIN and END marker lines differ |
| RequestBundles.Consumed | scripts/reqbundle.py:72-82 | the reader stops within the lines, at the END line that closes the bundle |
| RequestBundles.ScanStep | scripts/reqbundle.py:72-85 | one iteration of the reading loop keeps the scan invariant, or ends with the whole payload at END |
| RequestBundles.ReadBundle | scripts/reqbundle.py:67-90 | hands `decrypt` exactly the framed payload of the lines read from standard input, and consumes through the END line only |
| RequestBundles.DecodePerform | scripts/reqbundle.py:101-111 | decrypts the argument when given and leaves the input alone; reads a bundle from standard input only without one; hands `print` two newlines and the result (`print` adds the final newline) |
| RequestBundles.NewRequestBundleCommand | scripts/reqbundle.py:114-126 | the `reqbundle` command holds the default `decode` action, which declares no arguments, followed by help |
| RequestBundles.DecodeReadsStdin | scripts/reqbundle.py:93-111 | from the command line, `decode` runs bare or by name (always without an argument), `help` runs by name, and any other name exits with status 1 |
| Scripts.Argument.constructor | scripts/__init__.py:16-20 | a new argument has no value and is not populated |
| Scripts.Argument.SetValue | scripts/__init__.py:22-25 | stores the value and marks the argument populated |
| Scripts.Argument.UsageStr | scripts/__init__.py:27-32 | the name in `<>` exactly when required, in `[]` exactly when not |
| Scripts.UsageStrs | scripts/__init__.py:103-104 | one usage string per argument, in order |
| Scripts.RequiredCountBounds | scripts/__init__.py:57-60 | the count is the list's length exactly when all arguments are required, and 0 exactly when none is |
| Scripts.ArgsUsageWords | scripts/__init__.py:103-104 | the argument part of a usage line splits on spaces back into the usage strings |
| Scripts.ShortUsageWords | scripts/__init__.py:94-106 | `usage_short` is the name plus a space, then each argument's usage string plus a space; just `name ` without arguments |
| Scripts.Action.constructor | scripts/__init__.py:35-43 | a new action has the class attributes given and no parent |
| Scripts.Action.PopCount | scripts/__init__.py:74-88 | `populate_args` fills at most the declared arguments and at most as many as were given |
| Scripts.Action.PopulateArgs | scripts/__init__.py:74-88 | the first `min(len(arguments), argnum())` arguments get the parsed argv entries after the action name, in order, and the others are untouched; with a negative count the `IndexError` comes before anything is set |
| Scripts.Action.ArgsList | scripts/__init__.py:116-134 | `None` without arguments or with an empty list; otherwise every argument's value in order, unpopulated ones included |
| Scripts.Action.PerformFromCli | scripts/__init__.py:49-72 | performs bare without an argument list; exits with status 1 without performing when fewer arguments than required were given; otherwise populates and performs with their values |
| Scripts.NotEnoughNeverPerforms | scripts/__init__.py:56-65 | the exit happens exactly when too few arguments were given, with status 1; otherwise the action is performed |
| Scripts.Action.UsageShort | scripts/__init__.py:94-106 | the accumulating loop builds the short usage |
| Scripts.Action.UsageLong | scripts/__init__.py:108-110 | the padded line with the description |
| Scripts.MaxOfIsMax | scripts/__init__.py:220-223 | the padding is the largest width: no width exceeds it, and some width equals it |
| Scripts.Widths | scripts/__init__.py:221-223 | one width per action, the length of its short usage |
| Scripts.ColumnsAlign | scripts/__init__.py:220-230 | with the computed padding the ` -  ` before each description starts in the same column on every line |
| Scripts.FindAction | scripts/__init__.py:175-178 | first index of the name: no earlier action has it |
| Scripts.FindActionIsFirst | scripts/__init__.py:175-178 | the index found is the first that holds the name |
| Scripts.FindDefault | scripts/__init__.py:186-189 | first default action: no earlier one is default |
| Scripts.FindDefaultIsFirst | scripts/__init__.py:186-189 | the index found is the first default |
| Scripts.FindCommand | scripts/__init__.py:283-286 | first command with the name: no earlier one has it |
| Scripts.FindCommandIsFirst | scripts/__init__.py:283-286 | the index found is the first that holds the name |
| Scripts.Command.constructor | scripts/__init__.py:154-171 | the subclass's actions in order, then a new help action from the post-init hook, each with this command as parent |
| Scripts.Command.Argnum | scripts/__init__.py:249-257 | `len(argv) - 1` without a manager and `len(argv) - 2` with one; `_arg_index` of the count is the end of argv |
| Scripts.Command.Arg | scripts/__init__.py:245-247 | an argument exists exactly below the count and is argv at `_arg_index` |
| Scripts.ActionArgsFollowName | scripts/__init__.py:82-114 | an action's argument `j` is argv at its command's index `j + 1`, and exists exactly when `j` is below the action's count |
| Scripts.Command.AddAction | scripts/__init__.py:207-210 | sets the parent and appends the action last |
| Scripts.Command.PostInit | scripts/__init__.py:168-171 | appends a new help action, without arguments and not default |
| Scripts.Command.PerformAction | scripts/__init__.py:173-180 | performs the first action with the name, or raises `RuntimeError` |
| Scripts.Command.Run | scripts/__init__.py:182-205 | without arguments performs the first default action or exits 1; otherwise performs the action named by the lower-cased first argument, or exits 1 |
| Scripts.DefaultWithArgumentsExits | scripts/__init__.py:182-189 | a default action that declares arguments cannot run from a bare command line: its count is -1, so `run` exits with status 1 |
| Scripts.Command.ComputePadding | scripts/__init__.py:220-223 | the padding loop computes the widest short usage |
| Scripts.Command.ActionLines | scripts/__init__.py:229-230 | one long usage line per action, in order |
| Scripts.Command.Usage | scripts/__init__.py:212-230 | the header names `argv[0]`, or the manager and the command under a manager, then the action lines |
| Scripts.Command.UsageShort | scripts/__init__.py:232-234 | a command's short usage is its name |
| Scripts.Manager.constructor | scripts/__init__.py:267-269 | named after `argv[0]`, with no commands yet |
| Scripts.Manager.AppendCommand | scripts/__init__.py:293-295 | appends the command last |
| Scripts.Manager.Run | scripts/__init__.py:274-291 | exits 1 when no command is named; otherwise runs the first command named by the lower-cased `argv[1]`, or exits 1 |
| Scripts.Manager.ComputePadding | scripts/__init__.py:315-318 | the padding is the longest command name |
| Scripts.Manager.CommandLines | scripts/__init__.py:324-325 | one long usage line per command, in order |
| Scripts.Manager.Usage | scripts/__init__.py:312-325 | the header, then the command lines |
| Scripts.NameWidths | scripts/__init__.py:317 | one width per command, the length of its name |
| Scripts.CommandColumnsAlign | scripts/__init__.py:312-325 | with the manager's padding the `  -  ` before each description starts in the same column |
| Carriers.IdLen | openparcel/carriers/base.py:31-33 | the placeholder name is the longest run of identifier characters |
| Carriers.SubstituteBraced | openparcel/carriers/base.py:31-33 | `${key}` is replaced by the mapping's value, or fails with `KeyError` naming the key |
| Carriers.SubstituteOne | openparcel/carriers/base.py:31-33 | a placeholder after `$`-free text is replaced by the code and the text is copied |
| Carriers.SubstituteWeave | openparcel/carriers/base.py:31-33 | every `${tracking_code}` between `$`-free chunks is replaced by the code and the chunks are unchanged |
| Carriers.SubstituteMissing | openparcel/carriers/base.py:31-33 | a placeholder whose name is not mapped fails with `KeyError` |
| Carriers.TrailingDollarInvalid | openparcel/carriers/base.py:31-33 | a `$` at the end of a template is an invalid placeholder |
| Carriers.TwoChunkUrl | openparcel/carriers/base.py:31-33 | a one-placeholder template gives its text with the code in place |
| Carriers.ThreeChunkUrl | openparcel/carriers/base.py:31-33 | both placeholders of a two-placeholder template are filled |
| Carriers.DhlUrl | openparcel/carriers/dhl.py:11-12 | the DHL URL is its template text with the code in the placeholder |
| Carriers.CttUrl | openparcel/carriers/ctt.py:11-13 | both placeholders of the CTT template are filled with the code |
| Carriers.DpdUrl | openparcel/carriers/dpd.py:11-12 | the DPD URL ends with the code |
| Carriers.YunExpressUrl | openparcel/carriers/yunexpress.py:11-12 | the YunExpress URL ends with the code |
| Carriers.CarrierTrackingUrls | openparcel/carriers/base.py:24-33 | `get_tracking_url` of a DHL, CTT, DPD (PT) or YunExpress instance with a code is that carrier's URL with the code filled in |
| Carriers.Dict.constructor | openparcel/carriers/base.py:39 | a response dictionary holds the entries given |
| Carriers.Page.constructor | openparcel/carriers/base.py:60-61 | a new browser page has visited nothing and is open |
| Carriers.Carrier.constructor | openparcel/carriers/base.py:12-54 | a fresh carrier keeps its class and code, with no response dictionary and no page |
| Carriers.Carrier.GetTrackingUrl | openparcel/carriers/base.py:24-33 | fails with `TrackingCodeNotFound` exactly when there is no code; otherwise the template with the code substituted; reads only constant fields |
| Carriers.Carrier.CreateRespDict | openparcel/carriers/base.py:39-43 | keeps the given dictionary with `accentColor` set to the class colour, overwriting it and leaving other keys alone |
| Carriers.Carrier.GetScrapingJs | openparcel/carriers/base.py:73-87 | the script named (the uid by default) from `scrapers/` under the root, or `ScrapingJsNotFound` with its path |
| Carriers.Carrier.FetchPage | openparcel/carriers/base.py:56-65 | creates a page only when there is none, and an existing page keeps its `closed` flag; then visits the tracking URL and loads the `utils` script; on success the page's scripts gain exactly the `utils` script, and on an error of either step they stay as they were (empty for a new page) |
| Carriers.Carrier.ClosePage | openparcel/carriers/base.py:67-71 | closes the page, whose visited URLs and scripts stay as they were, and leaves `page` as `None`; without a page the call fails |
| Carriers.Carrier.WaitPageComplete | openparcel/carriers/base.py:89-100 | runs exactly the notification script for `elem` in the page, whose visited URLs and `closed` flag stay as they were; succeeds exactly when the alert text is `READY!`, and raises `TimeoutError` otherwise |
| Carriers.CarrierFilter | openparcel/carriers/__init__.py:34-41 | every class kept has a name starting with `Carrier` and is a member scanned |
| Carriers.CarrierFilterKeeps | openparcel/carriers/__init__.py:39-41 | every class named `Carrier...` is kept |
| Carriers.BaseClassesFiltered | openparcel/carriers/__init__.py:39-40 | `BaseCarrier` and `BrowserBaseCarrier` never get into the registry |
| Carriers.NamesOf | openparcel/carriers/__init__.py:55-56 | `names()[i]` is `carriers()[i].name` |
| Carriers.FindByUid | openparcel/carriers/__init__.py:61-67 | `None` exactly when no class has the uid; otherwise a class with the uid |
| Carriers.FindByUidFirst | openparcel/carriers/__init__.py:63-65 | the class found is the first with the uid |
| Carriers.FindByName | openparcel/carriers/__init__.py:70-76 | `None` exactly when no class has the name; otherwise a class with it |
| Carriers.FindByNameFirst | openparcel/carriers/__init__.py:72-74 | the class found is the first with the name |
| Carriers.Registry.constructor | openparcel/carriers/__init__.py:28-50 | nothing is cached before the first call |
| Carriers.Registry.Carriers | openparcel/carriers/__init__.py:21-43 | the filtered class list, scanned once and cached; later calls return the cache |
| Carriers.Registry.Names | openparcel/carriers/__init__.py:46-58 | the names of `carriers()` in order, cached after the first call |
| Carriers.Registry.FromId | openparcel/carriers/__init__.py:61-67 | the first carrier with the uid, through the cache |
| Carriers.Registry.FromName | openparcel/carriers/__init__.py:70-76 | the first carrier with the name, through the cache |
| Scraper.Value | openparcel/scraper.py:16-18 | the enum values are `range(6)` |
| Scraper.FromValue | openparcel/scraper.py:18 | each value names its state |
| Scraper.ValueBijective | openparcel/scraper.py:20-36 | equal values are equal states, and the order on values is total |
| Scraper.StatesAscend | openparcel/scraper.py:16-36 | UNKNOWN < SETUP < FETCHING < FETCHED < SCRAPED < DONE, with UNKNOWN the least and DONE the greatest |
| Scraper.ShouldLog | openparcel/scraper.py:62-66 | every exception is logged except a scraping error with code `ParcelNotFound` or `InvalidTrackingCode` |
| Scraper.ScrapeOperation.constructor | openparcel/scraper.py:38-49 | a new operation is in SETUP with no stored exception and is named after the lower-cased code |
| Scraper.ScrapeOperation.SetState | openparcel/scraper.py:119-122 | sets the state only |
| Scraper.ScrapeOperation.StoreException | openparcel/scraper.py:106-117 | stores the exception and logs it only when asked; the state is kept |
| Scraper.ScrapeOperation.Fetch | openparcel/scraper.py:51-71 | always ends FETCHED; the carrier's exception is stored and logged unless it is an expected scraping error |
| Scraper.ScrapeOperation.Run | openparcel/scraper.py:73-88 | the fetch runs to completion, the state becomes SCRAPED and a stored exception is raised again: the carrier's own exception if it raised one, otherwise the one stored before |
| Scraper.ScrapeOperation.MarkDone | openparcel/scraper.py:124-126 | the state becomes DONE |
| Scraper.ScrapeOperation.IsScrapeDone | openparcel/scraper.py:128-131 | holds exactly when the state is at least SCRAPED |
| Scraper.ScrapeOperation.IsDone | openparcel/scraper.py:137-140 | holds exactly when the state is DONE |
| Scraper.ScrapeOperation.WasExceptionRaised | openparcel/scraper.py:133-135 | holds exactly when an exception is stored |
| Scraper.FinishedThreadHangs | openparcel/scraper.py:79-80 | the wait loop as written never ends once the thread has finished |
| Scraper.WaitWhileAliveStops | openparcel/scraper.py:79-80 | waiting while the thread is alive stops at the first poll after it finished |
| Scraper.FindSimilar | openparcel/scraper.py:205-207 | first instance similar to the parcel: no earlier one is |
| Scraper.RemoveFirstCount | openparcel/scraper.py:226 | `list.remove` takes out exactly one occurrence |
| Scraper.RemoveFirstAt | openparcel/scraper.py:226 | the first occurrence is removed and the others keep their order |
| Scraper.RemoveFirstOfAppended | openparcel/scraper.py:211-226 | removing an operation just appended gives the list back |
| Scraper.ScrapingPool.constructor | openparcel/scraper.py:154-156 | a new pool has no instances |
| Scraper.ScrapingPool.GetOperation | openparcel/scraper.py:199-209 | the first instance similar to the parcel, or `None` when there is none |
| Scraper.ScrapingPool.AddInstance | openparcel/scraper.py:218-221 | appends the operation |
| Scraper.ScrapingPool.DropInstance | openparcel/scraper.py:223-226 | removes the first occurrence; a missing operation is the `ValueError` and leaves the list alone |
| Scraper.ScrapingPool.IsAvailable | openparcel/scraper.py:228-231 | holds exactly when fewer than `max_instances` operations run |
| Scraper.ScrapingPool.RunInstance | openparcel/scraper.py:211-216 | a run that raises nothing leaves the list as it was; a run that re-raises leaves its operation in the list |
| Scraper.ScrapingPool.Fetch | openparcel/scraper.py:165-197 | refused as a duplicate (of the first similar operation, with the pool unchanged) exactly when a similar operation runs; a full pool times out; otherwise a new operation for the parcel runs through `run_instance` and ends SCRAPED, completed or raised |
| Proxies.Proxy.constructor | openparcel/proxies.py:31-47 | the country is upper-cased, the protocol lower-cased and a missing carrier list is empty |
| Proxies.AsStrParts | openparcel/proxies.py:187-189 | `as_str` splits on `:` into the protocol, `//` plus the address, and the port, which reads back as the number |
| Proxies.Recorded | openparcel/proxies.py:75-127 | the carriers recorded are among those probed, in carrier order |
| Proxies.RecordedExactly | openparcel/proxies.py:93-121 | a carrier is recorded, with its timing, exactly when its fetch succeeded or raised `ParcelNotFound` or `InvalidTrackingCode` |
| Proxies.RecordedEmpty | openparcel/proxies.py:72-130 | nothing is recorded exactly when no probe counts |
| Proxies.FirstUncaught | openparcel/proxies.py:83-126 | the first probe whose error `test` does not catch |
| Proxies.SumBounds | openparcel/proxies.py:133 | the sum of the timings lies between count times the least and count times the greatest |
| Proxies.RoundBetween | openparcel/proxies.py:133-134 | the rounded mean lies between any bounds of the values |
| Proxies.SpeedBetween | openparcel/proxies.py:133-134 | the new speed lies between the fastest and slowest recorded timing |
| Proxies.Proxy.Test | openparcel/proxies.py:69-138 | starts from an empty list, records every counting probe, returns false exactly when nothing was recorded, and otherwise sets the speed to the rounded mean; an uncaught error ends it |
| Proxies.TestPasses | openparcel/proxies.py:128-138 | `test` passes exactly when no error escaped and some probe counts |
| Proxies.Proxy.Save | openparcel/proxies.py:156-185 | deactivates a proxy with no working carrier, keeps `active` otherwise; updates with an id, inserts and adopts the new id without one |
| Proxies.Refresh | bin/proxy_list.py:466-472 | every proxy is tested again, deactivated when the test fails and saved, in order: each saved proxy records what its test recorded, has the rounded mean speed when the test passed and its old speed otherwise, and is updated under its own id or inserted and given the new id; an uncaught error stops at that proxy, which keeps only the new records, and the later proxies are untouched |
| Proxies.RefreshOne | scripts/proxy.py:61-65 | one proxy: tested, deactivated on failure, then saved with the right statement; the saved row carries the new records and speed; after an uncaught error only the records changed |
| Proxies.AcceptedIndicesValid | openparcel/proxies.py:215-239 | each index names a trial `append` accepts, and they increase |
| Proxies.KeepStep | openparcel/proxies.py:224-239 | the proxy built from item `i` joins the kept ones exactly when its trial is accepted |
| Proxies.ProxyList.constructor | openparcel/proxies.py:196-205 | a new list is empty and keeps `auto_save` |
| Proxies.ProxyList.ImportApiKey | openparcel/proxies.py:260-267 | the key given, or else the configured one |
| Proxies.ProxyList.Append | openparcel/proxies.py:215-239 | a duplicate is rejected untested; otherwise the proxy is appended (and saved with `auto_save`) exactly when its test passes; the list is unchanged otherwise; the save is an insert of the proxy's row for a proxy without an id, which then adopts the new id, and an update otherwise; a kept proxy has the rounded mean speed of its test, and any other keeps its speed |
| Proxies.ProxyList.AppendNew | openparcel/proxies.py:314-323 | a proxy built from the item's fields is handed to `append`; it is kept exactly when its trial is accepted, and `append` raises exactly when the proxy is new and its test raises, with the test's error; a tested proxy records what its test recorded, and its speed is the test's rounded mean when kept and the item's speed otherwise |
| Proxies.FirstRaise | openparcel/proxies.py:310-312 | the first item whose `_append_item` raises, or the number of items when none does: every earlier trial lets `append` return |
| Proxies.MatchAllConcat | openparcel/proxies.py:310-312 | the proxies built by successive runs, joined, match the specs joined in the same order |
| Proxies.ProxyList.AppendAll | openparcel/proxies.py:310-312 | items are tried in order; the run raises exactly when some trial raises, and then with the first raising trial's error; the list grows by the proxies of the accepted items before that trial (all items when none raises), in order, each carrying what its test recorded and the speed that test set |
| ProxyProviders.KeyName | openparcel/proxies.py:280-289 | the query keys hold no `&` |
| ProxyProviders.SplitQuery | openparcel/proxies.py:279-289 | a URL built by `+= '&key=value'` splits on `&` back into the base and the parameters |
| ProxyProviders.LookupAt | openparcel/proxies.py:279-289 | a server reading the query sees the first parameter with a key |
| ProxyProviders.LookupFirstValue | openparcel/proxies.py:279-289 | the lookup finds the first of a key's values, and finds one exactly when there is one |
| ProxyProviders.AddParam | openparcel/proxies.py:281 | `self.url += '&key=value'` adds one parameter |
| ProxyProviders.AddOptional | openparcel/proxies.py:279-284 | a parameter is added only when its value is present |
| ProxyProviders.NewPubProxy | openparcel/proxies.py:274-290 | the key is imported, the URL grows one parameter at a time and is kept as the common URL |
| ProxyProviders.AddPubProxyBounds | openparcel/proxies.py:279-284 | the key, freshness bound, optional speed, limit and denylist, before the flags |
| ProxyProviders.AddFlags | openparcel/proxies.py:285-289 | the five capability flags |
| ProxyProviders.PubProxyLookups | bin/proxy_list.py:266-272 | the server reads the key exactly when there is one, the freshness bound, `speed=10` only in the script's variant, a limit of 5 without a key and 20 with one, and the comma-joined denylist only when given |
| ProxyProviders.PubProxyFlags | openparcel/proxies.py:285-289 | every capability flag reads as set, whatever else the URL carries |
| ProxyProviders.PubProxyQuery | bin/proxy_list.py:266-278 | the URL splits on `&` into the base and exactly these parameters |
| ProxyProviders.LoadUrlsCycle | bin/proxy_list.py:280-287 | `load(num)` requests `3 * num` URLs, request `i` asking for `('http', 'socks4', 'socks5')[i % 3]` |
| ProxyProviders.ResponseAnswer | openparcel/proxies.py:209-212 | a non-200 status is an `HTTPError` that adds nothing; a 200 response fails exactly when one of its items raises |
| ProxyProviders.ListLoad | openparcel/proxies.py:209-212 | one `ProxyList.load()` of the current URL ends as its response's answer says, and the list grows by proxies built from exactly that answer's kept items |
| ProxyProviders.PubProxyLoad | openparcel/proxies.py:292-299 | the two nested loops are one run over request `i` with protocol `i % 3`; the URLs requested are a prefix of those of `LoadUrlsCycle`, all of them when it returns normally; it stops at the first request whose load raises, with that error, and every earlier one loaded; the list grows by the kept proxies of the requests made, in order; `url` is the last URL requested and the common URL stays |
| ProxyProviders.NewOpenProxySpace | openparcel/proxies.py:388-394 | the key (given or configured) and the amount go into the query |
| ProxyProviders.OpenProxySpaceSplit | openparcel/proxies.py:393-394 | the URL splits on `&` into exactly its parameters |
| ProxyProviders.OpenProxySpaceValues | openparcel/proxies.py:393-394 | the server reads the key (`None` when there is none) and an amount that parses back to the quantity |
| ProxyProviders.ProtoFromIndex | openparcel/proxies.py:396-407 | 1, 2 and 3 name http, socks4 and socks5; any other index is a `ValueError` naming it |
| ProxyProviders.ProtoFromIndexInjective | openparcel/proxies.py:396-407 | different indices name different protocols, and the error message gives the index back |
| ProxyProviders.NewWebShare | openparcel/proxies.py:493-501 | the page size is added and kept as the common URL; the header is `Token` plus the key |
| ProxyProviders.WebShareLoad | openparcel/proxies.py:503-505 | the page is added to the common URL |
| ProxyProviders.WebSharePages | openparcel/proxies.py:491-504 | a loaded URL carries `page` twice, `1` first and then the page asked for |
| ProxyProviders.NewProxyScrapeFreeAsWritten | openparcel/proxies.py:445-450 | the URL is built into a local and dropped, so `url` stays `None` |
| ProxyProviders.NewProxyScrapeFree | openparcel/proxies.py:445-450 | corrected: the URL built is the one requested |
| ProxyProviders.ScrapeFreeTimeout | openparcel/proxies.py:447-449 | the server reads the timeout back from the URL |
| ProxyProviders.FetchResult | openparcel/proxies.py:245-253 | a response loads exactly when there is a URL and the status is 200; another status is `HTTPError` with its message; no URL is `MissingSchema` |
| ProxyProviders.ParseLine | openparcel/proxies.py:547-548 | `IndexError` exactly when the line has no `:`; the address is the text before the first `:` |
| ProxyProviders.ParseLineRoundTrip | openparcel/proxies.py:546-548 | a line `addr:port` followed by white space reads back as `(addr, port)` |
| ProxyProviders.CollectOk | openparcel/proxies.py:545-548 | reading succeeds exactly when every line parses, with the pairs in order |
| ProxyProviders.CollectErr | openparcel/proxies.py:545-548 | a failed read gives the error of the first failing line |
| ProxyProviders.CollectErrStays | openparcel/proxies.py:545-548 | once a line fails, later lines change nothing |
| ProxyProviders.ReadPairs | openparcel/proxies.py:545-548 | the reading loop computes the pairs of all lines, or the first error |
| ProxyProviders.FileLoad | openparcel/proxies.py:541-572 | a line that does not parse raises before any proxy is tried; otherwise each pair is tried in order as a proxy of the list's protocol in country `ZZ`, a raising test stops the load with its error, and the list grows by the accepted proxies before it, each carrying what its test recorded and the speed that test set |
| ProxyProviders.FileLoadProxies | openparcel/proxies.py:541-572 | every proxy kept comes from the line of its accepted trial, in file order, with the protocol lower-cased and country `ZZ` |
| ProxyItems.SpaceItem.constructor | openparcel/proxies.py:415 | a response item before any protocol is written into it |
| ProxyItems.BadIndex | openparcel/proxies.py:416-417 | the first index of an item that `proto_from_index` rejects |
| ProxyItems.FirstBad | openparcel/proxies.py:415-417 | the first rejected index over all items |
| ProxyItems.TagItem | openparcel/proxies.py:416-418 | every index is mapped and written into the same dictionary, appended once per index; a bad index raises |
| ProxyItems.FlattenSpace | openparcel/proxies.py:414-418 | succeeds exactly when every index is valid; the flat list then holds each item once per index, and every entry carries its item's last protocol |
| ProxyItems.FirstBadNone | openparcel/proxies.py:415-417 | the flattening succeeds exactly when every index is 1, 2 or 3 |
| ProxyItems.FlatEntries | openparcel/proxies.py:415-418 | one entry per item and index, in order, at the position the earlier items leave |
| ProxyItems.FlatFromItems | openparcel/proxies.py:417-418 | every entry of the flat list carries its item's last protocol |
| ProxyItems.BinSpaceEntries | bin/proxy_list.py:371-381 | with valid indices, the script builds one proxy per item and index, in the same order, each with that index's own protocol |
| ProxyItems.SpaceProtocolsDiffer | openparcel/proxies.py:414-418 | for an item listing 1 and 3 the script builds http and socks5, the shared dictionary socks5 twice |
| ProxyItems.SortSorted | openparcel/proxies.py:456-457 | the sorted list is ordered by timeout and a permutation of the input |
| ProxyItems.SortStable | openparcel/proxies.py:456-457 | items with equal timeouts keep their response order |
| ProxyItems.AliveMembers | openparcel/proxies.py:461-465 | an item is kept exactly when it is in the list and alive with SSL |
| ProxyItems.AliveSortCommute | openparcel/proxies.py:456-465 | filtering the sorted list is sorting the filtered list |
| ProxyItems.ScrapeFreeItems | openparcel/proxies.py:452-475 | the items kept are the alive SSL ones in stable timeout order |
| ProxyItems.ScrapeFreeOrder | bin/proxy_list.py:394-411 | exactly the alive SSL items, sorted by timeout, as a permutation of them with equal timeouts in response order |
| ProxyFetch.Providers | openparcel/proxies.py:575-585 | every `ProxyList` subclass except `ProxyList` and `FileProxyList`, named in lower case, in class order |
| ProxyFetch.ProvidersMembers | openparcel/proxies.py:580-583 | a pair is listed exactly when its class is kept, under its lower-case name |
| ProxyFetch.ProxiesModuleProviders | openparcel/proxies.py:575-585 | the providers of the module are openproxyspace, proxifly, proxyscrapefree, pubproxy and webshare, in that order |
| ProxyFetch.Names | openparcel/proxies.py:583 | the names of a provider list, in order |
| ProxyFetch.FetchLoop | scripts/proxy.py:34-43 | the loop computes the run of the fetch over the wanted providers |
| ProxyFetch.RunStopped | scripts/proxy.py:34-43 | once an exception escaped, the remaining providers change nothing |
| ProxyFetch.FetchAllWanted | scripts/proxy.py:34-43 | when no load raises anything but `HTTPError`, every wanted provider is loaded, in order, and the run ends normally |
| ProxyFetch.FetchStopsAt | scripts/proxy.py:36-43 | any other exception ends the run at that provider, and later wanted providers are never loaded |
| ProxyFetch.WantedKeysFrom | scripts/proxy.py:34-35 | only wanted providers that exist are loaded |
| ProxyFetch.NeverLoadedAfterStop | scripts/proxy.py:34-43 | a provider that comes only after the one that stopped the run is never loaded |
| ProxyFetch.ProviderEntries | scripts/proxy.py:34-37 | providers are printed and matched by their lower-case name |
| ProxyFetch.ConfiguredProviders | scripts/proxy.py:28-31 | without providers given, the wanted list is the configured key names in lower case |
| ProxyFetch.ModuleEntryKeys | openparcel/proxies.py:575-585 | the keys of the module's entries, in order |
| ProxyFetch.StopsAtThird | scripts/proxy.py:34-43 | a run whose third provider raises stops there |
| ProxyFetch.ScrapeFreeStopsFetch | openparcel/proxies.py:445-450 | as written, wanting ProxyScrapeFree stops the fetch with `MissingSchema`, and PubProxy and WebShare are never loaded |
| ProxyFetch.ScrapeFreeFetchCorrected | openparcel/proxies.py:445-450 | corrected, every wanted provider is loaded in order when each load succeeds or fails with `HTTPError` |
| ProxyListScript.ScriptEntries | bin/proxy_list.py:453-457 | the script prints the class name and matches its lower-case form |
| ProxyListScript.FetchProxies | bin/proxy_list.py:444-463 | the wanted list is the one given or the configured names in lower case; every class but `ProxyList` whose lower-case name is wanted is fetched in class order, an `HTTPError` being reported and the loop going on |
| ProxyListScript.ScriptStep | bin/proxy_list.py:453-463 | what one more class adds to the run |
| ProxyListScript.ScriptEntriesPrefix | bin/proxy_list.py:453-454 | the entries of a prefix of the classes are a prefix of the entries |
| ProxyListScript.ScriptProviders | bin/proxy_list.py:453-454 | the script tries every class but `Proxy` and `ProxyList`, in class order |
| ProxyListScript.ScriptScrapeFreeStopsFetch | bin/proxy_list.py:387-392 | the script's ProxyScrapeFree has the same unassigned `url`, so a run that wants it stops with `MissingSchema` |
| ProxyListScript.MainDispatch | bin/proxy_list.py:487-510 | the command is the lower-cased `argv[1]`, `fetch` by default; `fetch` takes an optional lower-cased provider from `argv[2]`; anything else exits 1 |
| ProxyListScript.MainDispatchIgnoresCase | bin/proxy_list.py:488-500 | the command and the provider are matched regardless of ASCII case |
| ProxyScript.FetchParseArgItems | scripts/proxy.py:45-50 | argument 0 becomes lower-case, comma-free pieces that join back to the lower-cased text; other arguments pass unchanged |
| ProxyScript.FetchPerform | scripts/proxy.py:25-43 | the wanted list is the one given or the lower-cased configured names; the run is the fetch loop over `providers()` |
| ProxyScript.NewFetchAction | scripts/proxy.py:16-23 | the default `fetch` action with one optional `provider` argument |
| ProxyScript.NewRefreshAction | scripts/proxy.py:53-58 | the `refresh` action, not default, without arguments |
| ProxyScript.NewImportAction | scripts/proxy.py:68-74 | the `import` action with the required `proto` and `file` arguments |
| ProxyScript.NewProxiesCommand | scripts/proxy.py:81-96 | fetch, refresh and import, in that order, ahead of help |
| ProxyScript.ProxiesBareExits | scripts/proxy.py:19-20 | a bare `proxy` exits with status 1 instead of fetching |
| ProxyScript.ProxiesFetchGiven | scripts/proxy.py:25-50 | `proxy fetch a,b` performs fetch with the parsed list of providers |
| ProxyScript.ProxiesImportNeedsTwo | scripts/proxy.py:71 | `proxy import` with fewer than two arguments exits with status 1 |
| ProxyScript.ProxiesRefresh | scripts/proxy.py:60-65 | `proxy refresh` performs the refresh action with no arguments |
| Text.Lower | openparcel/proxies.py:40 | ASCII case mapping only: keeps the length, turns each capital into the small letter of the same name (its capital is the original), leaves no ASCII capital and leaves every other character as it is |
| Text.Upper | openparcel/proxies.py:38 | ASCII case mapping only: keeps the length, turns each small letter into the capital of the same name (its small letter is the original), leaves no ASCII small letter and leaves every other character as it is |
| Text.LowerIdempotent | scripts/__init__.py:196 | lower-casing twice is lower-casing once |
| Text.Split | openparcel/proxies.py:547 | `split` gives at least one piece, none holding the separator |
| Text.JoinSplit | scripts/proxy.py:48 | joining the pieces of a split gives the string back |
| Text.SplitJoin | openparcel/proxies.py:284 | splitting a join of separator-free pieces gives the pieces back |
| Text.LJust | scripts/__init__.py:110 | `ljust` pads with spaces up to the width and keeps a longer string whole |
| Text.NatToString | openparcel/proxies.py:189 | `str(n)` is decimal digits without leading zeros |
| Text.NatToStringValue | openparcel/proxies.py:189 | the digits of `str(n)` denote `n` |
| Text.ParseIntToString | openparcel/proxies.py:548 | `int` of `str(i)` with white space around it is `i` |
| Text.ParseIntOfIntToString | openparcel/proxies.py:548 | `int(str(i)) == i` |

## Left out

- AES-CTR decryption and base64 decoding of a bundle (scripts/reqbundle.py:48-65) are a foreign library. `decrypt` is a parameter of the methods that use it.
- The JavaScript page scrapers that `_get_scraping_js` loads are not part of this model. The per-carrier `fetch` methods are browser automation and are also left out; only their `tracking_url_base` strings are used.
- The database is a parameter. Statements are values and the id of an insert is an input. The duplicate check is an input of each trial. `Proxy.list` and `from_row` are left out.
- HTTP requests, JSON decoding and the headers dictionary are left out. `FetchResult` takes the status, and the provider methods take the decoded items.
- Threads, locks, asyncio sleeps and timeouts, and the `ThreadPoolExecutor` paths are left out. Only the sequential (`parallel=False`) paths are modelled.
- ProxyList.AppendAll, ProxyProviders.ListLoad, ProxyProviders.PubProxyLoad and ProxyProviders.FileLoad model the sequential path, where the first test that raises stops the load. In openparcel the sequential path is never taken: `ProxyList.load` and `FileProxyList.load` default to `parallel=True` (openparcel/proxies.py:210-212, 541), and `PubProxy.load` and the scripts call `load()` with no argument (openparcel/proxies.py:297). On the parallel path every item is submitted to the pool. An exception escaping `_append_item` stays inside its future, because `concurrent.futures.wait` does not re-raise it (openparcel/proxies.py:304-309, 551-556). So there every item is tried, in no fixed order, and no error reaches the caller. The stop-at-first-raise contracts hold for the loops of bin/proxy_list.py, which are always sequential, and for a `parallel=False` call.
- The scraping pool's wait for a free instance is modelled by its outcome: nothing can free an instance while a sequential caller waits, so a full pool times out.
- Random tracking codes and wall-clock timings of `test` are inputs: one outcome and one integer timing per carrier.
- `Scraper.ScrapeOperation.Run`: the wait loop is not part of this method. It runs the fetch to completion, as the corrected loop does. The loop as written and the corrected loop are `Scraper.WaitAsWritten` and `Scraper.WaitWhileAlive` (see Findings).
- Module discovery through `os.listdir`, `__import__` and `inspect.getmembers` is a given list of classes in the order `getmembers` yields them, which is by name (`_load_modules`, `populate_commands`, the loops over module members).
- Proxifly is listed by `providers()` but not modelled further. Its `_fetch` and parsing are plain HTTP and JSON.
- `ProxyList.set_test_workers`, the `conn` attribute and the `headers` attribute only feed the left-out I/O.
- The exit handlers (`exit_handler`, `ProxiesCommand._exit_handler`, `enable_exit_handler`) and the connection they close are left out.
- The messages `Proxy.test`, `Proxy.average_speed` and `ProxyList.append` print (openparcel/proxies.py:87-135 and 219; bin/proxy_list.py:91-139 and 220) are left out. Printed text that is modelled: the usage text and exit status of the command-line framework, the `Fetching`/`Finished`/`Failed` lines of the fetch drivers (`ProxyFetch`), what the bundle decoder hands `print` (`RequestBundles.DecodePerform`), and the invalid-command message of bin/proxy_list.py.
- Logging targets are left out: the model records only which exceptions would be logged.
- `ScrapeOperation.merge_resp_into` (openparcel/scraper.py:90-104) depends on `from_cache` and `get_resp_dict`, which no shown file defines.
- `__init_subclass__` is modelled by its effect: the `Command` constructor ends with the post-init hook.
- `ImportAction.perform` is `ProxyProviders.FileLoad` on a new `FileProxyList`. `RefreshAction.perform` and `refresh_proxies` are `Proxies.Refresh`.
- Python's `round` of a float mean is half-even rounding of an integer ratio. Probe timings are integers, so no float arithmetic appears.
- Proxies.Refresh: the `server` objects are required to be distinct, which holds for the fresh objects `Proxy.list` builds.
- Text.Lower and Text.Upper map ASCII letters only. Python's `str.lower` and `str.upper` also map other Unicode letters, and can change the length (`'ß'.upper()` is `'SS'`). The model does not capture that.
- `ScrapingReturnedError` is imported from openparcel/exceptions.py by openparcel/scraper.py, openparcel/proxies.py and bin/proxy_list.py, but openparcel/exceptions.py defines only `TrackingCodeNotFound` and `ScrapingJsNotFound`; as written, those imports fail. The model assumes such an exception class exists and carries a `code` attribute, as its uses read it.
- ProxyScrapeFree's `average_timeout` is a JSON number (openparcel/proxies.py:454-455); the model takes it as an integer. The sort compares it only by order, so the sorted order is unaffected.
- The field mapping of each provider's `_append_item` (openparcel/proxies.py:301-308, 507-513 and the OpenProxySpace and ProxyScrapeFree ones) into `Proxy(...)` arguments is not modelled for the HTTP providers; `ProxyList.AppendAll` takes the resulting proxy fields. Only the file list composes its parsing with `AppendAll`.
- `Proxy.test` calls `carrier.set_proxy(self.as_str())` (openparcel/proxies.py:86; bin/proxy_list.py:90), but no carrier class shown defines `set_proxy`. The model assumes it sets the proxy of that carrier and returns, so a test goes on to its probes.
- Text.ParseInt: accepts ASCII digits with an optional sign and ASCII white space around them. Python's `int()` also accepts underscores between digits, non-ASCII decimal digits and other white space (`\x1c`-`\x1f`, `\x85`, `\xa0`, U+3000 and more). The model does not capture those inputs.
- The base carrier's accent colour `'#D6BC9C'` (openparcel/carriers/base.py:17) is not modelled. Every concrete carrier sets its own, and the base classes never enter the registry.
- ProxyProviders.ListLoad and ProxyProviders.PubProxyLoad state the kept proxies by their item fields (`Matches`) only. A response's answer carries the specs it keeps, not the trials they were kept by, so what each proxy's test recorded and the speed it set are stated for `ProxyList.AppendAll` and `ProxyProviders.FileLoad` (`TestedAs`) but not carried through these two.
- ProxyItems.FlattenSpace: when an index is invalid, the contract states the error but not which protocols were written into the items before it.

## Findings

| source | as written | input that shows it | evidently intended | confidence | as-written member | corrected member |
|---|---|---|---|---|---|---|
| openparcel/scraper.py:79-80 | `while not self.thread.is_alive(): await asyncio.sleep(1)` | a fetch that finishes before the first poll: the thread is never alive again, so the loop sleeps forever | wait while the thread is alive, then join | not executed; high | Scraper.FinishedThreadHangs (over Scraper.WaitAsWritten) | Scraper.WaitWhileAliveStops (over Scraper.WaitWhileAlive) |
| openparcel/proxies.py:445-450 | the URL is built into a local `url` and never stored, so `self.url` stays `None` | `fetch proxyscrapefree,pubproxy`: `requests.get(None)` raises `MissingSchema`, which is not an `HTTPError`, so the loop stops and PubProxy is never loaded | `self.url = (...)` | not executed; high | ProxyProviders.NewProxyScrapeFreeAsWritten, ProxyFetch.ScrapeFreeStopsFetch | ProxyProviders.NewProxyScrapeFree, ProxyFetch.ScrapeFreeFetchCorrected |
| openparcel/proxies.py:415-418 | `item['proto']` is written into the same dictionary for each protocol index, and the dictionary is appended each time | an item with protocols `[1, 3]`: both entries carry socks5, so no http proxy is tried | one entry per index with that index's own protocol, as bin/proxy_list.py:374-381 builds | not executed; high | ProxyItems.FlattenSpace, ProxyItems.SpaceProtocolsDiffer | ProxyItems.BinSpaceEntries |
