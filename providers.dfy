/** The provider subclasses of `ProxyList` in openparcel/proxies.py: the
    request URL each constructor builds, how each `_parse_response` turns
    the decoded response into the proxies handed to `append`,
    `FileProxyList`'s `addr:port` lines, `providers()`, and the loop over
    the providers that both fetch drivers run. JSON responses are given as
    already decoded values; HTTP statuses and the load outcomes are
    parameters. */
module ProxyProviders {
  import opened Wrappers
  import opened Text
  import opened Proxies

  // ---------------------------------------------------------------------
  // Query strings

  /** The names of the providers' query parameters. */
  datatype Key =
    | Api | LastCheck | Speed | Limit | NotCountry | Https | Post | UserAgent | Cookies | Referer
    | ApiKey | Amount | Smart | StableAverage | Status | Uptime
    | Mode | Page | PageSize
    | Request | Protocol | Timeout | ProxyFormat | Format

  function KeyName(k: Key): (name: string)
    ensures '&' !in name
  {
    match k
    case Api => "api"
    case LastCheck => "last_check"
    case Speed => "speed"
    case Limit => "limit"
    case NotCountry => "not_country"
    case Https => "https"
    case Post => "post"
    case UserAgent => "user_agent"
    case Cookies => "cookies"
    case Referer => "referer"
    case ApiKey => "apiKey"
    case Amount => "amount"
    case Smart => "smart"
    case StableAverage => "stableAverage"
    case Status => "status"
    case Uptime => "uptime"
    case Mode => "mode"
    case Page => "page"
    case PageSize => "page_size"
    case Request => "request"
    case Protocol => "protocol"
    case Timeout => "timeout"
    case ProxyFormat => "proxy_format"
    case Format => "format"
  }

  /** A query parameter `key=value`. */
  datatype Param = Param(key: Key, value: string)

  function ParamText(p: Param): string
  {
    KeyName(p.key) + "=" + p.value
  }

  function Texts(ps: seq<Param>): (ts: seq<string>)
    ensures |ts| == |ps|
  {
    if ps == [] then [] else [ParamText(ps[0])] + Texts(ps[1..])
  }

  /** `'&' + key=value` for every parameter, in order. */
  function Query(ps: seq<Param>): string
  {
    if ps == [] then "" else "&" + ParamText(ps[0]) + Query(ps[1..])
  }

  /** The value of the first parameter named `key`: what a server reading
      the query sees. */
  function Lookup(ps: seq<Param>, key: Key): Option<string>
  {
    if ps == [] then None
    else if ps[0].key == key then Some(ps[0].value)
    else Lookup(ps[1..], key)
  }

  lemma {:induction false} QueryAppend(ps: seq<Param>, p: Param)
    ensures Query(ps + [p]) == Query(ps) + "&" + ParamText(p)
  {
    if ps != [] {
      assert (ps + [p])[1..] == ps[1..] + [p];
      QueryAppend(ps[1..], p);
    }
  }

  /** Adding a parameter to a URL adds it to the URL's query. */
  lemma UrlAppend(base: string, ps: seq<Param>, p: Param)
    ensures base + Query(ps + [p]) == base + Query(ps) + "&" + ParamText(p)
  {
    QueryAppend(ps, p);
    assert base + (Query(ps) + "&" + ParamText(p)) == base + Query(ps) + "&" + ParamText(p);
  }

  /** Parameters named otherwise than `key` do not change its lookup. */
  lemma {:induction false} LookupSkip(xs: seq<Param>, ys: seq<Param>, key: Key)
    requires forall i :: 0 <= i < |xs| ==> xs[i].key != key
    ensures Lookup(xs + ys, key) == Lookup(ys, key)
  {
    if xs != [] {
      assert (xs + ys)[0] == xs[0] && (xs + ys)[1..] == xs[1..] + ys;
      LookupSkip(xs[1..], ys, key);
    } else {
      assert xs + ys == ys;
    }
  }

  lemma LookupFound(xs: seq<Param>, p: Param, ys: seq<Param>)
    requires forall i :: 0 <= i < |xs| ==> xs[i].key != p.key
    ensures Lookup(xs + [p] + ys, p.key) == Some(p.value)
  {
    LookupSkip(xs, [p] + ys, p.key);
    assert xs + [p] + ys == xs + ([p] + ys);
  }

  lemma LookupAbsent(ps: seq<Param>, key: Key)
    requires forall i :: 0 <= i < |ps| ==> ps[i].key != key
    ensures Lookup(ps, key) == None
  {
    LookupSkip(ps, [], key);
    assert ps + [] == ps;
  }

  /** The lookup finds the first parameter named `key`. */
  lemma {:induction false} LookupAt(ps: seq<Param>, k: nat, key: Key)
    requires k < |ps| && ps[k].key == key
    requires forall i :: 0 <= i < k ==> ps[i].key != key
    ensures Lookup(ps, key) == Some(ps[k].value)
  {
    if k > 0 {
      assert forall i :: 0 <= i < k - 1 ==> ps[1..][i] == ps[i + 1];
      LookupAt(ps[1..], k - 1, key);
    }
  }

  /** A URL built as a base followed by `&`-prefixed parameters splits on
      `&` back into the base and the parameters, when no parameter holds an
      `&` itself. */
  lemma {:induction false} SplitQuery(base: string, ps: seq<Param>)
    requires '&' !in base
    requires forall i :: 0 <= i < |ps| ==> '&' !in ps[i].value
    ensures Split(base + Query(ps), '&') == [base] + Texts(ps)
    decreases |ps|
  {
    if ps == [] {
      assert base + Query(ps) == base;
    } else {
      var first := ParamText(ps[0]);
      assert '&' !in first;
      var rest := first + Query(ps[1..]);
      assert Query(ps) == ['&'] + rest;
      assert base + Query(ps) == base + ['&'] + rest;
      SplitCons(base, '&', rest);
      SplitQuery(first, ps[1..]);
    }
  }

  /** A URL whose query string is written out whole: `base?first&rest...`. */
  function QueryUrl(base: string, first: Param, rest: seq<Param>): string
  {
    base + "?" + ParamText(first) + Query(rest)
  }

  /** Such a URL splits on `&` into the base with the first parameter, then
      each further parameter, when no value holds an `&`. */
  lemma QueryUrlFields(base: string, first: Param, rest: seq<Param>)
    requires '&' !in base && '&' !in first.value
    requires forall i :: 0 <= i < |rest| ==> '&' !in rest[i].value
    ensures Split(QueryUrl(base, first, rest), '&') == [base + "?" + ParamText(first)] + Texts(rest)
  {
    var head := base + "?" + ParamText(first);
    assert '&' !in ParamText(first) by {
      assert '&' !in KeyName(first.key);
    }
    assert QueryUrl(base, first, rest) == head + Query(rest);
    SplitQuery(head, rest);
  }

  /** Every value given to `key`, in order. */
  function Values(ps: seq<Param>, key: Key): (vs: seq<string>)
    ensures |vs| <= |ps|
  {
    if ps == [] then []
    else (if ps[0].key == key then [ps[0].value] else []) + Values(ps[1..], key)
  }

  /** `Lookup` sees the first of the values, and finds one exactly when
      there is one. */
  lemma {:induction false} LookupFirstValue(ps: seq<Param>, key: Key)
    ensures Lookup(ps, key).Some? <==> Values(ps, key) != []
    ensures Values(ps, key) != [] ==> Lookup(ps, key) == Some(Values(ps, key)[0])
  {
    if ps != [] {
      LookupFirstValue(ps[1..], key);
    }
  }

  lemma {:induction false} ValuesConcat(xs: seq<Param>, ys: seq<Param>, key: Key)
    ensures Values(xs + ys, key) == Values(xs, key) + Values(ys, key)
  {
    var s := xs + ys;
    if xs != [] {
      var h := if xs[0].key == key then [xs[0].value] else [];
      assert s[0] == xs[0] && s[1..] == xs[1..] + ys;
      assert Values(s, key) == h + Values(s[1..], key);
      assert Values(xs, key) == h + Values(xs[1..], key);
      ValuesConcat(xs[1..], ys, key);
      var a, b := Values(xs[1..], key), Values(ys, key);
      assert h + (a + b) == (h + a) + b;
    } else {
      assert s == ys;
    }
  }

  /** `self.url += '&key=value'`, with the parameters added so far kept as
      `ps` and the URL they were added to as `base`. */
  method AddParam(p: ProxyList, ghost base: string, ghost ps: seq<Param>, param: Param)
    returns (ghost ps': seq<Param>)
    requires p.url == Some(base + Query(ps))
    modifies p
    ensures ps' == ps + [param] && p.url == Some(base + Query(ps'))
    ensures p.list == old(p.list) && p.apiKey == old(p.apiKey) && p.commonUrl == old(p.commonUrl)
  {
    ps' := ps + [param];
    UrlAppend(base, ps, param);
    p.url := Some(p.url.value + "&" + ParamText(param));
  }

  /** `if value is not None: self.url += '&key=' + value` */
  method AddOptional(p: ProxyList, ghost base: string, ghost ps: seq<Param>, key: Key, value: Option<string>)
    returns (ghost ps': seq<Param>)
    requires p.url == Some(base + Query(ps))
    modifies p
    ensures ps' == ps + Maybe(key, value) && p.url == Some(base + Query(ps'))
    ensures p.list == old(p.list) && p.apiKey == old(p.apiKey) && p.commonUrl == old(p.commonUrl)
  {
    ps' := ps;
    if value.Some? {
      ps' := AddParam(p, base, ps, Param(key, value.value));
    }
    assert ps + [] == ps;
  }

  // ---------------------------------------------------------------------
  // PubProxy

  const PubProxyBase := "http://pubproxy.com/api/proxy?format=json"

  /** The parameter `key=value` when there is a value, else nothing. */
  function Maybe(key: Key, value: Option<string>): seq<Param>
  {
    if value.Some? then [Param(key, value.value)] else []
  }

  lemma LookupMaybe(k: Key, value: Option<string>, key: Key)
    ensures Lookup(Maybe(k, value), key) == if k == key then value else None
  {
    if value.Some? {
      assert Maybe(k, value)[1..] == [];
    }
  }

  lemma LookupOne(p: Param, key: Key)
    ensures Lookup([p], key) == if p.key == key then Some(p.value) else None
  {
    assert [p][1..] == [];
  }

  /** The five capability flags, all set. */
  const FlagParams := [Param(Https, "true"), Param(Post, "true"), Param(UserAgent, "true"),
                       Param(Cookies, "true"), Param(Referer, "true")]

  /** The parameters PubProxy's constructor appends, in order: the key when
      there is one, a freshness bound, the `speed=10` bound of the
      bin/proxy_list.py variant (`speedFlag`), the page size, the denied
      countries comma-joined, and five capability flags. */
  function PubProxyParams(apiKey: Option<string>, denylist: Option<seq<string>>, speedFlag: bool): seq<Param>
  {
    Maybe(Api, apiKey)
    + [Param(LastCheck, "30")]
    + Maybe(Speed, if speedFlag then Some("10") else None)
    + [Param(Limit, if apiKey.None? then "5" else "20")]
    + Maybe(NotCountry, if denylist.Some? then Some(Join(denylist.value, ',')) else None)
    + FlagParams
  }

  function PubProxyUrl(apiKey: Option<string>, denylist: Option<seq<string>>, speedFlag: bool): string
  {
    PubProxyBase + Query(PubProxyParams(apiKey, denylist, speedFlag))
  }

  /** `PubProxy(api_key, country_denylist, auto_save)` with `configured`
      the key the configuration holds: the key is imported, then the URL
      grows one parameter at a time and is kept as the common URL. */
  method NewPubProxy(apiKey: Option<string>, configured: Option<string>, denylist: Option<seq<string>>,
                     autoSave: bool, speedFlag: bool) returns (p: ProxyList)
    ensures fresh(p) && p.list == [] && p.autoSave == autoSave
    ensures p.apiKey == if apiKey.None? then configured else apiKey
    ensures p.url == Some(PubProxyUrl(p.apiKey, denylist, speedFlag)) && p.commonUrl == p.url.value
  {
    p := new ProxyList(autoSave, Some(PubProxyBase));
    p.ImportApiKey(apiKey, configured);
    ghost var ps := AddPubProxyBounds(p, denylist, speedFlag);
    ps := AddFlags(p, PubProxyBase, ps);
    p.commonUrl := p.url.value;
  }

  /** The key, the bounds and the denylist, before the flags. */
  method AddPubProxyBounds(p: ProxyList, denylist: Option<seq<string>>, speedFlag: bool) returns (ghost ps: seq<Param>)
    requires p.url == Some(PubProxyBase)
    modifies p
    ensures ps + FlagParams == PubProxyParams(p.apiKey, denylist, speedFlag)
    ensures p.url == Some(PubProxyBase + Query(ps))
    ensures p.list == old(p.list) && p.apiKey == old(p.apiKey)
  {
    ps := [];
    assert PubProxyBase + Query(ps) == PubProxyBase;
    ps := AddOptional(p, PubProxyBase, ps, Api, p.apiKey);
    assert ps == Maybe(Api, p.apiKey);
    ps := AddParam(p, PubProxyBase, ps, Param(LastCheck, "30"));
    ps := AddOptional(p, PubProxyBase, ps, Speed, if speedFlag then Some("10") else None);
    ps := AddParam(p, PubProxyBase, ps, Param(Limit, if p.apiKey.None? then "5" else "20"));
    ps := AddOptional(p, PubProxyBase, ps, NotCountry,
                      if denylist.Some? then Some(Join(denylist.value, ',')) else None);
  }

  /** The five `self.url += '&flag=true'` lines. */
  method AddFlags(p: ProxyList, ghost base: string, ghost ps: seq<Param>) returns (ghost ps': seq<Param>)
    requires p.url == Some(base + Query(ps))
    modifies p
    ensures ps' == ps + FlagParams && p.url == Some(base + Query(ps'))
    ensures p.list == old(p.list) && p.apiKey == old(p.apiKey) && p.commonUrl == old(p.commonUrl)
  {
    assert ps == ps + FlagParams[..0];
    ps' := AddParam(p, base, ps, Param(Https, "true"));
    PrefixStep(ps, FlagParams, 0);
    ps' := AddParam(p, base, ps', Param(Post, "true"));
    PrefixStep(ps, FlagParams, 1);
    ps' := AddParam(p, base, ps', Param(UserAgent, "true"));
    PrefixStep(ps, FlagParams, 2);
    ps' := AddParam(p, base, ps', Param(Cookies, "true"));
    PrefixStep(ps, FlagParams, 3);
    ps' := AddParam(p, base, ps', Param(Referer, "true"));
    PrefixStep(ps, FlagParams, 4);
    assert FlagParams[..5] == FlagParams;
  }

  lemma PrefixStep<T>(head: seq<T>, xs: seq<T>, k: nat)
    requires k < |xs|
    ensures head + xs[..k] + [xs[k]] == head + xs[..k + 1]
  {
    assert xs[..k + 1] == xs[..k] + [xs[k]];
  }

  /** The first of two lookups that finds something. */
  function OrElse(a: Option<string>, b: Option<string>): Option<string>
  {
    if a.Some? then a else b
  }

  lemma {:induction false} LookupConcat(xs: seq<Param>, ys: seq<Param>, key: Key)
    ensures Lookup(xs + ys, key) == OrElse(Lookup(xs, key), Lookup(ys, key))
  {
    if xs == [] {
      assert xs + ys == ys;
    } else {
      assert (xs + ys)[0] == xs[0] && (xs + ys)[1..] == xs[1..] + ys;
      LookupConcat(xs[1..], ys, key);
    }
  }

  lemma LookupSix(a: seq<Param>, b: seq<Param>, c: seq<Param>, d: seq<Param>, e: seq<Param>, f: seq<Param>, key: Key)
    ensures Lookup(a + b + c + d + e + f, key) ==
            OrElse(OrElse(OrElse(OrElse(OrElse(Lookup(a, key), Lookup(b, key)), Lookup(c, key)),
              Lookup(d, key)), Lookup(e, key)), Lookup(f, key))
  {
    LookupConcat(a + b + c + d + e, f, key);
    LookupConcat(a + b + c + d, e, key);
    LookupConcat(a + b + c, d, key);
    LookupConcat(a + b, c, key);
    LookupConcat(a, b, key);
  }

  /** A lookup in PubProxy's parameters is the first hit among its six
      groups. */
  lemma PubProxyLookupParts(apiKey: Option<string>, denylist: Option<seq<string>>, speedFlag: bool, key: Key)
    ensures Lookup(PubProxyParams(apiKey, denylist, speedFlag), key) ==
            OrElse(OrElse(OrElse(OrElse(OrElse(
              Lookup(Maybe(Api, apiKey), key),
              Lookup([Param(LastCheck, "30")], key)),
              Lookup(Maybe(Speed, if speedFlag then Some("10") else None), key)),
              Lookup([Param(Limit, if apiKey.None? then "5" else "20")], key)),
              Lookup(Maybe(NotCountry, if denylist.Some? then Some(Join(denylist.value, ',')) else None), key)),
              Lookup(FlagParams, key))
  {
    LookupSix(Maybe(Api, apiKey), [Param(LastCheck, "30")], Maybe(Speed, if speedFlag then Some("10") else None),
              [Param(Limit, if apiKey.None? then "5" else "20")],
              Maybe(NotCountry, if denylist.Some? then Some(Join(denylist.value, ',')) else None), FlagParams, key);
  }

  /** A key that is not a capability flag reads as the one group that
      carries it. */
  lemma PubProxyLookupKey(apiKey: Option<string>, denylist: Option<seq<string>>, speedFlag: bool, key: Key)
    requires forall i :: 0 <= i < |FlagParams| ==> FlagParams[i].key != key
    ensures Lookup(PubProxyParams(apiKey, denylist, speedFlag), key) ==
            if key == Api then apiKey
            else if key == LastCheck then Some("30")
            else if key == Speed then (if speedFlag then Some("10") else None)
            else if key == Limit then Some(if apiKey.None? then "5" else "20")
            else if key == NotCountry then (if denylist.Some? then Some(Join(denylist.value, ',')) else None)
            else None
  {
    PubProxyLookupParts(apiKey, denylist, speedFlag, key);
    LookupMaybe(Api, apiKey, key);
    LookupOne(Param(LastCheck, "30"), key);
    LookupMaybe(Speed, if speedFlag then Some("10") else None, key);
    LookupOne(Param(Limit, if apiKey.None? then "5" else "20"), key);
    LookupMaybe(NotCountry, if denylist.Some? then Some(Join(denylist.value, ',')) else None, key);
    LookupAbsent(FlagParams, key);
  }

  /** What the PubProxy server reads from the query: the key exactly when
      there is one, the freshness bound, `speed=10` only in the variant
      that asks for it, a page size of 5 without a key and 20 with one, and
      the comma-joined denylist only when given. */
  lemma PubProxyLookups(apiKey: Option<string>, denylist: Option<seq<string>>, speedFlag: bool)
    ensures var ps := PubProxyParams(apiKey, denylist, speedFlag);
            && Lookup(ps, Api) == apiKey
            && Lookup(ps, LastCheck) == Some("30")
            && Lookup(ps, Speed) == (if speedFlag then Some("10") else None)
            && Lookup(ps, Limit) == Some(if apiKey.None? then "5" else "20")
            && Lookup(ps, NotCountry) == (if denylist.Some? then Some(Join(denylist.value, ',')) else None)
  {
    var ps := PubProxyParams(apiKey, denylist, speedFlag);
    assert Lookup(ps, Api) == apiKey by {
      PubProxyLookupKey(apiKey, denylist, speedFlag, Api);
    }
    assert Lookup(ps, LastCheck) == Some("30") by {
      PubProxyLookupKey(apiKey, denylist, speedFlag, LastCheck);
    }
    assert Lookup(ps, Speed) == (if speedFlag then Some("10") else None) by {
      PubProxyLookupKey(apiKey, denylist, speedFlag, Speed);
    }
    assert Lookup(ps, Limit) == Some(if apiKey.None? then "5" else "20") by {
      PubProxyLookupKey(apiKey, denylist, speedFlag, Limit);
    }
    assert Lookup(ps, NotCountry) == (if denylist.Some? then Some(Join(denylist.value, ',')) else None) by {
      PubProxyLookupKey(apiKey, denylist, speedFlag, NotCountry);
    }
  }

  lemma FlagLookup(k: nat)
    requires k < 5
    ensures Lookup(FlagParams, FlagParams[k].key) == Some("true")
  {
    LookupFound(FlagParams[..k], FlagParams[k], FlagParams[k + 1..]);
    assert FlagParams[..k] + [FlagParams[k]] + FlagParams[k + 1..] == FlagParams;
  }

  /** A key outside the first five groups is read from the flags. */
  lemma PubProxyOtherKey(apiKey: Option<string>, denylist: Option<seq<string>>, speedFlag: bool, key: Key)
    requires key != Api && key != LastCheck && key != Speed && key != Limit && key != NotCountry
    ensures Lookup(PubProxyParams(apiKey, denylist, speedFlag), key) == Lookup(FlagParams, key)
  {
    PubProxyLookupParts(apiKey, denylist, speedFlag, key);
    LookupMaybe(Api, apiKey, key);
    LookupOne(Param(LastCheck, "30"), key);
    LookupMaybe(Speed, if speedFlag then Some("10") else None, key);
    LookupOne(Param(Limit, if apiKey.None? then "5" else "20"), key);
    LookupMaybe(NotCountry, if denylist.Some? then Some(Join(denylist.value, ',')) else None, key);
  }

  /** A capability flag is read from the flags whatever else the URL
      carries. */
  lemma PubProxyFlag(apiKey: Option<string>, denylist: Option<seq<string>>, speedFlag: bool, k: nat)
    requires k < 5
    ensures Lookup(PubProxyParams(apiKey, denylist, speedFlag), FlagParams[k].key) == Some("true")
  {
    var key := FlagParams[k].key;
    assert key == Https || key == Post || key == UserAgent || key == Cookies || key == Referer by {
      if k == 0 {} else if k == 1 {} else if k == 2 {} else if k == 3 {} else {}
    }
    PubProxyOtherKey(apiKey, denylist, speedFlag, key);
    FlagLookup(k);
  }

  /** Every capability flag reads as set, whatever else the URL carries. */
  lemma PubProxyFlags(apiKey: Option<string>, denylist: Option<seq<string>>, speedFlag: bool)
    ensures forall k :: 0 <= k < 5 ==>
              Lookup(PubProxyParams(apiKey, denylist, speedFlag), FlagParams[k].key) == Some("true")
  {
    forall k | 0 <= k < 5
      ensures Lookup(PubProxyParams(apiKey, denylist, speedFlag), FlagParams[k].key) == Some("true")
    {
      PubProxyFlag(apiKey, denylist, speedFlag, k);
    }
  }

  /** With no `&` inside the key or the denied countries, splitting the
      URL on `&` gives the base and then exactly these parameters. */
  lemma PubProxyQuery(apiKey: Option<string>, denylist: Option<seq<string>>, speedFlag: bool)
    requires apiKey.Some? ==> '&' !in apiKey.value
    requires denylist.Some? ==> forall i :: 0 <= i < |denylist.value| ==> '&' !in denylist.value[i]
    ensures Split(PubProxyUrl(apiKey, denylist, speedFlag), '&') == [PubProxyBase] + Texts(PubProxyParams(apiKey, denylist, speedFlag))
  {
    var ps := PubProxyParams(apiKey, denylist, speedFlag);
    assert forall i :: 0 <= i < |PubProxyBase| ==> PubProxyBase[i] != '&';
    if denylist.Some? {
      JoinNoChar(denylist.value, ',', '&');
    }
    assert forall i :: 0 <= i < |ps| ==> '&' !in ps[i].value;
    SplitQuery(PubProxyBase, ps);
  }

  /** Joining pieces free of `c` with a separator other than `c` gives a
      string free of `c`. */
  lemma {:induction false} JoinNoChar(xs: seq<string>, sep: char, c: char)
    requires c != sep
    requires forall i :: 0 <= i < |xs| ==> c !in xs[i]
    ensures c !in Join(xs, sep)
  {
    if |xs| > 1 {
      JoinNoChar(xs[1..], sep, c);
      assert Join(xs, sep) == xs[0] + [sep] + Join(xs[1..], sep);
    }
  }

  const Protocols := ["http", "socks4", "socks5"]

  /** One round of `load`: the common URL with each protocol's `type`. */
  function TypeUrls(common: string): seq<string>
  {
    seq(3, k requires 0 <= k < 3 => common + "&type=" + Protocols[k])
  }

  /** The URLs `load(num)` requests, `num` rounds of the three protocols. */
  function LoadUrls(common: string, num: nat): (us: seq<string>)
    ensures |us| == 3 * num
  {
    if num == 0 then [] else LoadUrls(common, num - 1) + TypeUrls(common)
  }

  /** `load(num)` requests `3 * num` pages, cycling through the protocols:
      request `i` is for `Protocols[i % 3]`. */
  lemma {:induction false} LoadUrlsCycle(common: string, num: nat)
    ensures |LoadUrls(common, num)| == 3 * num
    ensures forall i :: 0 <= i < 3 * num ==> LoadUrls(common, num)[i] == common + "&type=" + Protocols[i % 3]
  {
    if num > 0 {
      LoadUrlsCycle(common, num - 1);
      var prev := LoadUrls(common, num - 1);
      forall i | 0 <= i < 3 * num
        ensures LoadUrls(common, num)[i] == common + "&type=" + Protocols[i % 3]
      {
        if i >= 3 * (num - 1) {
          assert i % 3 == i - 3 * (num - 1);
        }
      }
    }
  }

  /** What the server answers one request with: its status and, for a 200,
      the fields of each proxy in the response (`specs`) with what trying
      each one gives (`trials`). */
  datatype Response = Response(status: int, specs: seq<ProxySpec>, trials: seq<Trial>)

  predicate WellFormed(uids: seq<string>, resp: Response)
  {
    |resp.trials| == |resp.specs| && forall i :: 0 <= i < |resp.trials| ==> |resp.trials[i].probes| == |uids|
  }

  predicate AllWellFormed(uids: seq<string>, rs: seq<Response>)
  {
    forall k :: 0 <= k < |rs| ==> WellFormed(uids, rs[k])
  }

  /** What one `ProxyList.load()` of a response comes to: how it ends and
      the specs of the proxies it adds to the list. */
  datatype Answer = Answer(result: LoadResult, kept: seq<ProxySpec>)

  /** `HTTPError` for a status other than 200 and nothing added; otherwise
      the accepted proxies before the first test that raises, and that
      test's error, if any. */
  function ResponseAnswer(uids: seq<string>, resp: Response): (a: Answer)
    requires WellFormed(uids, resp)
    ensures a.result.HttpFailed? <==> resp.status != 200
    ensures a.result.Failed? <==> resp.status == 200 && FirstRaise(uids, resp.trials) < |resp.trials|
    ensures a.result.HttpFailed? ==> a.kept == []
  {
    if resp.status != 200 then Answer(HttpFailed(HttpErrorMessage(resp.status)), [])
    else
      var k := FirstRaise(uids, resp.trials);
      var kept := KeptSpecs(uids, resp.specs, resp.trials);
      if k < |resp.trials| then Answer(Failed(TestOutcome(uids, resp.trials[k].probes).error), kept)
      else Answer(Loaded, kept)
  }

  /** `answers[k]` is what loading `rs[k]` comes to. */
  predicate AnswersOf(uids: seq<string>, rs: seq<Response>, answers: seq<Answer>)
  {
    |answers| == |rs| && AllWellFormed(uids, rs) &&
    forall k {:trigger ResponseAnswer(uids, rs[k])} :: 0 <= k < |rs| ==> answers[k] == ResponseAnswer(uids, rs[k])
  }

  /** The first `n` loads all succeeded. */
  predicate AllLoaded(answers: seq<Answer>, n: nat)
    requires n <= |answers|
  {
    forall k :: 0 <= k < n ==> answers[k].result.Loaded?
  }

  /** The specs the first `n` loads add, in request order. */
  function AllKept(answers: seq<Answer>, n: nat): seq<ProxySpec>
    requires n <= |answers|
  {
    if n == 0 then [] else AllKept(answers, n - 1) + answers[n - 1].kept
  }

  /** `ProxyList.load()` on the sequential path, for request `i`, whose
      URL is already set: `_fetch` raises `HTTPError` for a status other
      than 200; otherwise `_parse_response` appends the response's
      proxies, stopping at a test that raises. */
  method ListLoad(p: ProxyList, uids: seq<string>, responses: seq<Response>, ghost answers: seq<Answer>, i: nat)
    returns (r: LoadResult, ghost more: seq<Proxy>)
    requires p.url.Some? && i < |responses| && AnswersOf(uids, responses, answers)
    modifies p
    ensures r == answers[i].result
    ensures p.list == old(p.list) + more
    ensures forall j :: 0 <= j < |more| ==> fresh(more[j])
    ensures MatchAll(more, answers[i].kept)
    ensures p.url == old(p.url) && p.commonUrl == old(p.commonUrl) && p.apiKey == old(p.apiKey)
  {
    var resp := responses[i];
    assert answers[i] == ResponseAnswer(uids, resp);
    r := FetchResult(p.url, resp.status);
    if !r.Loaded? {
      return r, [];
    }
    var raised;
    raised, more := p.AppendAll(resp.specs, uids, resp.trials);
    if raised.Some? {
      r := Failed(raised.value);
    }
  }

  /** One request of PubProxy's `load`: the URL is set to the common URL
      with `type` protocol `i % 3`, then the list is loaded from it. Stated
      in the terms of `PubProxyLoad`'s loop: `added` holds the proxies kept
      by the requests before `i` and grows by those of request `i`. */
  method PubProxyRequest(p: ProxyList, num: nat, uids: seq<string>, responses: seq<Response>, ghost answers: seq<Answer>,
                         i: nat, urls: seq<string>, ghost start: seq<Proxy>, ghost added: seq<Proxy>)
    returns (r: LoadResult, urls': seq<string>, ghost grown: seq<Proxy>)
    requires i < |responses| == 3 * num && AnswersOf(uids, responses, answers)
    requires urls == LoadUrls(p.commonUrl, num)[..i]
    requires p.list == start + added && MatchAll(added, AllKept(answers, i))
    modifies p
    ensures urls' == LoadUrls(old(p.commonUrl), num)[..i + 1] && p.url == Some(urls'[i])
    ensures r == answers[i].result
    ensures p.list == start + grown && MatchAll(grown, AllKept(answers, i + 1))
    ensures |added| <= |grown| && forall j :: 0 <= j < |added| ==> grown[j] == added[j]
    ensures forall j :: |added| <= j < |grown| ==> fresh(grown[j])
    ensures p.commonUrl == old(p.commonUrl) && p.apiKey == old(p.apiKey)
  {
    p.url := Some(p.commonUrl + "&type=" + Protocols[i % 3]);
    LoadUrlsCycle(p.commonUrl, num);
    ghost var more;
    r, more := ListLoad(p, uids, responses, answers, i);
    MatchAllConcat(added, AllKept(answers, i), more, answers[i].kept);
    grown := added + more;
    urls' := urls + [p.url.value];
    ghost var all := LoadUrls(p.commonUrl, num);
    assert all[..i + 1] == all[..i] + [all[i]];
  }

  /** PubProxy's `load(num)` on the sequential path. Its `num` rounds of
      the three protocols are one run of `3 * num` requests: request `i`
      sets the URL to the common URL with `type` protocol `i % 3` and
      loads the list from it; it is answered by `responses[i]`, which
      comes to `answers[i]`. The first request whose load fails ends
      `load` with that error, and every request before it succeeded. The
      list grows by the proxies each answered request keeps, in order. */
  method PubProxyLoad(p: ProxyList, num: nat, uids: seq<string>, responses: seq<Response>, ghost answers: seq<Answer>)
    returns (urls: seq<string>, r: LoadResult, ghost added: seq<Proxy>)
    requires |responses| == 3 * num && AnswersOf(uids, responses, answers)
    modifies p
    ensures |urls| <= 3 * num && urls == LoadUrls(old(p.commonUrl), num)[..|urls|]
    ensures r.Loaded? ==> urls == LoadUrls(old(p.commonUrl), num)
    ensures |urls| == 0 ==> num == 0 && r.Loaded?
    ensures |urls| > 0 ==> r == answers[|urls| - 1].result && AllLoaded(answers, |urls| - 1)
    ensures p.list == old(p.list) + added
    ensures forall j :: 0 <= j < |added| ==> fresh(added[j])
    ensures MatchAll(added, AllKept(answers, |urls|))
    ensures p.url == if |urls| == 0 then old(p.url) else Some(urls[|urls| - 1])
    ensures p.commonUrl == old(p.commonUrl) && p.apiKey == old(p.apiKey)
  {
    urls := [];
    r := Loaded;
    added := [];
    var common := p.commonUrl;
    ghost var all := LoadUrls(common, num);
    for i := 0 to 3 * num
      invariant urls == all[..i] && r.Loaded?
      invariant AllLoaded(answers, i)
      invariant p.list == old(p.list) + added
      invariant forall j :: 0 <= j < |added| ==> fresh(added[j])
      invariant MatchAll(added, AllKept(answers, i))
      invariant p.url == if i == 0 then old(p.url) else Some(urls[i - 1])
      invariant p.commonUrl == common && p.apiKey == old(p.apiKey)
    {
      ghost var grown;
      r, urls, grown := PubProxyRequest(p, num, uids, responses, answers, i, urls, old(p.list), added);
      forall j | 0 <= j < |grown|
        ensures fresh(grown[j])
      {
        if j < |added| {
          assert grown[j] == added[j];
        }
      }
      added := grown;
      if !r.Loaded? {
        return;
      }
    }
  }

  // ---------------------------------------------------------------------
  // OpenProxySpace

  const OpenProxySpaceBase := "https://api.openproxy.space/premium/json"

  /** A value as an f-string prints it: a missing key prints `None`. */
  function PyStr(s: Option<string>): string
  {
    if s.None? then "None" else s.value
  }

  /** The parameters after `?`: the key, the amount and four fixed filters. */
  function OpenProxySpaceParams(apiKey: Option<string>, quantity: int): seq<Param>
  {
    [Param(ApiKey, PyStr(apiKey)), Param(Amount, IntToString(quantity)), Param(Smart, "1"),
     Param(StableAverage, "0"), Param(Status, "1"), Param(Uptime, "99")]
  }

  function OpenProxySpaceUrl(apiKey: Option<string>, quantity: int): string
  {
    var ps := OpenProxySpaceParams(apiKey, quantity);
    QueryUrl(OpenProxySpaceBase, ps[0], ps[1..])
  }

  /** `OpenProxySpace.__init__`: the key (given or configured) and the
      amount go into the query string. */
  method NewOpenProxySpace(apiKey: Option<string>, configured: Option<string>, quantity: int, autoSave: bool)
    returns (p: ProxyList)
    ensures fresh(p) && p.list == [] && p.autoSave == autoSave
    ensures p.apiKey == if apiKey.None? then configured else apiKey
    ensures p.url == Some(OpenProxySpaceUrl(p.apiKey, quantity))
  {
    p := new ProxyList(autoSave, Some(OpenProxySpaceBase));
    p.ImportApiKey(apiKey, configured);
    var ps := OpenProxySpaceParams(p.apiKey, quantity);
    p.url := Some(p.url.value + "?" + ParamText(ps[0]) + Query(ps[1..]));
  }

  /** The URL splits on `&` into exactly the fields of its parameters. */
  lemma OpenProxySpaceSplit(apiKey: Option<string>, quantity: int)
    requires '&' !in PyStr(apiKey)
    ensures var ps := OpenProxySpaceParams(apiKey, quantity);
            Split(OpenProxySpaceUrl(apiKey, quantity), '&') ==
              [OpenProxySpaceBase + "?" + ParamText(ps[0])] + Texts(ps[1..])
  {
    var ps := OpenProxySpaceParams(apiKey, quantity);
    var rest := ps[1..];
    forall i | 0 <= i < |rest| ensures '&' !in rest[i].value {
      assert rest[i] == ps[i + 1];
      if i == 0 {
        IntToStringHasNoAmp(quantity);
      }
    }
    QueryUrlFields(OpenProxySpaceBase, ps[0], rest);
  }

  /** The server reads the key, or the text `None` when there is none, and
      an amount that parses back to `quantity`. */
  lemma OpenProxySpaceValues(apiKey: Option<string>, quantity: int)
    ensures Lookup(OpenProxySpaceParams(apiKey, quantity), ApiKey) == Some(PyStr(apiKey))
    ensures apiKey.None? ==> Lookup(OpenProxySpaceParams(apiKey, quantity), ApiKey) == Some("None")
    ensures var amount := Lookup(OpenProxySpaceParams(apiKey, quantity), Amount);
            amount.Some? && ParseInt(amount.value) == Some(quantity)
  {
    var ps := OpenProxySpaceParams(apiKey, quantity);
    assert ps[0].key == ApiKey;
    assert ps[1..][0] == Param(Amount, IntToString(quantity));
    ParseIntOfIntToString(quantity);
  }

  lemma IntToStringHasNoAmp(i: int)
    ensures '&' !in IntToString(i)
  {
    var d := NatToString(if i < 0 then -i else i);
    assert forall j :: 0 <= j < |d| ==> IsDigit(d[j]);
    if i < 0 {
      assert IntToString(i) == "-" + d;
    }
  }

  /** `proto_from_index`: 1, 2 and 3 name http, socks4 and socks5; any
      other index is a `ValueError` naming it. */
  function ProtoFromIndex(index: int): (r: Result<string, string>)
    ensures r.Ok? <==> 1 <= index <= 3
    ensures r.Ok? ==> r.value == Protocols[index - 1]
    ensures r.Err? ==> r.error == "Invalid protocol index: " + IntToString(index)
  {
    match index
    case 1 => Ok("http")
    case 2 => Ok("socks4")
    case 3 => Ok("socks5")
    case _ => Err("Invalid protocol index: " + IntToString(index))
  }

  /** Different indices name different protocols, and the error message
      gives the rejected index back. */
  lemma ProtoFromIndexInjective(a: int, b: int)
    ensures ProtoFromIndex(a).Ok? && ProtoFromIndex(a) == ProtoFromIndex(b) ==> a == b
    ensures ProtoFromIndex(a).Err? ==>
              var m := ProtoFromIndex(a).error;
              var prefix := "Invalid protocol index: ";
              |m| > |prefix| && m[..|prefix|] == prefix && ParseInt(m[|prefix|..]) == Some(a)
  {
    assert Protocols[0] != Protocols[1] && Protocols[0] != Protocols[2] && Protocols[1] != Protocols[2];
    var prefix := "Invalid protocol index: ";
    if ProtoFromIndex(a).Err? {
      var m := prefix + IntToString(a);
      assert m[..|prefix|] == prefix && m[|prefix|..] == IntToString(a);
      ParseIntOfIntToString(a);
    }
  }

  // ---------------------------------------------------------------------
  // WebShare

  const WebShareBase := "https://proxy.webshare.io/api/v2/proxy/list/"

  /** The parameters after `mode=direct`: the class attribute's `page=1`
      and the page size. */
  function WebShareParams(quantity: int): seq<Param>
  {
    [Param(Page, "1"), Param(PageSize, IntToString(quantity))]
  }

  function WebShareUrl(quantity: int): string
  {
    QueryUrl(WebShareBase, Param(Mode, "direct"), WebShareParams(quantity))
  }

  /** `WebShare.__init__`: the page size is added to the URL, which becomes
      the common URL; `authorization` is the `Authorization` header, built
      from the key even when there is none. */
  method NewWebShare(apiKey: Option<string>, configured: Option<string>, quantity: int, autoSave: bool)
    returns (p: ProxyList, authorization: string)
    ensures fresh(p) && p.list == [] && p.autoSave == autoSave
    ensures p.apiKey == if apiKey.None? then configured else apiKey
    ensures p.url == Some(WebShareUrl(quantity)) && p.commonUrl == WebShareUrl(quantity)
    ensures authorization == "Token " + PyStr(p.apiKey)
  {
    p := new ProxyList(autoSave, Some(WebShareBase + "?" + ParamText(Param(Mode, "direct")) + Query([Param(Page, "1")])));
    p.ImportApiKey(apiKey, configured);
    ghost var ps := AddParam(p, WebShareBase + "?" + ParamText(Param(Mode, "direct")), [Param(Page, "1")],
                             Param(PageSize, IntToString(quantity)));
    assert ps == WebShareParams(quantity);
    p.commonUrl := p.url.value;
    authorization := "Token " + PyStr(p.apiKey);
  }

  /** `WebShare.load(page)`: the page is added to the common URL. */
  method WebShareLoad(p: ProxyList, page: int)
    modifies p
    ensures p.url == Some(p.commonUrl + Query([Param(Page, IntToString(page))]))
    ensures p.list == old(p.list) && p.commonUrl == old(p.commonUrl) && p.apiKey == old(p.apiKey)
  {
    var param := Param(Page, IntToString(page));
    p.url := Some(p.commonUrl + "&" + ParamText(param));
    assert [param][1..] == [];
    assert Query([param]) == "&" + ParamText(param) + "";
    assert p.commonUrl + "&" + ParamText(param) == p.commonUrl + ("&" + ParamText(param) + "");
  }

  /** A loaded page's URL is the WebShare query with the page added last. */
  lemma WebShareLoadUrl(quantity: int, page: int)
    ensures WebShareUrl(quantity) + Query([Param(Page, IntToString(page))]) ==
            QueryUrl(WebShareBase, Param(Mode, "direct"), WebShareParams(quantity) + [Param(Page, IntToString(page))])
  {
    var p := Param(Page, IntToString(page));
    QueryAppend(WebShareParams(quantity), p);
    assert Query([p]) == "&" + ParamText(p) + "";
  }

  /** Since the common URL already holds `page=1`, a loaded page's URL
      carries `page` twice: `1` first, then the page asked for. */
  lemma WebSharePages(quantity: int, page: int)
    ensures var all := [Param(Mode, "direct")] + WebShareParams(quantity) + [Param(Page, IntToString(page))];
            Values(all, Page) == ["1", IntToString(page)] &&
            Lookup(all, PageSize) == Some(IntToString(quantity))
  {
    var p := Param(Page, IntToString(page));
    var all := [Param(Mode, "direct")] + WebShareParams(quantity) + [p];
    ValuesConcat([Param(Mode, "direct")] + WebShareParams(quantity), [p], Page);
    ValuesConcat([Param(Mode, "direct")], WebShareParams(quantity), Page);
    assert WebShareParams(quantity)[1..][1..] == [] && [p][1..] == [];
    LookupAt(all, 2, PageSize);
  }

  // ---------------------------------------------------------------------
  // ProxyScrapeFree

  const ScrapeFreeBase := "https://api.proxyscrape.com/v3/free-proxy-list/get"

  function ScrapeFreeParams(timeout: int): seq<Param>
  {
    [Param(Protocol, "all"), Param(Timeout, IntToString(timeout)), Param(ProxyFormat, "protocolipport"),
     Param(Format, "json")]
  }

  /** The URL `ProxyScrapeFree.__init__` builds. */
  function ScrapeFreeUrl(timeout: int): string
  {
    QueryUrl(ScrapeFreeBase, Param(Request, "displayproxies"), ScrapeFreeParams(timeout))
  }

  /** `ProxyScrapeFree.__init__` as written: the URL is built into a local
      variable and dropped, so `url` keeps the class attribute `None`. */
  method NewProxyScrapeFreeAsWritten(timeout: int, configured: Option<string>, autoSave: bool)
    returns (p: ProxyList, built: string)
    ensures fresh(p) && p.list == [] && p.autoSave == autoSave && p.apiKey == configured
    ensures built == ScrapeFreeUrl(timeout) && p.url == None
  {
    built := ScrapeFreeBase + "?" + ParamText(Param(Request, "displayproxies")) + Query(ScrapeFreeParams(timeout));
    p := new ProxyList(autoSave, None);
    p.ImportApiKey(None, configured);
  }

  /** `ProxyScrapeFree.__init__` as evidently intended: the URL built is the
      one requested. */
  method NewProxyScrapeFree(timeout: int, configured: Option<string>, autoSave: bool) returns (p: ProxyList)
    ensures fresh(p) && p.list == [] && p.autoSave == autoSave && p.apiKey == configured
    ensures p.url == Some(ScrapeFreeUrl(timeout))
  {
    var url := ScrapeFreeBase + "?" + ParamText(Param(Request, "displayproxies")) + Query(ScrapeFreeParams(timeout));
    p := new ProxyList(autoSave, Some(url));
    p.ImportApiKey(None, configured);
  }

  /** The timeout the server reads back from the URL. */
  lemma ScrapeFreeTimeout(timeout: int)
    ensures var v := Lookup([Param(Request, "displayproxies")] + ScrapeFreeParams(timeout), Timeout);
            v.Some? && ParseInt(v.value) == Some(timeout)
  {
    var all := [Param(Request, "displayproxies")] + ScrapeFreeParams(timeout);
    assert all == [Param(Request, "displayproxies"), Param(Protocol, "all"), Param(Timeout, IntToString(timeout)),
                   Param(ProxyFormat, "protocolipport"), Param(Format, "json")];
    LookupAt(all, 2, Timeout);
    ParseIntOfIntToString(timeout);
  }

  // ---------------------------------------------------------------------
  // Fetching a provider's list

  /** How loading one provider ends: the list was fetched (and its items
      appended), the request failed with a status other than 200, which
      raises `HTTPError`, or another exception escaped. */
  datatype LoadResult = Loaded | HttpFailed(message: string) | Failed(error: string)

  function HttpErrorMessage(status: int): string
  {
    "Proxy list backend API request failed with HTTP status code " + IntToString(status)
  }

  /** `ProxyList._fetch`, with `status` the status of the response: a
      missing URL makes `requests` raise `MissingSchema` before any request
      is sent; a status other than 200 raises `HTTPError`. */
  function FetchResult(url: Option<string>, status: int): (r: LoadResult)
    ensures r.Loaded? <==> url.Some? && status == 200
    ensures r.HttpFailed? <==> url.Some? && status != 200
    ensures r.HttpFailed? ==> r.message == HttpErrorMessage(status)
    ensures r.Failed? ==> r.error == "MissingSchema"
  {
    if url.None? then Failed("MissingSchema")
    else if status != 200 then HttpFailed(HttpErrorMessage(status))
    else Loaded
  }

  // ---------------------------------------------------------------------
  // FileProxyList

  /** One line of the file: `line.split(':')`, then `(line[0],
      int(line[1]))`. A line with no `:` raises `IndexError`; a port that
      does not parse raises `ValueError`. */
  function ParseLine(line: string): (r: Result<(string, int), string>)
    ensures r == Err("IndexError") <==> ':' !in line
    ensures r.Ok? ==> ':' !in r.value.0 && r.value.0 == Split(line, ':')[0]
  {
    var parts := Split(line, ':');
    if |parts| < 2 then Err("IndexError")
    else
      match ParseInt(parts[1])
      case None => Err("ValueError")
      case Some(n) => Ok((parts[0], n))
  }

  /** A line `addr:port` followed by white space (the newline) reads back
      as `(addr, port)`. */
  lemma ParseLineRoundTrip(addr: string, port: int, trail: string)
    requires ':' !in addr && AllSpace(trail)
    ensures ParseLine(addr + ":" + IntToString(port) + trail) == Ok((addr, port))
  {
    PortText(port, trail);
    ParseLineOf(addr + ":" + IntToString(port) + trail, addr, IntToString(port) + trail, port);
  }

  /** The port text and the white space after it: no `:`, and it parses
      back to the port. */
  lemma PortText(port: int, trail: string)
    requires AllSpace(trail)
    ensures ':' !in IntToString(port) + trail && ParseInt(IntToString(port) + trail) == Some(port)
  {
    PortNoColon(port, trail);
    ParseIntToString(IntToString(port) + trail, "", port, trail);
  }

  /** The port text and the white space after it hold no `:`. */
  lemma PortNoColon(port: int, trail: string)
    requires AllSpace(trail)
    ensures ':' !in IntToString(port) + trail
  {
    IntToStringHasNoColon(port);
    assert ':' !in trail by {
      forall i | 0 <= i < |trail| ensures trail[i] != ':' {
        assert IsSpace(trail[i]);
      }
    }
  }

  /** A `:`-free address, a `:` and a `:`-free port that parses. */
  lemma ParseLineOf(line: string, addr: string, rest: string, port: int)
    requires line == addr + [':'] + rest
    requires ':' !in addr && ':' !in rest && ParseInt(rest) == Some(port)
    ensures ParseLine(line) == Ok((addr, port))
  {
    SplitCons(addr, ':', rest);
    assert Split(rest, ':') == [rest];
  }

  /** The values of a sequence of results, or the first error among them. */
  function Collect<T>(rs: seq<Result<T, string>>): Result<seq<T>, string>
  {
    if rs == [] then Ok([])
    else
      match Collect(rs[..|rs| - 1])
      case Err(e) => Err(e)
      case Ok(vs) => if rs[|rs| - 1].Err? then Err(rs[|rs| - 1].error) else Ok(vs + [rs[|rs| - 1].value])
  }

  /** `Collect` succeeds exactly when every result does, with their values
      in order. */
  lemma {:induction false} CollectOk<T>(rs: seq<Result<T, string>>)
    ensures Collect(rs).Ok? <==> forall i :: 0 <= i < |rs| ==> rs[i].Ok?
    ensures Collect(rs).Ok? ==> |Collect(rs).value| == |rs| &&
                                forall i :: 0 <= i < |rs| ==> Collect(rs).value[i] == rs[i].value
  {
    if rs != [] {
      var n := |rs| - 1;
      CollectOk(rs[..n]);
      assert forall i :: 0 <= i < n ==> rs[..n][i] == rs[i];
    }
  }

  /** A failing `Collect` gives the first error. */
  lemma {:induction false} CollectErr<T>(rs: seq<Result<T, string>>)
    requires Collect(rs).Err?
    ensures exists k :: 0 <= k < |rs| && rs[k] == Err(Collect(rs).error) &&
                        forall i :: 0 <= i < k ==> rs[i].Ok?
  {
    var n := |rs| - 1;
    var init := rs[..n];
    assert forall i :: 0 <= i < n ==> init[i] == rs[i];
    if Collect(init).Err? {
      CollectErr(init);
      var k :| 0 <= k < n && init[k] == Err(Collect(init).error) && forall i :: 0 <= i < k ==> init[i].Ok?;
      assert rs[k] == Err(Collect(rs).error);
    } else {
      CollectOk(init);
    }
  }

  /** One more result: a failing one ends a successful prefix with its
      error, a successful one adds its value. */
  lemma CollectSnoc<T>(rs: seq<Result<T, string>>, i: nat, vs: seq<T>)
    requires i < |rs| && Collect(rs[..i]) == Ok(vs)
    ensures Collect(rs[..i + 1]) == if rs[i].Err? then Err(rs[i].error) else Ok(vs + [rs[i].value])
  {
    assert rs[..i + 1][..i] == rs[..i];
  }

  /** Once a prefix fails, every longer sequence fails the same way. */
  lemma {:induction false} CollectErrStays<T>(rs: seq<Result<T, string>>, k: nat)
    requires k <= |rs| && Collect(rs[..k]).Err?
    ensures Collect(rs) == Collect(rs[..k])
    decreases |rs| - k
  {
    if k < |rs| {
      assert rs[..k + 1][..k] == rs[..k];
      CollectErrStays(rs, k + 1);
    } else {
      assert rs[..k] == rs;
    }
  }

  /** What each line of the file parses to. */
  function ParsedLines(lines: seq<string>): (rs: seq<Result<(string, int), string>>)
    ensures |rs| == |lines| && forall i :: 0 <= i < |lines| ==> rs[i] == ParseLine(lines[i])
  {
    seq(|lines|, i requires 0 <= i < |lines| => ParseLine(lines[i]))
  }

  /** `FileProxyList.load`'s reading loop over the lines of the file: the
      pairs of all lines in order, or the error of the first line that
      fails (see `CollectOk` and `CollectErr`). */
  method ReadPairs(lines: seq<string>) returns (r: Result<seq<(string, int)>, string>)
    ensures r == Collect(ParsedLines(lines))
  {
    ghost var rs := ParsedLines(lines);
    var pairs: seq<(string, int)> := [];
    for i := 0 to |lines|
      invariant Collect(rs[..i]) == Ok(pairs)
    {
      var pair := ParseLine(lines[i]);
      CollectSnoc(rs, i, pairs);
      if pair.Err? {
        CollectErrStays(rs, i + 1);
        return Err(pair.error);
      }
      pairs := pairs + [pair.value];
    }
    assert rs[..|lines|] == rs;
    return Ok(pairs);
  }

  /** The `Proxy(...)` arguments of `FileProxyList._append_item`. */
  function FileSpec(protocol: string, pair: (string, int)): ProxySpec
  {
    ProxySpec(pair.0, pair.1, "ZZ", -1, protocol)
  }

  function FileSpecs(protocol: string, pairs: seq<(string, int)>): (specs: seq<ProxySpec>)
    ensures |specs| == |pairs| && forall i :: 0 <= i < |pairs| ==> specs[i] == FileSpec(protocol, pairs[i])
  {
    seq(|pairs|, i requires 0 <= i < |pairs| => FileSpec(protocol, pairs[i]))
  }

  /** `FileProxyList.load` on its sequential path, for the file whose
      lines are `lines`: every line is read first, so a line that does not
      parse raises before any proxy is tried and the list is left alone;
      otherwise each pair is tried in order (`trials[i]` for line `i`) as a
      proxy of the list's protocol in country `ZZ` with speed -1, until a
      test raises; the proxies accepted before it stay in the list. */
  method FileLoad(p: ProxyList, protocol: string, lines: seq<string>, uids: seq<string>, trials: seq<Trial>)
    returns (raised: Option<string>, ghost added: seq<Proxy>)
    requires |trials| == |lines|
    requires forall i :: 0 <= i < |trials| ==> |trials[i].probes| == |uids|
    modifies p
    ensures p.list == old(p.list) + added
    ensures forall j :: 0 <= j < |added| ==> fresh(added[j])
    ensures Collect(ParsedLines(lines)).Err? ==> raised == Some(Collect(ParsedLines(lines)).error) && added == []
    ensures Collect(ParsedLines(lines)).Ok? && raised.None? ==>
              Built(added, FileSpecs(protocol, Collect(ParsedLines(lines)).value), AcceptedIndices(uids, trials))
    ensures Collect(ParsedLines(lines)).Ok? ==> (raised.None? <==> FirstRaise(uids, trials) == |trials|)
    ensures Collect(ParsedLines(lines)).Ok? && raised.Some? ==>
              TestOutcome(uids, trials[FirstRaise(uids, trials)].probes) == Err(raised.value)
    ensures Collect(ParsedLines(lines)).Ok? ==>
              Built(added, FileSpecs(protocol, Collect(ParsedLines(lines)).value),
                    AcceptedIndices(uids, trials[..FirstRaise(uids, trials)]))
    ensures Collect(ParsedLines(lines)).Ok? ==>
              TestedAs(added, uids, trials, AcceptedIndices(uids, trials[..FirstRaise(uids, trials)]))
    ensures p.url == old(p.url) && p.apiKey == old(p.apiKey)
  {
    var pairs := ReadPairs(lines);
    if pairs.Err? {
      return Some(pairs.error), [];
    }
    CollectOk(ParsedLines(lines));
    raised, added := p.AppendAll(FileSpecs(protocol, pairs.value), uids, trials);
  }

  /** Every proxy a file load keeps comes from the line of its accepted
      trial, in file order, with the list's protocol in lower case and
      country `ZZ`. */
  lemma FileLoadProxies(protocol: string, lines: seq<string>, uids: seq<string>, trials: seq<Trial>, added: seq<Proxy>)
    requires Collect(ParsedLines(lines)).Ok?
    requires Built(added, FileSpecs(protocol, Collect(ParsedLines(lines)).value), AcceptedIndices(uids, trials))
    requires |trials| == |lines|
    ensures forall j :: 0 <= j < |added| ==>
              var i := AcceptedIndices(uids, trials)[j];
              i < |lines| && ParseLine(lines[i]) == Ok((added[j].addr, added[j].port)) && Accepted(uids, trials[i])
    ensures forall j :: 0 <= j < |added| ==> added[j].country == "ZZ" && added[j].protocol == Lower(protocol)
  {
    forall j | 0 <= j < |added|
      ensures var i := AcceptedIndices(uids, trials)[j];
              i < |lines| && ParseLine(lines[i]) == Ok((added[j].addr, added[j].port)) && Accepted(uids, trials[i])
      ensures added[j].country == "ZZ" && added[j].protocol == Lower(protocol)
    {
      FileLoadProxy(protocol, lines, uids, trials, added, j);
    }
  }

  /** The `j`-th proxy `FileLoad` adds comes from line `ks[j]`. */
  lemma FileLoadProxy(protocol: string, lines: seq<string>, uids: seq<string>, trials: seq<Trial>, added: seq<Proxy>, j: nat)
    requires Collect(ParsedLines(lines)).Ok?
    requires Built(added, FileSpecs(protocol, Collect(ParsedLines(lines)).value), AcceptedIndices(uids, trials))
    requires |trials| == |lines| && j < |added|
    ensures var i := AcceptedIndices(uids, trials)[j];
            i < |lines| && ParseLine(lines[i]) == Ok((added[j].addr, added[j].port)) && Accepted(uids, trials[i])
    ensures added[j].country == "ZZ" && added[j].protocol == Lower(protocol)
  {
    var rs := ParsedLines(lines);
    var pairs := Collect(rs).value;
    var ks := AcceptedIndices(uids, trials);
    AcceptedIndicesValid(uids, trials);
    var i := ks[j];
    assert i < |trials| && Accepted(uids, trials[i]);
    CollectAt(rs, i);
    var specs := FileSpecs(protocol, pairs);
    assert Matches(added[j], specs[i]);
    assert specs[i] == ProxySpec(pairs[i].0, pairs[i].1, "ZZ", -1, protocol);
    assert Upper("ZZ") == "ZZ";
  }

  /** One result of a successful `Collect`. */
  lemma CollectAt<T>(rs: seq<Result<T, string>>, i: nat)
    requires Collect(rs).Ok? && i < |rs|
    ensures |Collect(rs).value| == |rs| && rs[i] == Ok(Collect(rs).value[i])
  {
    CollectOk(rs);
  }
}
