/** Carriers (openparcel/carriers/base.py and openparcel/carriers/__init__.py):
    tracking-URL templating with Python's `string.Template`, the response
    dictionary, the browser page lifecycle and the cached registry of
    carrier classes. The browser, the file system and module discovery are
    parameters. */
module Carriers {
  import opened Wrappers
  import opened Text

  // ---------------------------------------------------------------------
  // string.Template.substitute

  datatype TemplateError =
    | InvalidPlaceholder        // ValueError
    | MissingKey(key: string)   // KeyError

  /** First character of a placeholder name: `_` or an ASCII letter. */
  predicate IsIdStart(c: char)
  {
    c == '_' || 'a' <= c <= 'z' || 'A' <= c <= 'Z'
  }

  predicate IsIdChar(c: char)
  {
    IsIdStart(c) || IsDigit(c)
  }

  /** Length of the longest prefix of `s` made of name characters. */
  function IdLen(s: string): (n: nat)
    ensures n <= |s|
    ensures forall i :: 0 <= i < n ==> IsIdChar(s[i])
    ensures n < |s| ==> !IsIdChar(s[n])
  {
    if s != [] && IsIdChar(s[0]) then 1 + IdLen(s[1..]) else 0
  }

  function Prepend(s: string, r: Result<string, TemplateError>): Result<string, TemplateError>
  {
    match r
    case Ok(v) => Ok(s + v)
    case Err(e) => Err(e)
  }

  /** `Template(t).substitute(m)`: scanning left to right, `$$` becomes
      `$`, `$name` and `${name}` become `m[name]` (`KeyError` when absent),
      and any other `$` is an invalid placeholder (`ValueError`). Text
      outside placeholders is copied. */
  function Substitute(t: string, m: map<string, string>): Result<string, TemplateError>
    decreases |t|
  {
    if '$' !in t then Ok(t)
    else
      var i := IndexOf(t, '$');
      var lit := t[..i];
      var rest := t[i + 1..];
      if rest != [] && rest[0] == '$' then
        Prepend(lit + "$", Substitute(rest[1..], m))
      else if rest != [] && IsIdStart(rest[0]) then
        var n := IdLen(rest);
        var key := rest[..n];
        if key in m then Prepend(lit + m[key], Substitute(rest[n..], m))
        else Err(MissingKey(key))
      else if |rest| > 1 && rest[0] == '{' && IsIdStart(rest[1])
              && 1 + IdLen(rest[1..]) < |rest| && rest[1 + IdLen(rest[1..])] == '}' then
        var n := IdLen(rest[1..]);
        var key := rest[1..1 + n];
        if key in m then Prepend(lit + m[key], Substitute(rest[n + 2..], m))
        else Err(MissingKey(key))
      else Err(InvalidPlaceholder)
  }

  const Placeholder := "${tracking_code}"
  const TrackingKey := "tracking_code"

  /** The chunks joined with `filler` between each pair. */
  function Weave(chunks: seq<string>, filler: string): string
  {
    if chunks == [] then ""
    else if |chunks| == 1 then chunks[0]
    else chunks[0] + filler + Weave(chunks[1..], filler)
  }

  lemma IdLenOfKey(s: string)
    requires s != [] && s[0] == '}'
    ensures IdLen(TrackingKey + s) == |TrackingKey|
  {
    var t := TrackingKey + s;
    assert forall i :: 0 <= i < |TrackingKey| ==> t[i] == TrackingKey[i] && IsIdChar(t[i]);
    assert t[|TrackingKey|] == '}';
  }

  /** The first `$` of `c + Placeholder + w` opens the placeholder. */
  lemma PlaceholderAt(c: string, w: string)
    requires '$' !in c
    ensures var t := c + Placeholder + w;
            '$' in t && IndexOf(t, '$') == |c| && t[..|c|] == c
            && t[|c| + 1..] == "{" + (TrackingKey + ("}" + w))
  {
    var t := c + Placeholder + w;
    var rest := "{" + (TrackingKey + ("}" + w));
    assert Placeholder == "$" + "{" + TrackingKey + "}";
    assert Placeholder + w == "$" + rest;
    assert t == c + ("$" + rest);
    assert t[|c|] == '$';
    assert t[..|c|] == c;
    assert t[|c| + 1..] == rest;
  }

  /** What the braced branch of `Substitute` sees after the `$`. */
  lemma BracedKey(w: string)
    ensures var rest := "{" + (TrackingKey + ("}" + w));
            |rest| > 1 && rest[0] == '{' && IsIdStart(rest[1])
            && IdLen(rest[1..]) == |TrackingKey| && rest[1 + |TrackingKey|] == '}'
            && rest[1..1 + |TrackingKey|] == TrackingKey && rest[|TrackingKey| + 2..] == w
  {
    var rest := "{" + (TrackingKey + ("}" + w));
    assert rest[1..] == TrackingKey + ("}" + w);
    IdLenOfKey("}" + w);
  }

  /** The braced branch of `Substitute`, for a template whose first `$`
      (after the `$`-free `lit`) opens `${key}` followed by `w`. */
  lemma SubstituteBraced(t: string, lit: string, key: string, w: string, m: map<string, string>)
    requires '$' in t && IndexOf(t, '$') == |lit| && t[..|lit|] == lit
    requires var rest := t[|lit| + 1..];
             |rest| > 1 && rest[0] == '{' && IsIdStart(rest[1]) && IdLen(rest[1..]) == |key|
             && 1 + |key| < |rest| && rest[1 + |key|] == '}' && rest[1..1 + |key|] == key && rest[|key| + 2..] == w
    ensures Substitute(t, m) == if key in m then Prepend(lit + m[key], Substitute(w, m)) else Err(MissingKey(key))
  {
  }

  /** Substituting one placeholder after a `$`-free chunk. */
  lemma SubstituteOne(c: string, w: string, m: map<string, string>)
    requires '$' !in c && TrackingKey in m
    ensures Substitute(c + Placeholder + w, m) == Prepend(c + m[TrackingKey], Substitute(w, m))
  {
    PlaceholderAt(c, w);
    BracedKey(w);
    SubstituteBraced(c + Placeholder + w, c, TrackingKey, w, m);
  }

  /** Every `${tracking_code}` between `$`-free chunks is replaced by the
      code, and the chunks themselves are copied unchanged. */
  lemma {:induction false} SubstituteWeave(chunks: seq<string>, m: map<string, string>)
    requires forall i :: 0 <= i < |chunks| ==> '$' !in chunks[i]
    requires TrackingKey in m
    ensures Substitute(Weave(chunks, Placeholder), m) == Ok(Weave(chunks, m[TrackingKey]))
    decreases |chunks|
  {
    if |chunks| > 1 {
      SubstituteWeave(chunks[1..], m);
      SubstituteOne(chunks[0], Weave(chunks[1..], Placeholder), m);
      assert Weave(chunks, Placeholder) == chunks[0] + Placeholder + Weave(chunks[1..], Placeholder);
    }
  }

  /** A template with a placeholder whose name is not in the mapping fails
      with `KeyError` naming it. */
  lemma SubstituteMissing(c: string, w: string, m: map<string, string>)
    requires '$' !in c && TrackingKey !in m
    ensures Substitute(c + Placeholder + w, m) == Err(MissingKey(TrackingKey))
  {
    PlaceholderAt(c, w);
    BracedKey(w);
    SubstituteBraced(c + Placeholder + w, c, TrackingKey, w, m);
  }

  /** A `$` at the very end of a template is an invalid placeholder. */
  lemma TrailingDollarInvalid(c: string, m: map<string, string>)
    requires '$' !in c
    ensures Substitute(c + "$", m) == Err(InvalidPlaceholder)
  {
    var t := c + "$";
    assert t[|c|] == '$';
    assert t[..|c|] == c;
    assert IndexOf(t, '$') == |c|;
    assert t[|c| + 1..] == [];
  }

  // ---------------------------------------------------------------------
  // Carrier classes

  /** A carrier class: its Python class name and its class attributes. */
  datatype CarrierClass = CarrierClass(
    className: string,
    uid: string,
    name: string,
    trackingUrlBase: string,
    accentColor: string)

  // The tracking URL templates of the carriers, written as the text around
  // their placeholders.
  const DhlChunks := ["https://www.dhl.com" + "/us-en/home/tracking.html" + "?tracking-id=", "&submit=1"]
  const CttChunks := ["https://appserver.ctt.pt" + "/CustomerArea/PublicArea_Detail" + "?ObjectCodeInput=",
                      "&SearchInput=", ""]
  const DpdChunks := ["https://tracking.dpd.pt" + "/en/getting-parcel/track-trace" + "?reference=", ""]
  const YunExpressChunks := ["https://www.yuntrack.com" + "/parcelTracking?id=", ""]

  const Dhl := CarrierClass("CarrierDHL", "dhl", "DHL", Weave(DhlChunks, Placeholder), "#FFCC00")
  const Ctt := CarrierClass("CarrierCTT", "ctt", "CTT", Weave(CttChunks, Placeholder), "#DE0024")
  const DpdPt := CarrierClass("CarrierDPDPT", "dpd-pt", "DPD (PT)", Weave(DpdChunks, Placeholder), "#DC1332")
  const YunExpress := CarrierClass("CarrierYunExpress", "yunexpress", "YunExpress",
                                   Weave(YunExpressChunks, Placeholder), "#04977A")

  // No carrier template has a `$` outside its placeholders.

  lemma DhlPlain()
    ensures forall i :: 0 <= i < |DhlChunks| ==> '$' !in DhlChunks[i]
  {
    assert '$' !in "https://www.dhl.com";
    assert '$' !in "/us-en/home/tracking.html";
    assert '$' !in "?tracking-id=";
  }

  lemma CttPlain()
    ensures forall i :: 0 <= i < |CttChunks| ==> '$' !in CttChunks[i]
  {
    assert '$' !in "https://appserver.ctt.pt";
    assert '$' !in "/CustomerArea/PublicArea_Detail";
    assert '$' !in "?ObjectCodeInput=";
  }

  lemma DpdPlain()
    ensures forall i :: 0 <= i < |DpdChunks| ==> '$' !in DpdChunks[i]
  {
    assert '$' !in "https://tracking.dpd.pt";
    assert '$' !in "/en/getting-parcel/track-trace";
  }

  lemma YunExpressPlain()
    ensures forall i :: 0 <= i < |YunExpressChunks| ==> '$' !in YunExpressChunks[i]
  {
    assert '$' !in "https://www.yuntrack.com";
    assert '$' !in "/parcelTracking?id=";
  }

  /** A template of two `$`-free chunks around one placeholder. */
  lemma TwoChunkUrl(chunks: seq<string>, code: string)
    requires |chunks| == 2 && '$' !in chunks[0] && '$' !in chunks[1]
    ensures Substitute(Weave(chunks, Placeholder), map[TrackingKey := code]) == Ok(chunks[0] + code + chunks[1])
  {
    SubstituteWeave(chunks, map[TrackingKey := code]);
    assert Weave(chunks[1..], code) == chunks[1];
  }

  /** Three chunks woven with any filler. */
  lemma WeaveThree(chunks: seq<string>, f: string)
    requires |chunks| == 3
    ensures Weave(chunks, f) == chunks[0] + f + chunks[1] + f + chunks[2]
  {
    assert chunks[1..][1..] == [chunks[2]];
    assert Weave(chunks[1..], f) == chunks[1] + f + chunks[2];
  }

  /** A template of three `$`-free chunks around two placeholders. */
  lemma ThreeChunkUrl(chunks: seq<string>, code: string)
    requires |chunks| == 3 && '$' !in chunks[0] && '$' !in chunks[1] && '$' !in chunks[2]
    ensures Substitute(Weave(chunks, Placeholder), map[TrackingKey := code]) ==
            Ok(chunks[0] + code + chunks[1] + code + chunks[2])
  {
    SubstituteWeave(chunks, map[TrackingKey := code]);
    WeaveThree(chunks, code);
  }

  /** The DHL URL is the template text with the code in the placeholder. */
  lemma DhlUrl(code: string)
    ensures Substitute(Dhl.trackingUrlBase, map[TrackingKey := code]) == Ok(DhlChunks[0] + code + DhlChunks[1])
  {
    DhlPlain();
    TwoChunkUrl(DhlChunks, code);
  }

  /** Both placeholders of the CTT template are filled with the code. */
  lemma CttUrl(code: string)
    ensures Substitute(Ctt.trackingUrlBase, map[TrackingKey := code]) ==
            Ok(CttChunks[0] + code + CttChunks[1] + code + CttChunks[2])
  {
    CttPlain();
    ThreeChunkUrl(CttChunks, code);
  }

  /** The DPD URL ends with the code. */
  lemma DpdUrl(code: string)
    ensures Substitute(DpdPt.trackingUrlBase, map[TrackingKey := code]) == Ok(DpdChunks[0] + code + DpdChunks[1])
  {
    DpdPlain();
    TwoChunkUrl(DpdChunks, code);
  }

  /** The YunExpress URL ends with the code. */
  lemma YunExpressUrl(code: string)
    ensures Substitute(YunExpress.trackingUrlBase, map[TrackingKey := code]) ==
            Ok(YunExpressChunks[0] + code + YunExpressChunks[1])
  {
    YunExpressPlain();
    TwoChunkUrl(YunExpressChunks, code);
  }

  /** The JSON values a response dictionary holds. */
  datatype Json =
    | JNull
    | JBool(b: bool)
    | JInt(i: int)
    | JStr(s: string)
    | JList(items: seq<Json>)
    | JObject(fields: map<string, Json>)

  /** A Python `dict` from strings to JSON values, shared by reference. */
  class Dict {
    var entries: map<string, Json>

    constructor (entries: map<string, Json>)
      ensures this.entries == entries
    {
      this.entries := entries;
    }
  }

  /** A browser page, as far as the carrier uses it: the URLs it was sent
      to, the scripts run in it, and whether it was closed. */
  class Page {
    var visited: seq<string>
    var scripts: seq<string>
    var closed: bool

    constructor ()
      ensures visited == [] && scripts == [] && !closed
    {
      visited := [];
      scripts := [];
      closed := false;
    }
  }

  datatype CarrierError =
    | TrackingCodeNotFound
    | Template(error: TemplateError)
    | ScrapingJsNotFound(path: string)
    | TimeoutError(alert: Option<string>)
    | AttributeError   // a method of `page` called while it is `None`

  /** The path `_get_scraping_js` reads: `<root>/scrapers/<name>.js`. */
  function ScriptPath(root: string, name: string): string
  {
    root + "/scrapers/" + name + ".js"
  }

  /** An instance of a carrier class (`BaseCarrier` and
      `BrowserBaseCarrier`). */
  class Carrier {
    const cls: CarrierClass
    const trackingCode: Option<string>
    var respDict: Dict?
    var page: Page?

    /** `__init__`: no response dictionary and no page yet. */
    constructor (cls: CarrierClass, trackingCode: Option<string>)
      ensures this.cls == cls && this.trackingCode == trackingCode
      ensures respDict == null && page == null
    {
      this.cls := cls;
      this.trackingCode := trackingCode;
      respDict := null;
      page := null;
    }

    /** `get_tracking_url`: `TrackingCodeNotFound` without a code, otherwise
        the template with the code substituted. It reads only constant
        fields, so every call gives the same answer. */
    function GetTrackingUrl(): (r: Result<string, CarrierError>)
      ensures trackingCode.None? <==> r == Err(TrackingCodeNotFound)
      ensures trackingCode.Some? ==>
                (r.Ok? <==> Substitute(cls.trackingUrlBase, map[TrackingKey := trackingCode.value]).Ok?)
    {
      if trackingCode.None? then Err(TrackingCodeNotFound)
      else match Substitute(cls.trackingUrlBase, map[TrackingKey := trackingCode.value])
        case Ok(url) => Ok(url)
        case Err(e) => Err(Template(e))
    }

    /** `_create_resp_dict`: keeps the given dictionary itself (the caller's
        object) and sets its `accentColor` to the class's colour. */
    method CreateRespDict(jsonResp: Dict)
      modifies this, jsonResp
      ensures respDict == jsonResp
      ensures jsonResp.entries == old(jsonResp.entries)["accentColor" := JStr(cls.accentColor)]
      ensures page == old(page)
    {
      respDict := jsonResp;
      respDict.entries := respDict.entries["accentColor" := JStr(cls.accentColor)];
    }

    /** `_get_scraping_js`: the script `name` (the carrier's uid when
        `None`) from the `scrapers` directory under `root`. */
    function GetScrapingJs(files: map<string, string>, root: string, name: Option<string>)
      : (r: Result<string, CarrierError>)
      ensures var path := ScriptPath(root, if name.Some? then name.value else cls.uid);
              (r.Ok? <==> path in files) && (r.Ok? ==> r.value == files[path])
              && (r.Err? ==> r == Err(ScrapingJsNotFound(path)))
    {
      var path := ScriptPath(root, if name.Some? then name.value else cls.uid);
      if path in files then Ok(files[path]) else Err(ScrapingJsNotFound(path))
    }

    /** `_fetch_page`: creates a page only when there is none, sends it to
        the tracking URL and runs the `utils` script in it. */
    method FetchPage(files: map<string, string>, root: string) returns (err: Option<CarrierError>)
      modifies this, page
      ensures page != null
      ensures old(page) != null ==> page == old(page) && page.closed == old(page.closed)
      ensures old(page) == null ==> fresh(page) && !page.closed
      ensures GetTrackingUrl().Err? ==> err == Some(GetTrackingUrl().error)
      ensures old(page) != null && GetTrackingUrl().Ok? ==> page.visited == old(page.visited) + [GetTrackingUrl().value]
      ensures old(page) == null && GetTrackingUrl().Ok? ==> page.visited == [GetTrackingUrl().value]
      ensures old(page) != null && GetTrackingUrl().Err? ==> page.visited == old(page.visited)
      ensures old(page) == null && GetTrackingUrl().Err? ==> page.visited == []
      ensures GetTrackingUrl().Ok? && GetScrapingJs(files, root, Some("utils")).Err? ==>
                err == Some(GetScrapingJs(files, root, Some("utils")).error)
      ensures err.None? <==> GetTrackingUrl().Ok? && GetScrapingJs(files, root, Some("utils")).Ok?
      ensures err.None? ==>
                page.scripts == (if old(page) == null then [] else old(page.scripts))
                                + [GetScrapingJs(files, root, Some("utils")).value]
      ensures err.Some? ==> page.scripts == (if old(page) == null then [] else old(page.scripts))
      ensures respDict == old(respDict)
    {
      if page == null {
        page := new Page();
      }
      var url := GetTrackingUrl();
      if url.Err? {
        return Some(url.error);
      }
      page.visited := page.visited + [url.value];
      var js := GetScrapingJs(files, root, Some("utils"));
      if js.Err? {
        return Some(js.error);
      }
      page.scripts := page.scripts + [js.value];
      return None;
    }

    /** `_close_page`: closes the page and forgets it; without a page the
        call fails, and `page` is `None` either way. */
    method ClosePage() returns (err: Option<CarrierError>)
      modifies this, page
      ensures page == null
      ensures err.None? <==> old(page) != null
      ensures old(page) != null ==> old(page).closed
      ensures old(page) != null ==> old(page).visited == old(page.visited) && old(page).scripts == old(page.scripts)
      ensures respDict == old(respDict)
    {
      if page == null {
        return Some(AttributeError);
      }
      page.closed := true;
      page := null;
      return None;
    }

    /** `_wait_page_complete`: asks the page to report when `elem` has
        loaded; `alert` is the text of the alert that follows, if any.
        Succeeds only when it is exactly `READY!`. */
    method WaitPageComplete(elem: string, alert: Option<string>) returns (err: Option<CarrierError>)
      modifies page
      ensures err.None? <==> page != null && alert == Some("READY!")
      ensures page != null && err.Some? ==> err == Some(TimeoutError(alert))
      ensures page != null ==>
                page.scripts == old(page.scripts) + ["OpenParcel.notifyElementLoaded('" + elem + "');"]
      ensures page != null ==> page.visited == old(page.visited) && page.closed == old(page.closed)
    {
      if page == null {
        return Some(AttributeError);
      }
      page.scripts := page.scripts + ["OpenParcel.notifyElementLoaded('" + elem + "');"];
      if alert != Some("READY!") {
        return Some(TimeoutError(alert));
      }
      return None;
    }
  }

  /** What `get_tracking_url` gives an instance of each carrier class: its
      template with every placeholder filled with the code. */
  lemma CarrierTrackingUrls(c: Carrier, code: string)
    requires c.trackingCode == Some(code)
    ensures c.cls == Dhl ==> c.GetTrackingUrl() == Ok(DhlChunks[0] + code + DhlChunks[1])
    ensures c.cls == Ctt ==> c.GetTrackingUrl() == Ok(CttChunks[0] + code + CttChunks[1] + code + CttChunks[2])
    ensures c.cls == DpdPt ==> c.GetTrackingUrl() == Ok(DpdChunks[0] + code + DpdChunks[1])
    ensures c.cls == YunExpress ==> c.GetTrackingUrl() == Ok(YunExpressChunks[0] + code + YunExpressChunks[1])
  {
    DhlUrl(code);
    CttUrl(code);
    DpdUrl(code);
    YunExpressUrl(code);
  }

  // ---------------------------------------------------------------------
  // Registry (carriers/__init__.py)

  /** The classes whose Python name starts with `Carrier`, in order. */
  function CarrierFilter(members: seq<CarrierClass>): (r: seq<CarrierClass>)
    ensures |r| <= |members|
    ensures forall i :: 0 <= i < |r| ==> StartsWith(r[i].className, "Carrier") && r[i] in members
  {
    if members == [] then []
    else
      var front := CarrierFilter(members[..|members| - 1]);
      var last := members[|members| - 1];
      if StartsWith(last.className, "Carrier") then front + [last] else front
  }

  /** Every class whose name starts with `Carrier` is kept. */
  lemma {:induction false} CarrierFilterKeeps(members: seq<CarrierClass>, i: nat)
    requires i < |members| && StartsWith(members[i].className, "Carrier")
    ensures members[i] in CarrierFilter(members)
    decreases |members|
  {
    if i < |members| - 1 {
      CarrierFilterKeeps(members[..|members| - 1], i);
    }
  }

  /** The base classes never get into the registry. */
  lemma BaseClassesFiltered()
    ensures !StartsWith("BaseCarrier", "Carrier")
    ensures !StartsWith("BrowserBaseCarrier", "Carrier")
  {
    assert "BaseCarrier"[0] != "Carrier"[0];
    assert "BrowserBaseCarrier"[0] != "Carrier"[0];
  }

  function NamesOf(cs: seq<CarrierClass>): (r: seq<string>)
    ensures |r| == |cs|
    ensures forall i :: 0 <= i < |cs| ==> r[i] == cs[i].name
  {
    if cs == [] then [] else NamesOf(cs[..|cs| - 1]) + [cs[|cs| - 1].name]
  }

  /** `from_id`'s loop: the first class with the uid. */
  function FindByUid(cs: seq<CarrierClass>, uid: string): (r: Option<CarrierClass>)
    ensures r.None? <==> forall i :: 0 <= i < |cs| ==> cs[i].uid != uid
    ensures r.Some? ==> r.value in cs && r.value.uid == uid
  {
    if cs == [] then None
    else if cs[0].uid == uid then Some(cs[0])
    else FindByUid(cs[1..], uid)
  }

  /** The class found is the first one with the uid. */
  lemma {:induction false} FindByUidFirst(cs: seq<CarrierClass>, uid: string, k: nat)
    requires k < |cs| && cs[k].uid == uid
    requires forall j :: 0 <= j < k ==> cs[j].uid != uid
    ensures FindByUid(cs, uid) == Some(cs[k])
    decreases k
  {
    if k > 0 {
      FindByUidFirst(cs[1..], uid, k - 1);
    }
  }

  /** `from_name`'s loop: the first class with the full name. */
  function FindByName(cs: seq<CarrierClass>, name: string): (r: Option<CarrierClass>)
    ensures r.None? <==> forall i :: 0 <= i < |cs| ==> cs[i].name != name
    ensures r.Some? ==> r.value in cs && r.value.name == name
  {
    if cs == [] then None
    else if cs[0].name == name then Some(cs[0])
    else FindByName(cs[1..], name)
  }

  /** The class found is the first one with the name. */
  lemma {:induction false} FindByNameFirst(cs: seq<CarrierClass>, name: string, k: nat)
    requires k < |cs| && cs[k].name == name
    requires forall j :: 0 <= j < k ==> cs[j].name != name
    ensures FindByName(cs, name) == Some(cs[k])
    decreases k
  {
    if k > 0 {
      FindByNameFirst(cs[1..], name, k - 1);
    }
  }

  /** The function attributes `carriers.carrier_list` and `names.names`
      that cache the two lists; `members` is what module discovery finds,
      in `inspect.getmembers` order. */
  class Registry {
    const members: seq<CarrierClass>
    var carrierList: Option<seq<CarrierClass>>
    var namesList: Option<seq<string>>

    constructor (members: seq<CarrierClass>)
      ensures this.members == members && carrierList == None && namesList == None
      ensures Valid()
    {
      this.members := members;
      carrierList := None;
      namesList := None;
    }

    /** The carrier cache, once set, holds what a fresh scan would give. */
    ghost predicate ListValid()
      reads this
    {
      carrierList.Some? ==> carrierList.value == CarrierFilter(members)
    }

    /** Both caches, once set, hold what a fresh scan would give. */
    ghost predicate Valid()
      reads this
    {
      && ListValid()
      && (namesList.Some? ==> namesList.value == NamesOf(CarrierFilter(members)))
    }

    /** `carriers()`: scans once and afterwards returns the cached list. */
    method Carriers() returns (r: seq<CarrierClass>)
      requires ListValid()
      modifies this
      ensures ListValid()
      ensures r == CarrierFilter(members) && carrierList == Some(r)
      ensures namesList == old(namesList)
      ensures old(carrierList).Some? ==> r == old(carrierList).value
    {
      if carrierList.Some? {
        return carrierList.value;
      }
      carrierList := Some([]);
      var i := 0;
      while i < |members|
        invariant 0 <= i <= |members|
        invariant carrierList == Some(CarrierFilter(members[..i]))
        invariant namesList == old(namesList)
      {
        assert members[..i + 1][..i] == members[..i];
        if StartsWith(members[i].className, "Carrier") {
          carrierList := Some(carrierList.value + [members[i]]);
        }
        i := i + 1;
      }
      assert members[..|members|] == members;
      return carrierList.value;
    }

    /** `names()`: the names of `carriers()`, in the same order, scanned
        once and cached. */
    method Names() returns (r: seq<string>)
      requires Valid()
      modifies this
      ensures Valid()
      ensures r == NamesOf(CarrierFilter(members)) && namesList == Some(r)
      ensures old(namesList).Some? ==> r == old(namesList).value && carrierList == old(carrierList)
    {
      if namesList.Some? {
        return namesList.value;
      }
      namesList := Some([]);
      var cs := Carriers();
      var i := 0;
      while i < |cs|
        invariant 0 <= i <= |cs|
        invariant namesList == Some(NamesOf(cs[..i]))
        invariant carrierList == Some(cs) && cs == CarrierFilter(members)
      {
        assert cs[..i + 1][..i] == cs[..i];
        namesList := Some(namesList.value + [cs[i].name]);
        i := i + 1;
      }
      assert cs[..|cs|] == cs;
      return namesList.value;
    }

    /** `from_id` */
    method FromId(uid: string) returns (r: Option<CarrierClass>)
      requires Valid()
      modifies this
      ensures Valid() && namesList == old(namesList)
      ensures r == FindByUid(CarrierFilter(members), uid)
    {
      var cs := Carriers();
      var i := 0;
      while i < |cs|
        invariant 0 <= i <= |cs|
        invariant FindByUid(cs[i..], uid) == FindByUid(cs, uid)
      {
        assert cs[i..][1..] == cs[i + 1..];
        if cs[i].uid == uid {
          return Some(cs[i]);
        }
        i := i + 1;
      }
      return None;
    }

    /** `from_name` */
    method FromName(name: string) returns (r: Option<CarrierClass>)
      requires Valid()
      modifies this
      ensures Valid() && namesList == old(namesList)
      ensures r == FindByName(CarrierFilter(members), name)
    {
      var cs := Carriers();
      var i := 0;
      while i < |cs|
        invariant 0 <= i <= |cs|
        invariant FindByName(cs[i..], name) == FindByName(cs, name)
      {
        assert cs[i..][1..] == cs[i + 1..];
        if cs[i].name == name {
          return Some(cs[i]);
        }
        i := i + 1;
      }
      return None;
    }
  }
}
