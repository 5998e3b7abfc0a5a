/** How the providers of openparcel/proxies.py and bin/proxy_list.py turn
    a decoded response into the items handed to `append`: OpenProxySpace's
    flattening of items with several protocols, and ProxyScrapeFree's
    sorting and filtering. */
module ProxyItems {
  import opened Wrappers
  import opened Proxies
  import opened ProxyProviders

  // ---------------------------------------------------------------------
  // OpenProxySpace

  /** One decoded item of an OpenProxySpace response. */
  datatype SpaceJson = SpaceJson(ip: string, port: int, country: string, timeout: int, protocols: seq<int>)

  /** The item as the dictionary `_parse_response` holds: its `proto` key
      is written in place. */
  class SpaceItem {
    const json: SpaceJson
    var proto: Option<string>

    constructor (json: SpaceJson)
      ensures this.json == json && proto == None
    {
      this.json := json;
      proto := None;
    }
  }

  predicate ValidIndex(index: int)
  {
    1 <= index <= 3
  }

  /** The first protocol index of an item that is not valid. */
  function BadIndex(ps: seq<int>): (r: Option<int>)
    ensures r.Some? ==> !ValidIndex(r.value)
  {
    if ps == [] then None
    else if !ValidIndex(ps[0]) then Some(ps[0])
    else BadIndex(ps[1..])
  }

  /** The first invalid protocol index over all items, in order. */
  function FirstBad(items: seq<SpaceItem>): (r: Option<int>)
    ensures r.Some? ==> !ValidIndex(r.value)
  {
    if items == [] then None
    else if BadIndex(items[0].json.protocols).Some? then BadIndex(items[0].json.protocols)
    else FirstBad(items[1..])
  }

  /** The protocol an item's last index names, if it has one. */
  function LastProtocol(json: SpaceJson): Option<string>
  {
    if json.protocols == [] then None
    else
      var r := ProtoFromIndex(json.protocols[|json.protocols| - 1]);
      if r.Ok? then Some(r.value) else None
  }

  function Repeat(it: SpaceItem, n: nat): (r: seq<SpaceItem>)
    ensures |r| == n && forall k :: 0 <= k < n ==> r[k] == it
  {
    if n == 0 then [] else Repeat(it, n - 1) + [it]
  }

  /** The flat list: each item once per protocol index, in order. */
  function Flat(items: seq<SpaceItem>): seq<SpaceItem>
  {
    if items == [] then []
    else
      var last := items[|items| - 1];
      Flat(items[..|items| - 1]) + Repeat(last, |last.json.protocols|)
  }

  function Jsons(items: seq<SpaceItem>): (js: seq<SpaceJson>)
    ensures |js| == |items| && forall i :: 0 <= i < |items| ==> js[i] == items[i].json
  {
    seq(|items|, i requires 0 <= i < |items| => items[i].json)
  }

  /** The number of protocol indices over all items. */
  function Width(js: seq<SpaceJson>): nat
  {
    if js == [] then 0 else Width(js[..|js| - 1]) + |js[|js| - 1].protocols|
  }

  /** The `proto` an item ends with after `_parse_response`: its last
      protocol, or what it held before when it lists none. */
  function Tagged(json: SpaceJson, before: Option<string>): Option<string>
  {
    if json.protocols == [] then before else LastProtocol(json)
  }

  /** The inner loop of `OpenProxySpace._parse_response` for one item:
      every protocol index is mapped and written into the same dictionary,
      which is appended once per index. An invalid index raises. */
  method TagItem(it: SpaceItem, flat: seq<SpaceItem>) returns (r: Result<seq<SpaceItem>, string>)
    modifies it
    ensures r.Ok? <==> BadIndex(it.json.protocols).None?
    ensures r.Err? ==> r == Err(ProtoFromIndex(BadIndex(it.json.protocols).value).error)
    ensures r.Ok? ==> r.value == flat + Repeat(it, |it.json.protocols|)
    ensures r.Ok? ==> it.proto == Tagged(it.json, old(it.proto))
  {
    var ps := it.json.protocols;
    var out := flat;
    for k := 0 to |ps|
      invariant out == flat + Repeat(it, k)
      invariant forall j :: 0 <= j < k ==> ValidIndex(ps[j])
      invariant it.proto == if k == 0 then old(it.proto) else Some(ProtoFromIndex(ps[k - 1]).value)
    {
      var name := ProtoFromIndex(ps[k]);
      if name.Err? {
        BadIndexAt(ps, k);
        return Err(name.error);
      }
      it.proto := Some(name.value);
      out := out + [it];
      assert flat + Repeat(it, k) + [it] == flat + Repeat(it, k + 1);
    }
    BadIndexAt(ps, |ps|);
    return Ok(out);
  }

  /** `OpenProxySpace._parse_response`'s flattening loop. Every entry of
      one item is the same dictionary, so all of them carry the item's last
      protocol. */
  method FlattenSpace(items: seq<SpaceItem>) returns (r: Result<seq<SpaceItem>, string>)
    requires forall i, j :: 0 <= i < j < |items| ==> items[i] != items[j]
    modifies set it | it in items
    ensures r.Ok? <==> FirstBad(items).None?
    ensures r.Err? ==> r == Err(ProtoFromIndex(FirstBad(items).value).error)
    ensures r.Ok? ==> r.value == Flat(items)
    ensures r.Ok? ==> forall i :: 0 <= i < |items| ==> items[i].proto == Tagged(items[i].json, old(items[i].proto))
    ensures r.Ok? ==> forall j :: 0 <= j < |r.value| ==> r.value[j].proto == LastProtocol(r.value[j].json)
  {
    var flat := [];
    for i := 0 to |items|
      invariant flat == Flat(items[..i])
      invariant forall j :: 0 <= j < i ==> BadIndex(items[j].json.protocols).None?
      invariant forall j :: 0 <= j < i ==> items[j].proto == Tagged(items[j].json, old(items[j].proto))
      invariant forall j :: i <= j < |items| ==> items[j].proto == old(items[j].proto)
    {
      var step := TagItem(items[i], flat);
      if step.Err? {
        FirstBadAt(items, i);
        return step;
      }
      assert items[..i + 1][..i] == items[..i];
      flat := step.value;
    }
    FirstBadAt(items, |items|);
    assert items[..|items|] == items;
    FlatFromItems(items, flat);
    return Ok(flat);
  }

  /** Every entry of the flat list is one of the items, and lists some
      protocol, so it carries that item's last protocol. */
  lemma FlatFromItems(items: seq<SpaceItem>, flat: seq<SpaceItem>)
    requires flat == Flat(items)
    requires forall i :: 0 <= i < |items| && items[i].json.protocols != [] ==>
               items[i].proto == LastProtocol(items[i].json)
    ensures forall j :: 0 <= j < |flat| ==> flat[j].proto == LastProtocol(flat[j].json)
  {
    forall j | 0 <= j < |flat|
      ensures flat[j].proto == LastProtocol(flat[j].json)
    {
      var i := FlatOwner(items, j);
      assert flat[j] == items[i] && items[i].json.protocols != [];
    }
  }

  /** The item an entry of the flat list comes from. */
  lemma {:induction false} FlatOwner(items: seq<SpaceItem>, j: nat) returns (i: nat)
    requires j < |Flat(items)|
    ensures i < |items| && Flat(items)[j] == items[i] && items[i].json.protocols != []
  {
    var n := |items| - 1;
    var init := Flat(items[..n]);
    if j < |init| {
      i := FlatOwner(items[..n], j);
    } else {
      i := n;
    }
  }

  lemma {:induction false} BadIndexAt(ps: seq<int>, k: nat)
    requires k <= |ps| && forall j :: 0 <= j < k ==> ValidIndex(ps[j])
    ensures k < |ps| && !ValidIndex(ps[k]) ==> BadIndex(ps) == Some(ps[k])
    ensures k == |ps| ==> BadIndex(ps) == None
  {
    if k > 0 {
      assert forall j :: 0 <= j < k - 1 ==> ps[1..][j] == ps[j + 1];
      BadIndexAt(ps[1..], k - 1);
    }
  }

  lemma {:induction false} FirstBadAt(items: seq<SpaceItem>, k: nat)
    requires k <= |items| && forall j :: 0 <= j < k ==> BadIndex(items[j].json.protocols).None?
    ensures k < |items| && BadIndex(items[k].json.protocols).Some? ==>
              FirstBad(items) == BadIndex(items[k].json.protocols)
    ensures k == |items| ==> FirstBad(items) == None
  {
    if k > 0 {
      assert forall j :: 0 <= j < k - 1 ==> items[1..][j] == items[j + 1];
      FirstBadAt(items[1..], k - 1);
    }
  }

  /** The flattening succeeds exactly when every protocol index of every
      item is 1, 2 or 3. */
  lemma FirstBadNone(items: seq<SpaceItem>)
    ensures FirstBad(items).None? <==>
              forall i, k :: 0 <= i < |items| && 0 <= k < |items[i].json.protocols| ==>
                ValidIndex(items[i].json.protocols[k])
  {
    if forall i, k :: 0 <= i < |items| && 0 <= k < |items[i].json.protocols| ==>
         ValidIndex(items[i].json.protocols[k]) {
      forall i | 0 <= i < |items|
        ensures BadIndex(items[i].json.protocols).None?
      {
        BadIndexAt(items[i].json.protocols, |items[i].json.protocols|);
      }
      FirstBadAt(items, |items|);
    } else {
      var i, k :| 0 <= i < |items| && 0 <= k < |items[i].json.protocols| &&
                  !ValidIndex(items[i].json.protocols[k]);
      FirstBadSome(items, i, k);
    }
  }

  lemma {:induction false} FirstBadSome(items: seq<SpaceItem>, i: nat, k: nat)
    requires i < |items| && k < |items[i].json.protocols| && !ValidIndex(items[i].json.protocols[k])
    ensures FirstBad(items).Some?
  {
    if BadIndex(items[0].json.protocols).None? {
      if i == 0 {
        BadIndexSome(items[0].json.protocols, k);
      } else {
        assert items[1..][i - 1] == items[i];
        FirstBadSome(items[1..], i - 1, k);
      }
    }
  }

  lemma {:induction false} BadIndexSome(ps: seq<int>, k: nat)
    requires k < |ps| && !ValidIndex(ps[k])
    ensures BadIndex(ps).Some?
  {
    if k > 0 && ValidIndex(ps[0]) {
      assert ps[1..][k - 1] == ps[k];
      BadIndexSome(ps[1..], k - 1);
    }
  }

  /** The flat list holds, for item `i` and its protocol `k`, the item at
      position `Width` of the items before it plus `k`: one entry per item
      and protocol index, in order. */
  lemma {:induction false} FlatEntries(items: seq<SpaceItem>, i: nat, k: nat)
    requires i < |items| && k < |items[i].json.protocols|
    ensures |Flat(items)| == Width(Jsons(items))
    ensures Width(Jsons(items[..i])) + k < |Flat(items)|
    ensures Flat(items)[Width(Jsons(items[..i])) + k] == items[i]
  {
    var n := |items| - 1;
    var init := items[..n];
    assert Jsons(items)[..n] == Jsons(init);
    FlatLength(init);
    if i < n {
      FlatEntries(init, i, k);
      assert init[..i] == items[..i];
    } else {
      assert init == items[..i];
    }
  }

  lemma {:induction false} FlatLength(items: seq<SpaceItem>)
    ensures |Flat(items)| == Width(Jsons(items))
  {
    if items != [] {
      var n := |items| - 1;
      assert Jsons(items)[..n] == Jsons(items[..n]);
      FlatLength(items[..n]);
    }
  }

  /** bin/proxy_list.py's OpenProxySpace for one item: a proxy per
      protocol index, each with its own protocol; an invalid index raises
      after the proxies before it were handed to `append`. */
  function BinItemSpecs(json: SpaceJson, ps: seq<int>): (seq<ProxySpec>, Option<string>)
  {
    if ps == [] then ([], None)
    else
      match ProtoFromIndex(ps[0])
      case Err(e) => ([], Some(e))
      case Ok(name) =>
        var rest := BinItemSpecs(json, ps[1..]);
        ([ProxySpec(json.ip, json.port, json.country, json.timeout, name)] + rest.0, rest.1)
  }

  /** bin/proxy_list.py's OpenProxySpace over the whole response. */
  function BinSpaceSpecs(js: seq<SpaceJson>): (seq<ProxySpec>, Option<string>)
  {
    if js == [] then ([], None)
    else
      var before := BinSpaceSpecs(js[..|js| - 1]);
      if before.1.Some? then before
      else
        var last := BinItemSpecs(js[|js| - 1], js[|js| - 1].protocols);
        (before.0 + last.0, last.1)
  }

  lemma {:induction false} BinItemEntries(json: SpaceJson, ps: seq<int>)
    requires forall k :: 0 <= k < |ps| ==> ValidIndex(ps[k])
    ensures BinItemSpecs(json, ps).1 == None && |BinItemSpecs(json, ps).0| == |ps|
    ensures forall k :: 0 <= k < |ps| ==>
              ValidIndex(ps[k]) &&
              BinItemSpecs(json, ps).0[k] == ProxySpec(json.ip, json.port, json.country, json.timeout,
                                                       ProtoFromIndex(ps[k]).value)
  {
    if ps != [] {
      BinItemEntries(json, ps[1..]);
    }
  }

  /** With valid indices, bin/proxy_list.py's entry for item `i` and its
      protocol `k` sits where the flat list has it, and carries that
      index's own protocol. */
  lemma {:induction false} BinSpaceEntries(js: seq<SpaceJson>, i: nat, k: nat)
    requires forall i', k' :: 0 <= i' < |js| && 0 <= k' < |js[i'].protocols| ==> ValidIndex(js[i'].protocols[k'])
    requires i < |js| && k < |js[i].protocols|
    ensures BinSpaceSpecs(js).1 == None && |BinSpaceSpecs(js).0| == Width(js)
    ensures Width(js[..i]) + k < Width(js)
    ensures ValidIndex(js[i].protocols[k]) &&
            BinSpaceSpecs(js).0[Width(js[..i]) + k].protocol == ProtoFromIndex(js[i].protocols[k]).value
  {
    var n := |js| - 1;
    var init := js[..n];
    BinItemEntries(js[n], js[n].protocols);
    BinSpaceValid(init);
    if i < n {
      BinSpaceEntries(init, i, k);
      assert init[..i] == js[..i];
    } else {
      assert init == js[..i];
    }
  }

  lemma {:induction false} BinSpaceValid(js: seq<SpaceJson>)
    requires forall i', k' :: 0 <= i' < |js| && 0 <= k' < |js[i'].protocols| ==> ValidIndex(js[i'].protocols[k'])
    ensures BinSpaceSpecs(js).1 == None && |BinSpaceSpecs(js).0| == Width(js)
  {
    if js != [] {
      var n := |js| - 1;
      BinSpaceValid(js[..n]);
      BinItemEntries(js[n], js[n].protocols);
    }
  }

  /** An item listing protocols 1 and 3: bin/proxy_list.py builds an http
      and a socks5 proxy, while openparcel/proxies.py's shared dictionary
      gives both entries socks5. */
  lemma SpaceProtocolsDiffer(json: SpaceJson)
    requires json.protocols == [1, 3]
    ensures LastProtocol(json) == Some("socks5")
    ensures var specs := BinItemSpecs(json, json.protocols).0;
            |specs| == 2 && specs[0].protocol == "http" && specs[1].protocol == "socks5"
  {
    BinItemEntries(json, json.protocols);
  }

  // ---------------------------------------------------------------------
  // ProxyScrapeFree

  /** One decoded item of a ProxyScrape response (`average_timeout` taken
      as a whole number of milliseconds). */
  datatype ScrapeItem = ScrapeItem(ip: string, port: int, countryCode: string, averageTimeout: int,
                                   alive: bool, ssl: bool, protocol: string)

  /** Inserts `x` before the first element whose timeout is not smaller:
      `x` comes before equal timeouts, so inserting the earlier items last
      keeps their order. */
  function Insert(x: ScrapeItem, ys: seq<ScrapeItem>): seq<ScrapeItem>
  {
    if ys == [] then [x]
    else if x.averageTimeout <= ys[0].averageTimeout then [x] + ys
    else [ys[0]] + Insert(x, ys[1..])
  }

  /** `sorted(items, key=itemgetter('average_timeout'))`, which is stable. */
  function SortByTimeout(xs: seq<ScrapeItem>): seq<ScrapeItem>
  {
    if xs == [] then [] else Insert(xs[0], SortByTimeout(xs[1..]))
  }

  predicate SortedByTimeout(xs: seq<ScrapeItem>)
  {
    forall i, j :: 0 <= i < j < |xs| ==> xs[i].averageTimeout <= xs[j].averageTimeout
  }

  predicate Usable(x: ScrapeItem)
  {
    x.alive && x.ssl
  }

  /** The items that are alive and offer SSL, in order. */
  function Alive(xs: seq<ScrapeItem>): seq<ScrapeItem>
  {
    if xs == [] then [] else (if Usable(xs[0]) then [xs[0]] else []) + Alive(xs[1..])
  }

  /** The items with timeout `t`, in order. */
  function WithTimeout(xs: seq<ScrapeItem>, t: int): seq<ScrapeItem>
  {
    if xs == [] then [] else (if xs[0].averageTimeout == t then [xs[0]] else []) + WithTimeout(xs[1..], t)
  }

  lemma {:induction false} InsertSorted(x: ScrapeItem, ys: seq<ScrapeItem>)
    requires SortedByTimeout(ys)
    ensures SortedByTimeout(Insert(x, ys))
  {
    if ys != [] && x.averageTimeout > ys[0].averageTimeout {
      var rest := ys[1..];
      InsertSorted(x, rest);
      InsertPerm(x, rest);
      var ins := Insert(x, rest);
      assert Insert(x, ys) == [ys[0]] + ins;
      forall j | 0 <= j < |ins|
        ensures ys[0].averageTimeout <= ins[j].averageTimeout
      {
        assert ins[j] in multiset(ins);
        assert ins[j] == x || ins[j] in multiset(rest);
      }
    }
  }

  lemma {:induction false} InsertPerm(x: ScrapeItem, ys: seq<ScrapeItem>)
    ensures multiset(Insert(x, ys)) == multiset{x} + multiset(ys)
  {
    if ys != [] && x.averageTimeout > ys[0].averageTimeout {
      InsertPerm(x, ys[1..]);
      assert ys == [ys[0]] + ys[1..];
    }
  }

  /** The sorted list is sorted by timeout and a permutation of the input. */
  lemma {:induction false} SortSorted(xs: seq<ScrapeItem>)
    ensures SortedByTimeout(SortByTimeout(xs))
    ensures multiset(SortByTimeout(xs)) == multiset(xs)
  {
    if xs != [] {
      SortSorted(xs[1..]);
      InsertSorted(xs[0], SortByTimeout(xs[1..]));
      InsertPerm(xs[0], SortByTimeout(xs[1..]));
      assert xs == [xs[0]] + xs[1..];
    }
  }

  lemma {:induction false} InsertStable(x: ScrapeItem, ys: seq<ScrapeItem>, t: int)
    ensures WithTimeout(Insert(x, ys), t) == (if x.averageTimeout == t then [x] else []) + WithTimeout(ys, t)
  {
    if ys == [] {
      assert [x][1..] == [];
    } else if x.averageTimeout <= ys[0].averageTimeout {
      assert ([x] + ys)[1..] == ys;
    } else {
      var ins := Insert(x, ys[1..]);
      InsertStable(x, ys[1..], t);
      assert ([ys[0]] + ins)[1..] == ins;
      var h := if ys[0].averageTimeout == t then [ys[0]] else [];
      var hx := if x.averageTimeout == t then [x] else [];
      assert h == [] || hx == [];
      assert h + (hx + WithTimeout(ys[1..], t)) == hx + (h + WithTimeout(ys[1..], t));
    }
  }

  /** Sorting is stable: the items with any one timeout keep their order. */
  lemma {:induction false} SortStable(xs: seq<ScrapeItem>, t: int)
    ensures WithTimeout(SortByTimeout(xs), t) == WithTimeout(xs, t)
  {
    if xs != [] {
      SortStable(xs[1..], t);
      InsertStable(xs[0], SortByTimeout(xs[1..]), t);
    }
  }

  lemma {:induction false} AliveIn(ys: seq<ScrapeItem>)
    ensures forall z :: z in Alive(ys) ==> z in ys
  {
    if ys != [] {
      AliveIn(ys[1..]);
    }
  }

  lemma {:induction false} AliveInsert(x: ScrapeItem, ys: seq<ScrapeItem>)
    requires SortedByTimeout(ys)
    ensures Alive(Insert(x, ys)) == if Usable(x) then Insert(x, Alive(ys)) else Alive(ys)
  {
    if ys == [] {
      assert [x][1..] == [];
    } else if x.averageTimeout <= ys[0].averageTimeout {
      assert ([x] + ys)[1..] == ys;
      var a := Alive(ys);
      if Usable(x) && a != [] {
        AliveIn(ys);
        assert a[0] in ys;
      }
    } else {
      var rest := ys[1..];
      assert SortedByTimeout(rest);
      AliveInsert(x, rest);
      assert ([ys[0]] + Insert(x, rest))[0] == ys[0];
      assert ([ys[0]] + Insert(x, rest))[1..] == Insert(x, rest);
      if Usable(ys[0]) {
        assert Alive(ys) == [ys[0]] + Alive(rest);
        assert ([ys[0]] + Alive(rest))[0] == ys[0];
        assert ([ys[0]] + Alive(rest))[1..] == Alive(rest);
      } else {
        assert Alive(ys) == Alive(rest);
      }
    }
  }

  /** Filtering the sorted list gives the sorted filtered list. */
  lemma {:induction false} AliveSortCommute(xs: seq<ScrapeItem>)
    ensures Alive(SortByTimeout(xs)) == SortByTimeout(Alive(xs))
  {
    if xs != [] {
      AliveSortCommute(xs[1..]);
      SortSorted(xs[1..]);
      AliveInsert(xs[0], SortByTimeout(xs[1..]));
      if Usable(xs[0]) {
        assert Alive(xs) == [xs[0]] + Alive(xs[1..]);
        assert ([xs[0]] + Alive(xs[1..]))[0] == xs[0];
        assert ([xs[0]] + Alive(xs[1..]))[1..] == Alive(xs[1..]);
      } else {
        assert Alive(xs) == Alive(xs[1..]);
      }
    }
  }

  lemma {:induction false} AliveSnoc(xs: seq<ScrapeItem>, x: ScrapeItem)
    ensures Alive(xs + [x]) == Alive(xs) + (if Usable(x) then [x] else [])
  {
    if xs == [] {
      assert [x][1..] == [];
    } else {
      var ys := xs + [x];
      var h := if Usable(xs[0]) then [xs[0]] else [];
      var t := if Usable(x) then [x] else [];
      assert ys[0] == xs[0] && ys[1..] == xs[1..] + [x];
      AliveSnoc(xs[1..], x);
      assert Alive(ys) == h + (Alive(xs[1..]) + t);
      assert Alive(xs) == h + Alive(xs[1..]);
      assert h + (Alive(xs[1..]) + t) == (h + Alive(xs[1..])) + t;
    }
  }

  lemma {:induction false} AliveMembers(xs: seq<ScrapeItem>)
    ensures forall z :: z in Alive(xs) <==> z in xs && Usable(z)
  {
    if xs != [] {
      AliveMembers(xs[1..]);
      assert forall z :: z in xs <==> z == xs[0] || z in xs[1..];
    }
  }

  /** `ProxyScrapeFree._parse_response`: the response is sorted by timeout
      and the dead or non-SSL items are skipped; the items kept are the
      alive SSL ones in stable timeout order. */
  method ScrapeFreeItems(items: seq<ScrapeItem>) returns (alive: seq<ScrapeItem>)
    ensures alive == SortByTimeout(Alive(items))
  {
    var sorted := SortByTimeout(items);
    alive := [];
    for i := 0 to |sorted|
      invariant alive == Alive(sorted[..i])
    {
      AliveSnoc(sorted[..i], sorted[i]);
      assert sorted[..i + 1] == sorted[..i] + [sorted[i]];
      if !sorted[i].alive || !sorted[i].ssl {
        continue;
      }
      alive := alive + [sorted[i]];
    }
    assert sorted[..|sorted|] == sorted;
    AliveSortCommute(items);
  }

  /** What ProxyScrapeFree hands to `append`: exactly the alive SSL items,
      sorted by timeout, as a permutation of them in which items with equal
      timeouts keep their response order. */
  lemma ScrapeFreeOrder(items: seq<ScrapeItem>, t: int)
    ensures var out := SortByTimeout(Alive(items));
            SortedByTimeout(out) &&
            multiset(out) == multiset(Alive(items)) &&
            (forall z :: z in out <==> z in items && z.alive && z.ssl) &&
            WithTimeout(out, t) == WithTimeout(Alive(items), t)
  {
    var out := SortByTimeout(Alive(items));
    SortSorted(Alive(items));
    SortStable(Alive(items), t);
    AliveMembers(items);
    assert forall z :: z in out <==> z in multiset(out);
    assert forall z :: z in Alive(items) <==> z in multiset(Alive(items));
  }}
