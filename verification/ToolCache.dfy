/** The tool cache of internal/upstream/manager.go: what doRefresh builds from
    the upstreams' tool lists, and where ToolsCall sends a name. */
module ToolCache {
  import opened Options
  import opened Strings

  /** Schema values are kept as raw JSON text. */
  datatype Tool = Tool(name: string, description: string, schema: map<string, string>)

  /** A client is a handle; the call through it belongs to the environment. */
  datatype Entry = Entry(id: string, prefix: string, client: int)

  datatype Route = Route(upstream: string, client: int, original: string)

  datatype Cache = Cache(tools: seq<Tool>, routes: map<string, Route>, expiry: int)

  /** One tool as one upstream offers it. */
  datatype Offer = Offer(entry: Entry, tool: Tool)

  const DEFAULT_SCHEMA: map<string, string> := map["type" := "\"object\"", "properties" := "{}"]

  // ---- what a refresh builds ----------------------------------------------

  function Prefixed(o: Offer): string
  {
    o.entry.prefix + "." + o.tool.name
  }

  function Shown(o: Offer): Tool
  {
    Tool(Prefixed(o), o.tool.description, if o.tool.schema == map[] then DEFAULT_SCHEMA else o.tool.schema)
  }

  function RouteTo(o: Offer): Route
  {
    Route(o.entry.id, o.entry.client, o.tool.name)
  }

  function OffersOf(e: Entry, list: seq<Tool>): seq<Offer>
  {
    seq(|list|, k requires 0 <= k < |list| => Offer(e, list[k]))
  }

  /** The offers of the first entries, upstream by upstream, in answer order. */
  function Offers(entries: seq<Entry>, lists: seq<seq<Tool>>): seq<Offer>
    requires |lists| <= |entries|
  {
    if lists == [] then []
    else
      var n := |lists| - 1;
      Offers(entries, lists[..n]) + OffersOf(entries[n], lists[n])
  }

  function ToolsFrom(offers: seq<Offer>): seq<Tool>
  {
    seq(|offers|, k requires 0 <= k < |offers| => Shown(offers[k]))
  }

  /** A later offer of the same prefixed name replaces an earlier one. */
  function RoutesFrom(offers: seq<Offer>): map<string, Route>
  {
    if offers == [] then map[]
    else
      var n := |offers| - 1;
      RoutesFrom(offers[..n])[Prefixed(offers[n]) := RouteTo(offers[n])]
  }

  /** The cache for one answer per entry. */
  function CacheOf(entries: seq<Entry>, lists: seq<seq<Tool>>, expiry: int): Cache
    requires |lists| <= |entries|
  {
    var offers := Offers(entries, lists);
    Cache(ToolsFrom(offers), RoutesFrom(offers), expiry)
  }

  lemma OneMoreOffer(offers: seq<Offer>, o: Offer)
    ensures ToolsFrom(offers + [o]) == ToolsFrom(offers) + [Shown(o)]
    ensures RoutesFrom(offers + [o]) == RoutesFrom(offers)[Prefixed(o) := RouteTo(o)]
  {
  }

  lemma OneMoreTool(before: seq<Offer>, e: Entry, list: seq<Tool>, k: nat)
    requires k < |list|
    ensures before + OffersOf(e, list[..k + 1]) == before + OffersOf(e, list[..k]) + [Offer(e, list[k])]
  {
  }

  /** The answers up to the first failure. */
  function Answered(answers: seq<Option<seq<Tool>>>): (lists: seq<seq<Tool>>)
    ensures |lists| <= |answers|
    ensures forall i :: 0 <= i < |lists| ==> answers[i] == Some(lists[i])
    ensures |lists| < |answers| ==> answers[|lists|].None?
  {
    if answers == [] || answers[0].None? then [] else [answers[0].value] + Answered(answers[1..])
  }

  lemma {:induction false} AnsweredSoFar(answers: seq<Option<seq<Tool>>>, lists: seq<seq<Tool>>)
    requires |lists| <= |answers| && forall i :: 0 <= i < |lists| ==> answers[i] == Some(lists[i])
    requires |lists| == |answers| || answers[|lists|].None?
    ensures Answered(answers) == lists
    decreases |answers|
  {
  }

  predicate Holds(tools: seq<Tool>, routes: map<string, Route>, offers: seq<Offer>)
  {
    tools == ToolsFrom(offers) && routes == RoutesFrom(offers)
  }

  /** The inner loop of doRefresh: one upstream's list. */
  method AddTools(e: Entry, list: seq<Tool>, tools0: seq<Tool>, routes0: map<string, Route>, ghost before: seq<Offer>)
    returns (tools: seq<Tool>, routes: map<string, Route>)
    requires Holds(tools0, routes0, before)
    ensures Holds(tools, routes, before + OffersOf(e, list))
  {
    tools, routes := tools0, routes0;
    assert before + OffersOf(e, list[..0]) == before;
    for k := 0 to |list|
      invariant Holds(tools, routes, before + OffersOf(e, list[..k]))
    {
      var t := list[k];
      OneMoreTool(before, e, list, k);
      OneMoreOffer(before + OffersOf(e, list[..k]), Offer(e, t));
      var prefixed := e.prefix + "." + t.name;
      var schema := if t.schema == map[] then DEFAULT_SCHEMA else t.schema;
      tools := tools + [Tool(prefixed, t.description, schema)];
      routes := routes[prefixed := Route(e.id, e.client, t.name)];
    }
    assert list[..|list|] == list;
  }

  lemma OneMoreList(entries: seq<Entry>, lists: seq<seq<Tool>>, list: seq<Tool>)
    requires |lists| < |entries|
    ensures Offers(entries, lists + [list]) == Offers(entries, lists) + OffersOf(entries[|lists|], list)
  {
  }

  /** doRefresh before it takes the lock: a cache from all answers, or the index
      of the first upstream that failed. */
  method BuildCache(entries: seq<Entry>, answers: seq<Option<seq<Tool>>>, expiry: int)
    returns (cache: Option<Cache>, failed: nat)
    requires |answers| == |entries|
    ensures cache.Some? <==> forall i :: 0 <= i < |answers| ==> answers[i].Some?
    ensures cache.Some? ==> cache.value == CacheOf(entries, Answered(answers), expiry)
    ensures cache.None? ==> failed < |answers| && failed == |Answered(answers)|
  {
    var tools: seq<Tool> := [];
    var routes: map<string, Route> := map[];
    ghost var lists: seq<seq<Tool>> := [];
    for i := 0 to |entries|
      invariant |lists| == i && forall k :: 0 <= k < i ==> answers[k] == Some(lists[k])
      invariant Holds(tools, routes, Offers(entries, lists))
    {
      if answers[i].None? {
        AnsweredSoFar(answers, lists);
        return None, i;
      }
      OneMoreList(entries, lists, answers[i].value);
      tools, routes := AddTools(entries[i], answers[i].value, tools, routes, Offers(entries, lists));
      lists := lists + [answers[i].value];
    }
    AnsweredSoFar(answers, lists);
    return Some(Cache(tools, routes, expiry)), 0;
  }

  /** How many tools the first lists hold. */
  function Total(lists: seq<seq<Tool>>): nat
  {
    if lists == [] then 0 else Total(lists[..|lists| - 1]) + |lists[|lists| - 1]|
  }

  /** A listed tool: an upstream's tool under its prefixed name, with its description,
      and its schema or, if it has none, the schema of an empty object. */
  predicate ShownAs(e: Entry, tool: Tool, shown: Tool)
  {
    && shown.name == e.prefix + "." + tool.name && shown.description == tool.description
    && shown.schema ==
      if tool.schema == map[] then map["type" := "\"object\"", "properties" := "{}"] else tool.schema
  }

  /** Where the offers of entry i begin. */
  lemma {:induction false} OffersInOrder(entries: seq<Entry>, lists: seq<seq<Tool>>, i: nat, j: nat)
    requires |lists| <= |entries| && i < |lists| && j < |lists[i]|
    ensures |Offers(entries, lists)| == Total(lists) && Total(lists[..i]) + j < Total(lists)
    ensures Offers(entries, lists)[Total(lists[..i]) + j] == Offer(entries[i], lists[i][j])
    decreases |lists|
  {
    var n := |lists| - 1;
    OffersTotal(entries, lists[..n]);
    OffersTotal(entries, lists);
    if i < n {
      assert lists[..n][..i] == lists[..i];
      OffersInOrder(entries, lists[..n], i, j);
    }
  }

  lemma {:induction false} OffersTotal(entries: seq<Entry>, lists: seq<seq<Tool>>)
    requires |lists| <= |entries|
    ensures |Offers(entries, lists)| == Total(lists)
    decreases |lists|
  {
    if lists != [] {
      OffersTotal(entries, lists[..|lists| - 1]);
    }
  }

  /** A cache lists every tool of every upstream, upstream by upstream and in the order
      of its answer, and nothing else. */
  lemma CacheLists(entries: seq<Entry>, lists: seq<seq<Tool>>, expiry: int, i: nat, j: nat)
    requires |lists| <= |entries| && i < |lists| && j < |lists[i]|
    ensures var c := CacheOf(entries, lists, expiry);
      && c.expiry == expiry && |c.tools| == Total(lists) && Total(lists[..i]) + j < |c.tools|
      && ShownAs(entries[i], lists[i][j], c.tools[Total(lists[..i]) + j])
  {
    OffersInOrder(entries, lists, i, j);
  }

  // ---- listed names and routes --------------------------------------------

  lemma NamesWithoutLast(offers: seq<Offer>, name: string)
    requires offers != []
    ensures Names(offers, name) <==> Names(offers[..|offers| - 1], name) || Prefixed(offers[|offers| - 1]) == name
  {
  }

  lemma LastIsLast(offers: seq<Offer>)
    requires offers != []
    ensures LastOffer(offers, Prefixed(offers[|offers| - 1]), RouteTo(offers[|offers| - 1]))
  {
  }

  lemma StillLast(offers: seq<Offer>, name: string, r: Route)
    requires offers != [] && name != Prefixed(offers[|offers| - 1]) && LastOffer(offers[..|offers| - 1], name, r)
    ensures LastOffer(offers, name, r)
  {
  }

  lemma {:induction false} RoutesByOffer(offers: seq<Offer>, name: string)
    ensures name in RoutesFrom(offers) <==> Names(offers, name)
    ensures name in RoutesFrom(offers) ==> LastOffer(offers, name, RoutesFrom(offers)[name])
    decreases |offers|
  {
    if offers != [] {
      var n := |offers| - 1;
      var front := offers[..n];
      RoutesByOffer(front, name);
      NamesWithoutLast(offers, name);
      if name == Prefixed(offers[n]) {
        LastIsLast(offers);
      } else if name in RoutesFrom(front) {
        StillLast(offers, name, RoutesFrom(front)[name]);
      }
    }
  }

  predicate Names(offers: seq<Offer>, name: string)
  {
    exists k :: 0 <= k < |offers| && Prefixed(offers[k]) == name
  }

  predicate IsLast(offers: seq<Offer>, name: string, k: int)
  {
    && 0 <= k < |offers| && Prefixed(offers[k]) == name
    && forall j :: k < j < |offers| ==> Prefixed(offers[j]) != name
  }

  predicate LastOffer(offers: seq<Offer>, name: string, r: Route)
  {
    exists k :: 0 <= k < |offers| && IsLast(offers, name, k) && RouteTo(offers[k]) == r
  }

  /** The names a client is shown are exactly the names that can be called. */
  lemma ListedNamesAreRoutes(entries: seq<Entry>, lists: seq<seq<Tool>>, expiry: int, name: string)
    requires |lists| <= |entries|
    ensures var c := CacheOf(entries, lists, expiry);
      name in c.routes <==> exists k :: 0 <= k < |c.tools| && c.tools[k].name == name
  {
    var offers := Offers(entries, lists);
    var c := CacheOf(entries, lists, expiry);
    RoutesByOffer(offers, name);
    if Names(offers, name) {
      var k :| 0 <= k < |offers| && Prefixed(offers[k]) == name;
      assert c.tools[k].name == name;
    }
    if k :| 0 <= k < |c.tools| && c.tools[k].name == name {
      assert Prefixed(offers[k]) == name;
    }
  }

  // ---- routing ------------------------------------------------------------

  /** Every offer is reached under the name it is listed by. */
  predicate Faithful(offers: seq<Offer>)
  {
    forall k :: 0 <= k < |offers| ==> Reached(offers, k)
  }

  predicate Reached(offers: seq<Offer>, k: int)
    requires 0 <= k < |offers|
  {
    Prefixed(offers[k]) in RoutesFrom(offers) && RoutesFrom(offers)[Prefixed(offers[k])] == RouteTo(offers[k])
  }

  predicate Clash(a: Offer, b: Offer)
  {
    Prefixed(a) == Prefixed(b) && RouteTo(a) != RouteTo(b)
  }

  /** For given answers: calls reach what listed them exactly when no two offers
      share a name and differ in route. */
  lemma ClashDecides(offers: seq<Offer>)
    ensures Faithful(offers) <==> forall j, k :: 0 <= j < |offers| && 0 <= k < |offers| ==> !Clash(offers[j], offers[k])
  {
    if Faithful(offers) {
      forall j, k | 0 <= j < |offers| && 0 <= k < |offers| ensures !Clash(offers[j], offers[k]) {
        assert Reached(offers, j) && Reached(offers, k);
      }
    }
    if forall j, k :: 0 <= j < |offers| && 0 <= k < |offers| ==> !Clash(offers[j], offers[k]) {
      forall k | 0 <= k < |offers| ensures Reached(offers, k) {
        var name := Prefixed(offers[k]);
        RoutesByOffer(offers, name);
        assert Names(offers, name);
        var j :| 0 <= j < |offers| && IsLast(offers, name, j) && RouteTo(offers[j]) == RoutesFrom(offers)[name];
        assert !Clash(offers[j], offers[k]);
      }
    }
  }

  predicate Begins(a: Entry, b: Entry)
  {
    a.prefix + "." <= b.prefix + "."
  }

  /** No prefix followed by a dot begins another one followed by a dot. */
  predicate PrefixFree(entries: seq<Entry>)
  {
    forall i, j :: 0 <= i < |entries| && 0 <= j < |entries| && i != j ==> !Begins(entries[i], entries[j])
  }

  predicate DistinctIds(entries: seq<Entry>)
  {
    forall i, j :: 0 <= i < j < |entries| ==> entries[i].id != entries[j].id
  }

  lemma SameNameBegins(a: Offer, b: Offer)
    requires Prefixed(a) == Prefixed(b)
    ensures Begins(a.entry, b.entry) || Begins(b.entry, a.entry)
  {
    var p, q := a.entry.prefix + ".", b.entry.prefix + ".";
    assert Prefixed(a) == p + a.tool.name && Prefixed(b) == q + b.tool.name;
    if |p| <= |q| {
      ShorterBegins(p, a.tool.name, q, b.tool.name);
    } else {
      ShorterBegins(q, b.tool.name, p, a.tool.name);
    }
  }

  lemma SameEntrySameTool(e: Entry, x: Tool, y: Tool)
    requires Prefixed(Offer(e, x)) == Prefixed(Offer(e, y))
    ensures x.name == y.name
  {
    var p := e.prefix + ".";
    assert Prefixed(Offer(e, x))[|p|..] == x.name && Prefixed(Offer(e, y))[|p|..] == y.name;
  }

  predicate OfferOf(entries: seq<Entry>, o: Offer, i: int)
  {
    0 <= i < |entries| && entries[i] == o.entry
  }

  lemma {:induction false} OffersHaveEntries(entries: seq<Entry>, lists: seq<seq<Tool>>, k: nat) returns (i: int)
    requires |lists| <= |entries| && k < |Offers(entries, lists)|
    ensures OfferOf(entries, Offers(entries, lists)[k], i)
    decreases |lists|
  {
    var n := |lists| - 1;
    if k < |Offers(entries, lists[..n])| {
      i := OffersHaveEntries(entries, lists[..n], k);
    } else {
      i := n;
    }
  }

  /** Prefix-free entries route every possible set of answers faithfully. */
  lemma PrefixFreeSuffices(entries: seq<Entry>, lists: seq<seq<Tool>>)
    requires PrefixFree(entries) && |lists| <= |entries|
    ensures Faithful(Offers(entries, lists))
  {
    var offers := Offers(entries, lists);
    forall j, k | 0 <= j < |offers| && 0 <= k < |offers| ensures !Clash(offers[j], offers[k]) {
      if Prefixed(offers[j]) == Prefixed(offers[k]) {
        var a := OffersHaveEntries(entries, lists, j);
        var b := OffersHaveEntries(entries, lists, k);
        SameNameBegins(offers[j], offers[k]);
        assert a == b;
        SameEntrySameTool(offers[j].entry, offers[j].tool, offers[k].tool);
      }
    }
    ClashDecides(offers);
  }

  /** Answers in which only entries i and j offer one tool each. */
  function TwoAnswers(n: nat, i: nat, x: Tool, j: nat, y: Tool): seq<seq<Tool>>
  {
    seq(n, k => if k == i then [x] else if k == j then [y] else [])
  }

  lemma {:induction false} AnswerIsOffered(entries: seq<Entry>, lists: seq<seq<Tool>>, i: nat, t: Tool) returns (k: nat)
    requires |lists| <= |entries| && i < |lists| && t in lists[i]
    ensures k < |Offers(entries, lists)| && Offers(entries, lists)[k] == Offer(entries[i], t)
    decreases |lists|
  {
    var n := |lists| - 1;
    if i < n {
      k := AnswerIsOffered(entries, lists[..n], i, t);
    } else {
      var m :| 0 <= m < |lists[i]| && lists[i][m] == t;
      k := |Offers(entries, lists[..n])| + m;
    }
  }

  /** If a prefix does begin another, some answers send a listed name elsewhere. */
  lemma OverlapMisroutes(entries: seq<Entry>, i: nat, j: nat) returns (lists: seq<seq<Tool>>)
    requires DistinctIds(entries) && i < |entries| && j < |entries| && i != j && Begins(entries[i], entries[j])
    ensures |lists| == |entries| && !Faithful(Offers(entries, lists))
  {
    var p, q := entries[i].prefix + ".", entries[j].prefix + ".";
    var rest := q[|p|..];
    var x, y := Tool(rest + "x", "", map[]), Tool("x", "", map[]);
    var a, b := Offer(entries[i], x), Offer(entries[j], y);
    assert Prefixed(a) == p + (rest + "x") == (p + rest) + "x" && p + rest == q;
    assert Prefixed(b) == q + "x";
    lists := TwoAnswers(|entries|, i, x, j, y);
    var k := AnswerIsOffered(entries, lists, i, x);
    var m := AnswerIsOffered(entries, lists, j, y);
    assert Clash(Offers(entries, lists)[k], Offers(entries, lists)[m]);
    ClashDecides(Offers(entries, lists));
  }

  /** Routing is faithful whatever the upstreams answer if and only if no prefix
      with its dot begins another. */
  lemma PrefixFreeDecides(entries: seq<Entry>)
    requires DistinctIds(entries)
    ensures PrefixFree(entries) <==>
      forall lists :: |lists| == |entries| ==> Faithful(Offers(entries, lists))
  {
    if PrefixFree(entries) {
      forall lists | |lists| == |entries| ensures Faithful(Offers(entries, lists)) {
        PrefixFreeSuffices(entries, lists);
      }
    } else {
      var i, j :| 0 <= i < |entries| && 0 <= j < |entries| && i != j && Begins(entries[i], entries[j]);
      var lists := OverlapMisroutes(entries, i, j);
    }
  }

  /** Distinct, nonempty prefixes, which the configuration checks for, are not
      enough. */
  lemma DistinctPrefixesNotEnough() returns (entries: seq<Entry>)
    ensures DistinctIds(entries) && !PrefixFree(entries)
    ensures forall i, j :: 0 <= i < j < |entries| ==> entries[i].prefix != entries[j].prefix
    ensures forall i :: 0 <= i < |entries| ==> entries[i].prefix != ""
  {
    entries := [Entry("1", "a", 1), Entry("2", "a.b", 2)];
    assert "a" + "." == "a." && "a.b" + "." == "a.b.";
    assert Begins(entries[0], entries[1]);
  }

  // ---- ToolsCall ----------------------------------------------------------

  /** What goes upstream: through which client, under which name. */
  datatype Dispatch = Dispatch(upstream: string, client: int, name: string) | UnknownTool | NotReady

  method RouteCall(cached: Option<Cache>, name: string) returns (d: Dispatch)
    ensures d.NotReady? <==> cached.None?
    ensures d.UnknownTool? <==> cached.Some? && name !in cached.value.routes
    ensures d.Dispatch? ==> Route(d.upstream, d.client, d.name) == cached.value.routes[name]
  {
    if cached.None? {
      return NotReady;
    }
    if name !in cached.value.routes {
      return UnknownTool;
    }
    var r := cached.value.routes[name];
    return Dispatch(r.upstream, r.client, r.original);
  }

  /** With prefix-free entries, a name that upstream i's tool is listed under is
      routed to upstream i under the tool's own name. */
  lemma ListedToolIsReached(entries: seq<Entry>, lists: seq<seq<Tool>>, expiry: int, i: nat, t: Tool)
    requires PrefixFree(entries) && |lists| == |entries| && i < |lists| && t in lists[i]
    ensures var c := CacheOf(entries, lists, expiry); var name := entries[i].prefix + "." + t.name;
      name in c.routes && c.routes[name] == Route(entries[i].id, entries[i].client, t.name)
  {
    var k := AnswerIsOffered(entries, lists, i, t);
    PrefixFreeSuffices(entries, lists);
    assert Reached(Offers(entries, lists), k);
  }
}
