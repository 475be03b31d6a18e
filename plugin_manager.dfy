/**
 * The plugin registry and dispatcher of plugin_manager.py.
 *
 * The registry keeps its plugins in a list sorted by priority (lower first, ties in registration
 * order) and answers lookups by asking them in that order. The registry does not know what kind
 * of plugin it holds: what a plugin's `is_available`, `fetch_cve`, `initialize` and `update`
 * do is given to each operation as a function of the plugin (for lookups, the answers every
 * plugin would give for the CVE id being looked up).
 */
module PluginManager {
  import opened Common
  import opened Base

  /** What a plugin's `fetch_cve` did: returned a result, returned None, or raised. */
  datatype Answer = Hit(result: CveResult) | Miss | Raised(message: string)

  /** What a plugin's `initialize` or `update` did: returned a flag, or raised. */
  datatype StepAnswer = Returned(ok: bool) | Failed(message: string)

  /**
   * What a plugin's `initialize` did: its answer, and the plugin's enabled flag afterwards
   * (a plugin may turn itself off, as the API plugin does without a key).
   */
  datatype Initialized = Initialized(answer: StepAnswer, enabledAfter: bool)

  /** The answers alone. */
  function InitAnswer(initialize: Plugin -> Initialized): Plugin -> StepAnswer
  {
    (p: Plugin) => initialize(p).answer
  }

  /** The flag the batch operations record: a raised exception counts as False. */
  function StepOk(a: StepAnswer): bool
  {
    match a
    case Returned(ok) => ok
    case Failed(_) => false
  }

  /** One row of `list_plugins`. */
  datatype PluginInfo = PluginInfo(name: string, priority: int, enabled: bool, available: bool)

  /** The four shapes of the dict `fetch_cve` returns. */
  datatype FetchResponse =
    | Success(cveId: string, source: string, content: string, metadata: Metadata)
    | NoPlugins(cveId: string)
    | UnknownSource(cveId: string, source: string, availableSources: seq<string>)
    | NotFound(cveId: string, sourcesChecked: seq<string>, details: seq<string>)
  {
    /** The `error` entry of the failure shapes. */
    function Error(): string
      requires !Success?
    {
      match this
      case NoPlugins(_) => "No CVE source plugins registered"
      case UnknownSource(_, source, _) => "Source '" + source + "' not found"
      case NotFound(cveId, _, _) => "CVE " + cveId + " not found in any source"
    }
  }

  /** One entry of the `sources` dict of `fetch_cve_from_all`. */
  datatype SourceResult =
    | SourceFound(content: string, metadata: Metadata)
    | SourceFailed(error: string)

  /** The dict `fetch_cve_from_all` returns. */
  datatype AllResponse = AllResponse(cveId: string, sources: seq<(string, SourceResult)>, foundIn: seq<string>)

  // ---------------------------------------------------------------------------------------------
  // Ordering: the list is kept as Python's stable sort by priority leaves it.

  ghost predicate Sorted(ps: seq<Plugin>)
  {
    forall i, j :: 0 <= i < j < |ps| ==> ps[i].priority <= ps[j].priority
  }

  /** The plugins of one priority, in list order. */
  function WithPriority(ps: seq<Plugin>, k: int): seq<Plugin>
  {
    if ps == [] then []
    else WithPriority(ps[..|ps| - 1], k) + (if ps[|ps| - 1].priority == k then [ps[|ps| - 1]] else [])
  }

  lemma {:induction false} WithPriorityConcat(a: seq<Plugin>, b: seq<Plugin>, k: int)
    ensures WithPriority(a + b, k) == WithPriority(a, k) + WithPriority(b, k)
    decreases |b|
  {
    if b != [] {
      assert (a + b)[..|a + b| - 1] == a + b[..|b| - 1];
      WithPriorityConcat(a, b[..|b| - 1], k);
    } else {
      assert a + b == a;
    }
  }

  /** One step of a stable insertion: `x` goes after every element whose priority is not larger. */
  function Insert(s: seq<Plugin>, x: Plugin): (r: seq<Plugin>)
    ensures |r| == |s| + 1
    ensures multiset(r) == multiset(s) + multiset{x}
    ensures Sorted(s) ==> Sorted(r)
  {
    if s == [] || s[|s| - 1].priority <= x.priority then s + [x]
    else
      var last := s[|s| - 1];
      var init := s[..|s| - 1];
      assert s == init + [last];
      var r := Insert(init, x) + [last];
      assert Sorted(s) ==> Sorted(r) by {
        if Sorted(s) {
          SortedBelowLast(s);
          InsertBelow(Insert(init, x), init, x, last.priority);
          SortedSnoc(Insert(init, x), last);
        }
      }
      r
  }

  /** In a sorted list, every element but the last has a priority no larger than the last's. */
  lemma SortedBelowLast(s: seq<Plugin>)
    requires s != [] && Sorted(s)
    ensures Sorted(s[..|s| - 1])
    ensures forall e :: e in s[..|s| - 1] ==> e.priority <= s[|s| - 1].priority
  {
  }

  /** Adding an element keeps every priority under a bound that holds for the list and the element. */
  lemma InsertBelow(r: seq<Plugin>, s: seq<Plugin>, x: Plugin, b: int)
    requires multiset(r) == multiset(s) + multiset{x}
    requires x.priority <= b && forall e :: e in s ==> e.priority <= b
    ensures forall e :: e in r ==> e.priority <= b
  {
    forall e | e in r ensures e.priority <= b {
      assert e in multiset(r);
      assert e == x || e in s;
    }
  }

  /** Appending an element no smaller than everything keeps a list sorted. */
  lemma SortedSnoc(a: seq<Plugin>, y: Plugin)
    requires Sorted(a) && forall e :: e in a ==> e.priority <= y.priority
    ensures Sorted(a + [y])
  {
    var r := a + [y];
    forall i, j | 0 <= i < j < |r| ensures r[i].priority <= r[j].priority {
      if j == |a| {
        assert r[i] in a;
      }
    }
  }

  lemma WithPrioritySingle(y: Plugin, k: int)
    ensures WithPriority([y], k) == if y.priority == k then [y] else []
  {
    assert [y][..0] == [];
  }

  /** Inserting keeps, for every priority, the registration order of its plugins. */
  lemma {:induction false} InsertStable(s: seq<Plugin>, x: Plugin, k: int)
    ensures WithPriority(Insert(s, x), k) == WithPriority(s + [x], k)
    decreases |s|
  {
    if s == [] || s[|s| - 1].priority <= x.priority {
    } else {
      var last := s[|s| - 1];
      var init := s[..|s| - 1];
      assert s == init + [last];
      assert Insert(s, x) == Insert(init, x) + [last];
      WithPriorityConcat(Insert(init, x), [last], k);
      InsertStable(init, x, k);
      SwapSingles(init, x, last, k);
      assert s + [x] == init + [last] + [x];
    }
  }

  /** Two plugins of different priorities can trade places without changing any one priority's order. */
  lemma SwapSingles(a: seq<Plugin>, x: Plugin, y: Plugin, k: int)
    requires x.priority != y.priority
    ensures WithPriority(a + [x], k) + WithPriority([y], k) == WithPriority(a + [y] + [x], k)
  {
    WithPriorityConcat(a, [x], k);
    WithPriorityConcat(a + [y], [x], k);
    if x.priority == k {
      DropsOther(a, y, k);
    } else {
      DropsOther(a, x, k);
      WithPriorityConcat(a, [y], k);
    }
  }

  /** A plugin of another priority contributes nothing. */
  lemma DropsOther(a: seq<Plugin>, y: Plugin, k: int)
    requires y.priority != k
    ensures WithPriority([y], k) == []
    ensures WithPriority(a + [y], k) == WithPriority(a, k)
  {
    assert [y][..0] == [];
    assert (a + [y])[..|a|] == a;
  }

  /** Python's `list.sort(key=lambda p: p.priority)`: a stable sort, as an insertion sort. */
  function SortByPriority(s: seq<Plugin>): (r: seq<Plugin>)
    ensures |r| == |s|
    ensures multiset(r) == multiset(s)
    ensures Sorted(r)
  {
    if s == [] then []
    else
      assert s == s[..|s| - 1] + [s[|s| - 1]];
      Insert(SortByPriority(s[..|s| - 1]), s[|s| - 1])
  }

  /** The sort is stable: plugins of equal priority keep their relative order. */
  lemma {:induction false} SortStable(s: seq<Plugin>, k: int)
    ensures WithPriority(SortByPriority(s), k) == WithPriority(s, k)
    decreases |s|
  {
    if s != [] {
      var init, x := s[..|s| - 1], s[|s| - 1];
      assert s == init + [x];
      calc {
        WithPriority(SortByPriority(s), k);
        WithPriority(Insert(SortByPriority(init), x), k);
        { InsertStable(SortByPriority(init), x, k); }
        WithPriority(SortByPriority(init) + [x], k);
        { WithPriorityConcat(SortByPriority(init), [x], k); }
        WithPriority(SortByPriority(init), k) + WithPriority([x], k);
        { SortStable(init, k); }
        WithPriority(init, k) + WithPriority([x], k);
        { WithPriorityConcat(init, [x], k); }
        WithPriority(s, k);
      }
    }
  }

  // ---------------------------------------------------------------------------------------------
  // Names and filters.

  function Names(ps: seq<Plugin>): (r: seq<string>)
    ensures |r| == |ps| && forall i :: 0 <= i < |ps| ==> r[i] == ps[i].name
  {
    if ps == [] then [] else Names(ps[..|ps| - 1]) + [ps[|ps| - 1].name]
  }

  /** The first position holding a plugin of the given name. */
  function IndexOfName(ps: seq<Plugin>, name: string): (r: Option<nat>)
    ensures r.None? <==> forall i :: 0 <= i < |ps| ==> ps[i].name != name
    ensures r.Some? ==> r.value < |ps| && ps[r.value].name == name
                        && forall i :: 0 <= i < r.value ==> ps[i].name != name
  {
    if ps == [] then None
    else if ps[0].name == name then Some(0)
    else match IndexOfName(ps[1..], name)
      case None => None
      case Some(k) => Some(k + 1)
  }

  /** A position holding the name, after none before it did, is the first one, and the name is listed. */
  lemma FirstOfName(ps: seq<Plugin>, name: string, i: nat)
    requires i < |ps| && ps[i].name == name
    requires forall j :: 0 <= j < i ==> ps[j].name != name
    ensures IndexOfName(ps, name) == Some(i) && name in Names(ps)
  {
    assert Names(ps)[i] == name;
  }

  /** A name no plugin carries is not listed. */
  lemma NameAbsent(ps: seq<Plugin>, name: string)
    requires forall j :: 0 <= j < |ps| ==> ps[j].name != name
    ensures name !in Names(ps)
  {
  }

  /** Removing one plugin keeps the list sorted. */
  lemma RemoveKeepsSorted(ps: seq<Plugin>, k: nat)
    requires k < |ps| && Sorted(ps)
    ensures Sorted(ps[..k] + ps[k + 1..])
  {
    var r := ps[..k] + ps[k + 1..];
    assert forall a :: 0 <= a < |r| ==> r[a] == if a < k then ps[a] else ps[a + 1];
  }

  /** The filter conditions of the comprehensions below. */
  function HasName(name: string): Plugin -> bool
  {
    (p: Plugin) => p.name == name
  }

  predicate IsEnabled(p: Plugin)
  {
    p.enabled
  }

  function IsEligible(available: Plugin -> bool): Plugin -> bool
  {
    (p: Plugin) => p.enabled && available(p)
  }

  /** `[p for p in ps if p.name == name]` */
  function Named(ps: seq<Plugin>, name: string): (r: seq<Plugin>)
    ensures FilterOf(r, ps, HasName(name))
    ensures forall p :: p in r <==> p in ps && p.name == name
  {
    if ps == [] then []
    else
      var init, last := ps[..|ps| - 1], ps[|ps| - 1];
      assert ps == init + [last];
      FilterOfSnoc(Named(init, name), init, HasName(name), last);
      Named(init, name) + (if last.name == name then [last] else [])
  }

  /** `[p for p in ps if p.enabled]` */
  function Enabled(ps: seq<Plugin>): (r: seq<Plugin>)
    ensures FilterOf(r, ps, IsEnabled)
    ensures forall p :: p in r <==> p in ps && p.enabled
  {
    if ps == [] then []
    else
      var init, last := ps[..|ps| - 1], ps[|ps| - 1];
      assert ps == init + [last];
      FilterOfSnoc(Enabled(init), init, IsEnabled, last);
      Enabled(init) + (if last.enabled then [last] else [])
  }

  /** The plugins a lookup asks: enabled and available, each once, in list order. */
  function Eligible(ps: seq<Plugin>, available: Plugin -> bool): (r: seq<Plugin>)
    ensures FilterOf(r, ps, IsEligible(available))
    ensures forall p :: p in r <==> p in ps && p.enabled && available(p)
  {
    if ps == [] then []
    else
      var init, last := ps[..|ps| - 1], ps[|ps| - 1];
      assert ps == init + [last];
      FilterOfSnoc(Eligible(init, available), init, IsEligible(available), last);
      Eligible(init, available) + (if last.enabled && available(last) then [last] else [])
  }

  /** No two plugins share a name. */
  predicate DistinctNames(ps: seq<Plugin>)
  {
    forall i, j :: 0 <= i < j < |ps| ==> ps[i].name != ps[j].name
  }

  // ---------------------------------------------------------------------------------------------
  // The lookup policy of `fetch_cve`.

  /** A plugin that is enabled, available and returns a result for the id. */
  predicate Wins(p: Plugin, available: Plugin -> bool, fetch: Plugin -> Answer)
  {
    p.enabled && available(p) && fetch(p).Hit?
  }

  /** The position of the first winning plugin, if any. */
  function FirstWinner(ps: seq<Plugin>, available: Plugin -> bool, fetch: Plugin -> Answer): (r: Option<nat>)
    ensures r.None? <==> forall j :: 0 <= j < |ps| ==> !Wins(ps[j], available, fetch)
    ensures r.Some? ==> r.value < |ps| && Wins(ps[r.value], available, fetch)
                        && forall j :: 0 <= j < r.value ==> !Wins(ps[j], available, fetch)
  {
    if ps == [] then None
    else
      var init := ps[..|ps| - 1];
      assert forall j :: 0 <= j < |init| ==> init[j] == ps[j];
      match FirstWinner(init, available, fetch)
      case Some(k) => Some(k)
      case None => if Wins(ps[|ps| - 1], available, fetch) then Some(|ps| - 1) else None
  }

  /** Why an enabled plugin gave nothing: the diagnostic after "<name>: ". */
  function Reason(p: Plugin, available: Plugin -> bool, fetch: Plugin -> Answer): string
  {
    if !available(p) then "not available"
    else match fetch(p)
      case Raised(message) => message
      case _ => "not found"
  }

  /** One diagnostic line: `f"{name}: {reason}"`. */
  function Line(name: string, reason: string): string
  {
    name + ": " + reason
  }

  /** The `details` of a failed lookup: one line per enabled plugin, none for disabled ones. */
  function Details(ps: seq<Plugin>, available: Plugin -> bool, fetch: Plugin -> Answer): seq<string>
  {
    if ps == [] then []
    else
      var last := ps[|ps| - 1];
      Details(ps[..|ps| - 1], available, fetch)
      + (if last.enabled then [Line(last.name, Reason(last, available, fetch))] else [])
  }

  /** The `source` argument was given (`if source:` — a non-empty string). */
  predicate SourceGiven(source: Option<string>)
  {
    source.Some? && source.value != []
  }

  /** The plugins a lookup walks through: all of them, or those named by `source`. */
  function ToQuery(ps: seq<Plugin>, source: Option<string>): seq<Plugin>
  {
    if SourceGiven(source) then Named(ps, source.value) else ps
  }

  /** What the query loop of `fetch_cve` returns over the plugins `qs`, and whose `fetch_cve` it calls. */
  function ScanSpec(qs: seq<Plugin>, cveId: string, available: Plugin -> bool, fetch: Plugin -> Answer): (FetchResponse, seq<Plugin>)
  {
    match FirstWinner(qs, available, fetch)
    case Some(k) =>
      var res := fetch(qs[k]).result;
      (Success(res.cveId, res.source, res.content, res.metadata), Eligible(qs[..k + 1], available))
    case None =>
      (NotFound(cveId, Names(Enabled(qs)), Details(qs, available, fetch)), Eligible(qs, available))
  }

  /** What `fetch_cve` returns, and which plugins' `fetch_cve` it calls, in order. */
  function FetchSpec(ps: seq<Plugin>, cveId: string, source: Option<string>,
                     available: Plugin -> bool, fetch: Plugin -> Answer): (FetchResponse, seq<Plugin>)
  {
    if ps == [] then (NoPlugins(cveId), [])
    else if SourceGiven(source) && Named(ps, source.value) == [] then
      (UnknownSource(cveId, source.value, Names(ps)), [])
    else ScanSpec(ToQuery(ps, source), cveId, available, fetch)
  }

  /** Each diagnostic line names the enabled plugin it is about, in order, with its reason. */
  lemma {:induction false} DetailsShape(ps: seq<Plugin>, available: Plugin -> bool, fetch: Plugin -> Answer)
    ensures |Details(ps, available, fetch)| == |Enabled(ps)|
    ensures forall i :: 0 <= i < |Enabled(ps)| ==>
      Details(ps, available, fetch)[i] == Line(Enabled(ps)[i].name, Reason(Enabled(ps)[i], available, fetch))
  {
    if ps != [] {
      DetailsShape(ps[..|ps| - 1], available, fetch);
    }
  }

  /**
   * First match by priority: a lookup over a non-empty list succeeds exactly when some queried
   * plugin wins; it then reports the first winner's whole result, and it asked exactly the
   * enabled and available plugins up to that winner, each once and in list order. When nothing
   * wins it asked every enabled and available plugin.
   */
  lemma FetchFirstMatch(ps: seq<Plugin>, cveId: string, source: Option<string>,
                        available: Plugin -> bool, fetch: Plugin -> Answer)
    requires ps != [] && !(SourceGiven(source) && Named(ps, source.value) == [])
    ensures var (r, queried) := FetchSpec(ps, cveId, source, available, fetch);
            var qs := ToQuery(ps, source);
            (r.Success? <==> exists k :: 0 <= k < |qs| && Wins(qs[k], available, fetch))
            && (r.Success? ==>
                  exists k :: (0 <= k < |qs| && Wins(qs[k], available, fetch)
                  && (forall j :: 0 <= j < k ==> !Wins(qs[j], available, fetch))
                  && r == Success(fetch(qs[k]).result.cveId, fetch(qs[k]).result.source,
                                  fetch(qs[k]).result.content, fetch(qs[k]).result.metadata)
                  && queried == Eligible(qs[..k + 1], available)
                  && forall p :: p in queried ==> p in qs[..k + 1] && p.enabled && available(p)))
            && (r.NotFound? ==> queried == Eligible(qs, available) && r.cveId == cveId)
  {
    var qs := ToQuery(ps, source);
    match FirstWinner(qs, available, fetch)
    case Some(k) =>
    case None =>
  }

  // ---------------------------------------------------------------------------------------------
  // The result dicts of the batch operations and of `fetch_cve_from_all`.

  /**
   * The refusals of a lookup: an empty registry and an unknown source are reported without asking
   * any plugin, the latter listing every registered name; a named source restricts the lookup to
   * the plugins of that name.
   */
  lemma FetchRefusals(ps: seq<Plugin>, cveId: string, source: Option<string>,
                      available: Plugin -> bool, fetch: Plugin -> Answer)
    ensures var (r, queried) := FetchSpec(ps, cveId, source, available, fetch);
            && (r.NoPlugins? <==> ps == [])
            && (r.UnknownSource? <==> ps != [] && SourceGiven(source) && forall p :: p in ps ==> p.name != source.value)
            && (r.NoPlugins? || r.UnknownSource? ==> queried == [] && r.cveId == cveId)
            && (r.UnknownSource? ==> r.source == source.value && r.availableSources == Names(ps))
            && (SourceGiven(source) ==> forall p :: p in queried ==> p.name == source.value)
  {
    var (r, queried) := FetchSpec(ps, cveId, source, available, fetch);
    if ps != [] && SourceGiven(source) {
      var qs := Named(ps, source.value);
      if qs == [] {
        assert forall p :: p in ps ==> p.name != source.value;
      } else {
        assert qs[0] in ps && qs[0].name == source.value;
        match FirstWinner(qs, available, fetch)
        case Some(k) =>
          assert forall p :: p in queried ==> p in qs[..k + 1];
          assert forall p :: p in qs[..k + 1] ==> p in qs;
        case None =>
      }
    }
  }

  /** `results[p.name] = <p's flag>` for each plugin in turn. */
  function BatchResults(ps: seq<Plugin>, step: Plugin -> StepAnswer): seq<(string, bool)>
  {
    if ps == [] then []
    else
      var last := ps[|ps| - 1];
      Put(BatchResults(ps[..|ps| - 1], step), last.name, StepOk(step(last)))
  }

  /** One more plugin's batch call records its outcome under its name. */
  lemma BatchStep(qs: seq<Plugin>, i: nat, step: Plugin -> StepAnswer)
    requires i < |qs|
    ensures BatchResults(qs[..i + 1], step) == Put(BatchResults(qs[..i], step), qs[i].name, StepOk(step(qs[i])))
  {
    assert qs[..i + 1][..i] == qs[..i];
  }

  /** The `sources` entry recorded for a plugin that was asked. */
  function EntryFor(p: Plugin, fetch: Plugin -> Answer): SourceResult
  {
    match fetch(p)
    case Hit(res) => SourceFound(res.content, res.metadata)
    case Miss => SourceFailed("Not found")
    case Raised(message) => SourceFailed(message)
  }

  /** `results[p.name] = <p's entry>` for each plugin asked. */
  function AllSources(ps: seq<Plugin>, fetch: Plugin -> Answer): seq<(string, SourceResult)>
  {
    if ps == [] then []
    else
      var last := ps[|ps| - 1];
      Put(AllSources(ps[..|ps| - 1], fetch), last.name, EntryFor(last, fetch))
  }

  /** Asking one more plugin records its entry under its name. */
  lemma AllSourcesStep(ps: seq<Plugin>, p: Plugin, fetch: Plugin -> Answer)
    ensures AllSources(ps + [p], fetch) == Put(AllSources(ps, fetch), p.name, EntryFor(p, fetch))
  {
    assert (ps + [p])[..|ps + [p]| - 1] == ps;
  }

  /** `[name for name, r in results.items() if r.get("success")]` */
  function FoundIn(sources: seq<(string, SourceResult)>): seq<string>
  {
    if sources == [] then []
    else
      var last := sources[|sources| - 1];
      FoundIn(sources[..|sources| - 1]) + (if last.1.SourceFound? then [last.0] else [])
  }

  /** The names of the plugins whose answer is a result. */
  function HitNames(ps: seq<Plugin>, fetch: Plugin -> Answer): seq<string>
  {
    if ps == [] then []
    else
      var last := ps[|ps| - 1];
      HitNames(ps[..|ps| - 1], fetch) + (if fetch(last).Hit? then [last.name] else [])
  }

  /** Every key of the batch dict is the name of a plugin that was called, and every such name is a key. */
  lemma {:induction false} BatchKeys(ps: seq<Plugin>, step: Plugin -> StepAnswer)
    ensures forall n :: n in Keys(BatchResults(ps, step)) <==> n in Names(ps)
  {
    if ps != [] {
      BatchKeys(ps[..|ps| - 1], step);
      assert Names(ps) == Names(ps[..|ps| - 1]) + [ps[|ps| - 1].name];
    }
  }

  /** With distinct names, the batch dict has one entry per plugin, in list order, holding its flag. */
  lemma {:induction false} BatchDistinct(ps: seq<Plugin>, step: Plugin -> StepAnswer)
    requires DistinctNames(ps)
    ensures Keys(BatchResults(ps, step)) == Names(ps)
    ensures forall i :: 0 <= i < |ps| ==> BatchResults(ps, step)[i] == (ps[i].name, StepOk(step(ps[i])))
  {
    if ps != [] {
      var init := ps[..|ps| - 1];
      BatchDistinct(init, step);
      assert ps[|ps| - 1].name !in Names(init);
      PutFresh(BatchResults(init, step), ps[|ps| - 1].name, StepOk(step(ps[|ps| - 1])));
      assert Names(ps) == Names(init) + [ps[|ps| - 1].name];
      assert Keys(BatchResults(init, step) + [(ps[|ps| - 1].name, StepOk(step(ps[|ps| - 1])))])
        == Keys(BatchResults(init, step)) + [ps[|ps| - 1].name] by {
        KeysConcat(BatchResults(init, step), [(ps[|ps| - 1].name, StepOk(step(ps[|ps| - 1])))]);
      }
    }
  }

  /**
   * With distinct names, `found_in` lists exactly the asked plugins that returned a result, in
   * the order they were asked.
   */
  lemma {:induction false} FoundInDistinct(ps: seq<Plugin>, fetch: Plugin -> Answer)
    requires DistinctNames(ps)
    ensures Keys(AllSources(ps, fetch)) == Names(ps)
    ensures FoundIn(AllSources(ps, fetch)) == HitNames(ps, fetch)
  {
    if ps != [] {
      var init, last := ps[..|ps| - 1], ps[|ps| - 1];
      FoundInDistinct(init, fetch);
      assert last.name !in Names(init);
      PutFresh(AllSources(init, fetch), last.name, EntryFor(last, fetch));
      KeysConcat(AllSources(init, fetch), [(last.name, EntryFor(last, fetch))]);
      assert Names(ps) == Names(init) + [last.name];
      var d := AllSources(init, fetch) + [(last.name, EntryFor(last, fetch))];
      assert d[..|d| - 1] == AllSources(init, fetch);
    }
  }


  /** One more enabled plugin adds its line to the diagnostics. */
  lemma DetailsStep(qs: seq<Plugin>, i: nat, available: Plugin -> bool, fetch: Plugin -> Answer)
    requires i < |qs|
    ensures Details(qs[..i + 1], available, fetch)
            == Details(qs[..i], available, fetch) + (if qs[i].enabled then [Line(qs[i].name, Reason(qs[i], available, fetch))] else [])
  {
    assert qs[..i + 1][..i] == qs[..i];
  }

  /** One more plugin extends the list of plugins asked when it is enabled and available. */
  lemma EligibleStep(qs: seq<Plugin>, i: nat, available: Plugin -> bool)
    requires i < |qs|
    ensures Eligible(qs[..i + 1], available)
            == Eligible(qs[..i], available) + (if qs[i].enabled && available(qs[i]) then [qs[i]] else [])
  {
    assert qs[..i + 1][..i] == qs[..i];
  }

  /** None of the first `i` plugins wins. */
  predicate NoWinnerBefore(qs: seq<Plugin>, i: nat, available: Plugin -> bool, fetch: Plugin -> Answer)
    requires i <= |qs|
  {
    forall j :: 0 <= j < i ==> !Wins(qs[j], available, fetch)
  }

  lemma NoWinnerStep(qs: seq<Plugin>, i: nat, available: Plugin -> bool, fetch: Plugin -> Answer)
    requires i < |qs| && NoWinnerBefore(qs, i, available, fetch) && !Wins(qs[i], available, fetch)
    ensures NoWinnerBefore(qs, i + 1, available, fetch)
  {
  }

  /** The first plugin that wins, after none before it did, is the first winner. */
  lemma WinnerAt(qs: seq<Plugin>, i: nat, available: Plugin -> bool, fetch: Plugin -> Answer)
    requires i < |qs| && Wins(qs[i], available, fetch) && NoWinnerBefore(qs, i, available, fetch)
    ensures FirstWinner(qs, available, fetch) == Some(i)
  {
  }

  /** When no plugin wins, there is no first winner. */
  lemma NoWinner(qs: seq<Plugin>, available: Plugin -> bool, fetch: Plugin -> Answer)
    requires NoWinnerBefore(qs, |qs|, available, fetch)
    ensures FirstWinner(qs, available, fetch) == None
  {
  }

  /** The loop of `fetch_cve`: ask each enabled, available plugin in turn and stop at the first result. */
  method QueryInOrder(toQuery: seq<Plugin>, cveId: string, available: Plugin -> bool, fetch: Plugin -> Answer)
    returns (r: FetchResponse, queried: seq<Plugin>)
    ensures (r, queried) == ScanSpec(toQuery, cveId, available, fetch)
  {
    var errors: seq<string> := [];
    queried := [];
    var i := 0;
    while i < |toQuery|
      invariant 0 <= i <= |toQuery|
      invariant NoWinnerBefore(toQuery, i, available, fetch)
      invariant errors == Details(toQuery[..i], available, fetch)
      invariant queried == Eligible(toQuery[..i], available)
    {
      var p := toQuery[i];
      DetailsStep(toQuery, i, available, fetch);
      EligibleStep(toQuery, i, available);
      if !p.enabled {
        NoWinnerStep(toQuery, i, available, fetch);
        i := i + 1;
        continue;
      }
      if !available(p) {
        errors := errors + [Line(p.name, "not available")];
        NoWinnerStep(toQuery, i, available, fetch);
        i := i + 1;
        continue;
      }
      queried := queried + [p];
      var answer := fetch(p);
      match answer {
        case Hit(res) =>
          WinnerAt(toQuery, i, available, fetch);
          return Success(res.cveId, res.source, res.content, res.metadata), queried;
        case Miss =>
          errors := errors + [Line(p.name, "not found")];
        case Raised(message) =>
          errors := errors + [Line(p.name, message)];
      }
      NoWinnerStep(toQuery, i, available, fetch);
      i := i + 1;
    }
    assert toQuery[..i] == toQuery;
    NoWinner(toQuery, available, fetch);
    r := NotFound(cveId, Names(Enabled(toQuery)), errors);
  }

  /** A plugin as its `initialize` leaves it. */
  function AfterInit(p: Plugin, initialize: Plugin -> Initialized): Plugin
  {
    p.(enabled := initialize(p).enabledAfter)
  }

  /**
   * The registry's list after `initialize_all`: the same plugin objects in the same order, each
   * with the enabled flag its `initialize` left; identities, names and priorities do not change,
   * so neither do the dispatch order and the listed names.
   */
  function InitializedPlugins(ps: seq<Plugin>, initialize: Plugin -> Initialized): (r: seq<Plugin>)
    ensures |r| == |ps|
    ensures forall k :: 0 <= k < |ps| ==>
              r[k].id == ps[k].id && r[k].name == ps[k].name && r[k].priority == ps[k].priority
              && r[k].enabled == initialize(ps[k]).enabledAfter
    ensures Sorted(r) <==> Sorted(ps)
    ensures Names(r) == Names(ps)
  {
    seq(|ps|, k requires 0 <= k < |ps| => AfterInit(ps[k], initialize))
  }

  lemma InitializedStep(ps: seq<Plugin>, i: nat, initialize: Plugin -> Initialized)
    requires i < |ps|
    ensures InitializedPlugins(ps[..i + 1], initialize) == InitializedPlugins(ps[..i], initialize) + [AfterInit(ps[i], initialize)]
  {
  }

  // ---------------------------------------------------------------------------------------------

  /** `CVEPluginManager`: the registry object. */
  class CvePluginManager {
    var plugins: seq<Plugin>

    /** Dispatch order is always non-decreasing priority. */
    ghost predicate Valid()
      reads this
    {
      Sorted(plugins)
    }

    constructor ()
      ensures Valid() && plugins == []
    {
      plugins := [];
    }

    /** `register`: append, then stable-sort by priority. */
    method Register(p: Plugin)
      modifies this
      ensures Valid()
      ensures plugins == SortByPriority(old(plugins) + [p])
      ensures multiset(plugins) == multiset(old(plugins)) + multiset{p}
      ensures forall k :: WithPriority(plugins, k) == WithPriority(old(plugins) + [p], k)
    {
      ghost var before := plugins + [p];
      plugins := SortByPriority(plugins + [p]);
      forall k ensures WithPriority(plugins, k) == WithPriority(before, k) {
        SortStable(before, k);
      }
    }

    /** `unregister`: remove the first plugin of that name, and say whether there was one. */
    method Unregister(name: string) returns (removed: bool)
      requires Valid()
      modifies this
      ensures Valid()
      ensures removed <==> name in Names(old(plugins))
      ensures removed ==> var k := IndexOfName(old(plugins), name).value;
                          plugins == old(plugins)[..k] + old(plugins)[k + 1..]
      ensures !removed ==> plugins == old(plugins)
    {
      var i := 0;
      while i < |plugins|
        invariant 0 <= i <= |plugins|
        invariant forall j :: 0 <= j < i ==> plugins[j].name != name
      {
        if plugins[i].name == name {
          FirstOfName(plugins, name, i);
          RemoveKeepsSorted(plugins, i);
          plugins := plugins[..i] + plugins[i + 1..];
          return true;
        }
        i := i + 1;
      }
      NameAbsent(plugins, name);
      return false;
    }

    /** `get_plugin`: the first plugin of that name, or None. */
    method GetPlugin(name: string) returns (r: Option<Plugin>)
      ensures match IndexOfName(plugins, name)
              case Some(k) => r == Some(plugins[k])
              case None => r == None
    {
      var i := 0;
      while i < |plugins|
        invariant 0 <= i <= |plugins|
        invariant forall j :: 0 <= j < i ==> plugins[j].name != name
      {
        if plugins[i].name == name {
          return Some(plugins[i]);
        }
        i := i + 1;
      }
      return None;
    }

    /** `list_plugins`: one row per plugin, in dispatch order, with availability asked afresh. */
    function ListPlugins(available: Plugin -> bool): (r: seq<PluginInfo>)
      reads this
      ensures |r| == |plugins|
      ensures forall i :: 0 <= i < |r| ==>
        r[i].name == plugins[i].name && r[i].priority == plugins[i].priority
        && r[i].enabled == plugins[i].enabled && r[i].available == available(plugins[i])
    {
      seq(|plugins|, i requires 0 <= i < |plugins| reads this =>
        PluginInfo(plugins[i].name, plugins[i].priority, plugins[i].enabled, available(plugins[i])))
    }

    /** The listing is in non-decreasing priority order. */
    lemma ListedInPriorityOrder(available: Plugin -> bool)
      requires Valid()
      ensures forall i, j :: 0 <= i < j < |plugins| ==> ListPlugins(available)[i].priority <= ListPlugins(available)[j].priority
    {
    }

    /**
     * `initialize_all`: every plugin is initialized, in list order; a raise records False. The
     * plugin objects are the registry's own, so a plugin that turned itself off stays off in the
     * registry, and the dispatch order is kept.
     */
    method InitializeAll(initialize: Plugin -> Initialized) returns (results: seq<(string, bool)>, called: seq<Plugin>)
      modifies this
      ensures called == old(plugins)
      ensures results == BatchResults(old(plugins), InitAnswer(initialize))
      ensures plugins == InitializedPlugins(old(plugins), initialize)
      ensures Valid() <==> old(Valid())
    {
      var ps := plugins;
      var updated: seq<Plugin> := [];
      results, called := [], [];
      var i := 0;
      while i < |ps|
        invariant 0 <= i <= |ps|
        invariant called == ps[..i]
        invariant results == BatchResults(ps[..i], InitAnswer(initialize))
        invariant updated == InitializedPlugins(ps[..i], initialize)
      {
        var p := ps[i];
        BatchStep(ps, i, InitAnswer(initialize));
        InitializedStep(ps, i, initialize);
        TakeOneMore(ps, i);
        called := called + [p];
        var out := initialize(p);
        results := Put(results, p.name, StepOk(out.answer));
        updated := updated + [p.(enabled := out.enabledAfter)];
        i := i + 1;
      }
      assert ps[..i] == ps;
      plugins := updated;
    }

    /** `update_all`: only enabled plugins are updated, in list order; a raise records False. */
    method UpdateAll(update: Plugin -> StepAnswer) returns (results: seq<(string, bool)>, called: seq<Plugin>)
      ensures called == Enabled(plugins)
      ensures results == BatchResults(Enabled(plugins), update)
    {
      results, called := [], [];
      var i := 0;
      while i < |plugins|
        invariant 0 <= i <= |plugins|
        invariant called == Enabled(plugins[..i])
        invariant results == BatchResults(Enabled(plugins[..i]), update)
      {
        var p := plugins[i];
        assert plugins[..i + 1][..i] == plugins[..i];
        if p.enabled {
          called := called + [p];
          var answer := update(p);
          results := Put(results, p.name, StepOk(answer));
          assert Enabled(plugins[..i + 1]) == Enabled(plugins[..i]) + [p];
          assert Enabled(plugins[..i + 1])[..|Enabled(plugins[..i + 1])| - 1] == Enabled(plugins[..i]);
        }
        i := i + 1;
      }
      assert plugins[..i] == plugins;
    }

    /** `fetch_cve`: first match by priority, with the diagnostics of every plugin passed over. */
    method FetchCve(cveId: string, source: Option<string>, available: Plugin -> bool, fetch: Plugin -> Answer)
      returns (r: FetchResponse, queried: seq<Plugin>)
      ensures (r, queried) == FetchSpec(plugins, cveId, source, available, fetch)
    {
      if plugins == [] {
        return NoPlugins(cveId), [];
      }
      var toQuery := plugins;
      if SourceGiven(source) {
        toQuery := Named(plugins, source.value);
        if toQuery == [] {
          return UnknownSource(cveId, source.value, Names(plugins)), [];
        }
      }
      assert toQuery == ToQuery(plugins, source);
      r, queried := QueryInOrder(toQuery, cveId, available, fetch);
    }

    /** `fetch_cve_from_all`: every enabled and available plugin is asked once, in list order. */
    method FetchCveFromAll(cveId: string, available: Plugin -> bool, fetch: Plugin -> Answer)
      returns (r: AllResponse, queried: seq<Plugin>)
      ensures queried == Eligible(plugins, available)
      ensures r.cveId == cveId
      ensures r.sources == AllSources(queried, fetch)
      ensures r.foundIn == FoundIn(r.sources)
    {
      var ps := plugins;
      var results: seq<(string, SourceResult)> := [];
      queried := [];
      var i := 0;
      while i < |ps|
        invariant 0 <= i <= |ps|
        invariant queried == Eligible(ps[..i], available)
        invariant results == AllSources(queried, fetch)
      {
        var p := ps[i];
        EligibleStep(ps, i, available);
        if !p.enabled || !available(p) {
          i := i + 1;
          continue;
        }
        var answer := fetch(p);
        var entry := match answer
          case Hit(res) => SourceFound(res.content, res.metadata)
          case Miss => SourceFailed("Not found")
          case Raised(message) => SourceFailed(message);
        assert entry == EntryFor(p, fetch);
        AllSourcesStep(queried, p, fetch);
        results := Put(results, p.name, entry);
        queried := queried + [p];
        i := i + 1;
      }
      assert ps[..i] == ps;
      r := AllResponse(cveId, results, FoundIn(results));
    }
  }
}
