/**
 * The endpoint router: choosing the fastest healthy endpoint of a group, blacklisting one that
 * fails, and what a run of failing turns therefore does.
 */
module Router {
  import opened Frames

  const SELECTION_WINDOW := 5
  const HEALTH_KEY_PREFIX := "live_call_modal_health"

  /** One poll: its adjusted latency, if it has one, and the rest of the record. */
  datatype PollRun = PollRun(adjusted: Option<real>, rest: string)

  datatype LiveError = LiveError(at: string, kind: string, statusCode: Option<int>, text: string)

  datatype Health = Health(
    runs: seq<PollRun>,
    blacklisted: bool,
    reason: Option<string>,
    blacklistedAt: Option<string>,
    updatedAt: Option<string>,
    lastError: Option<LiveError>)

  const NO_HEALTH := Health([], false, None, None, None, None)

  /** What the cache holds under a key: a health record, or bytes that are not one. */
  datatype Raw = Stored(health: Health) | Malformed

  type Cache = map<string, Raw>

  datatype Endpoint = Endpoint(key: string, region: string, model: string)

  datatype Group = Group(configs: seq<string>, fallback: string, fallbackGroup: string)

  datatype Registry = Registry(endpoints: map<string, Endpoint>, groups: map<string, Group>) {
    predicate Valid() {
      forall k :: k in endpoints ==> endpoints[k].key == k
    }
  }

  datatype Selection = Selection(key: string, usingFallback: bool, group: string)

  function HealthKey(key: string): string {
    HEALTH_KEY_PREFIX + ":" + key
  }

  lemma HealthKeyInjective(a: string, b: string)
    requires HealthKey(a) == HealthKey(b)
    ensures a == b
  {
    var n := |HEALTH_KEY_PREFIX + ":"|;
    assert HealthKey(a)[n..] == a && HealthKey(b)[n..] == b;
  }

  function ParseHealth(cache: Cache, key: string): Health {
    if HealthKey(key) in cache && cache[HealthKey(key)].Stored? then cache[HealthKey(key)].health else NO_HEALTH
  }

  // ---- Latency ----

  function Latencies(runs: seq<PollRun>): seq<real> {
    if runs == [] then []
    else
      var run := runs[|runs| - 1];
      Latencies(runs[..|runs| - 1]) + (if run.adjusted.Some? then [run.adjusted.value] else [])
  }

  function Window(values: seq<real>): seq<real> {
    if |values| > SELECTION_WINDOW then values[|values| - SELECTION_WINDOW..] else values
  }

  function Sum(values: seq<real>): real {
    if values == [] then 0.0 else Sum(values[..|values| - 1]) + values[|values| - 1]
  }

  /** The mean of the last five known latencies. */
  function SelectionLatency(h: Health): Option<real> {
    var window := Window(Latencies(h.runs));
    if window == [] then None else Some(Sum(window) / |window| as real)
  }

  method ComputeSelectionLatency(h: Health) returns (latency: Option<real>)
    ensures latency == SelectionLatency(h)
  {
    var values: seq<real> := [];
    for i := 0 to |h.runs|
      invariant values == Latencies(h.runs[..i])
    {
      assert h.runs[..i + 1][..i] == h.runs[..i];
      if h.runs[i].adjusted.Some? {
        values := values + [h.runs[i].adjusted.value];
      }
    }
    assert h.runs[..|h.runs|] == h.runs;
    if |values| == 0 {
      return None;
    }
    if |values| > SELECTION_WINDOW {
      values := values[|values| - SELECTION_WINDOW..];
    }
    var sum := 0.0;
    for i := 0 to |values|
      invariant sum == Sum(values[..i])
    {
      assert values[..i + 1][..i] == values[..i];
      sum := sum + values[i];
    }
    assert values[..|values|] == values;
    return Some(sum / |values| as real);
  }

  lemma {:induction false} LatenciesConcat(a: seq<PollRun>, b: seq<PollRun>)
    ensures Latencies(a + b) == Latencies(a) + Latencies(b)
    decreases |b|
  {
    if b == [] {
      assert a + b == a;
    } else {
      LatenciesConcat(a, b[..|b| - 1]);
      assert (a + b)[..|a + b| - 1] == a + b[..|b| - 1];
    }
  }

  /** Polls older than the last five with a latency do not count. */
  lemma OldPollsDoNotCount(earlier: seq<PollRun>, h: Health)
    requires |Latencies(h.runs)| >= SELECTION_WINDOW
    ensures SelectionLatency(h.(runs := earlier + h.runs)) == SelectionLatency(h)
  {
    LatenciesConcat(earlier, h.runs);
    assert Window(Latencies(earlier) + Latencies(h.runs)) == Window(Latencies(h.runs));
  }

  lemma {:induction false} SumBounds(values: seq<real>, low: real, high: real)
    requires forall i :: 0 <= i < |values| ==> low <= values[i] <= high
    ensures low * |values| as real <= Sum(values) <= high * |values| as real
  {
    if values != [] {
      SumBounds(values[..|values| - 1], low, high);
    }
  }

  /** The score lies between the bounds of the latencies in the window. */
  lemma LatencyIsMean(h: Health, low: real, high: real)
    requires SelectionLatency(h).Some?
    requires forall i :: 0 <= i < |Window(Latencies(h.runs))| ==> low <= Window(Latencies(h.runs))[i] <= high
    ensures low <= SelectionLatency(h).value <= high
  {
    hide Window, Latencies, Sum;
    var w := Window(Latencies(h.runs));
    SumBounds(w, low, high);
    MeanBounds(Sum(w) / |w| as real, |w| as real, low, high);
  }

  lemma MeanBounds(mean: real, n: real, low: real, high: real)
    requires n > 0.0 && low * n <= mean * n <= high * n
    ensures low <= mean <= high
  {
    NotPositive(low - mean, n);
    NotPositive(mean - high, n);
  }

  lemma NotPositive(x: real, n: real)
    requires n > 0.0 && x * n <= 0.0
    ensures x <= 0.0
  {
  }

  // ---- The score is a mean ----

  /** A poll without a latency is passed over. */
  lemma OnlyKnownLatencies(runs: seq<PollRun>, run: PollRun)
    ensures Latencies(runs + [run]) == Latencies(runs) + (if run.adjusted.Some? then [run.adjusted.value] else [])
  {
    assert (runs + [run])[..|runs|] == runs;
  }

  lemma SumSnoc(values: seq<real>, x: real)
    ensures Sum(values + [x]) == Sum(values) + x
  {
    assert (values + [x])[..|values|] == values;
  }

  lemma {:induction false} SumConcat(a: seq<real>, b: seq<real>)
    ensures Sum(a + b) == Sum(a) + Sum(b)
    decreases |b|
  {
    if b == [] {
      assert a + b == a;
    } else {
      SumConcat(a, b[..|b| - 1]);
      assert (a + b)[..|a + b| - 1] == a + b[..|b| - 1];
    }
  }

  /** The latencies that count: the last five, or all when there are fewer. */
  predicate Counts(h: Health, w: seq<real>) {
    && 0 < |w| <= 5 && |w| <= |Latencies(h.runs)|
    && Latencies(h.runs)[|Latencies(h.runs)| - |w|..] == w
    && (|w| < 5 ==> Latencies(h.runs) == w)
  }

  lemma ScoreIsMean(h: Health, w: seq<real>)
    requires Counts(h, w)
    ensures SelectionLatency(h) == Some(Sum(w) / |w| as real)
    ensures |w| as real > 0.0
  {
    hide Latencies, Sum;
    assert Window(Latencies(h.runs)) == w;
  }

  lemma SumOfFive(a: real, b: real, c: real, d: real, e: real)
    ensures Sum([a, b, c, d, e]) == a + b + c + d + e
  {
    hide Sum;
    SumSnoc([a, b, c, d], e);
    SumSnoc([a, b, c], d);
    SumSnoc([a, b], c);
    SumSnoc([a], b);
    SumSnoc([], a);
    assert Sum([]) == 0.0 by { SumOfNone(); }
    assert [a, b, c, d] + [e] == [a, b, c, d, e] && [a, b, c] + [d] == [a, b, c, d] && [a, b] + [c] == [a, b, c];
    assert [a] + [b] == [a, b] && [] + [a] == [a];
  }

  lemma SumOfNone()
    ensures Sum([]) == 0.0
  {
  }

  /** With five known latencies at the end, whatever came before, the score is a fifth of their sum. */
  lemma ScoreOfFive(h: Health, earlier: seq<real>, a: real, b: real, c: real, d: real, e: real)
    requires Latencies(h.runs) == earlier + [a, b, c, d, e]
    ensures SelectionLatency(h) == Some((a + b + c + d + e) / 5.0)
  {
    hide Latencies, Sum, SelectionLatency;
    var w := [a, b, c, d, e];
    assert (earlier + w)[|earlier|..] == w;
    ScoreIsMean(h, w);
    SumOfFive(a, b, c, d, e);
    var n := |w| as real;
    assert n == 5.0 && Sum(w) / n == (a + b + c + d + e) / 5.0;
  }

  lemma OneMore(x: real, n: nat)
    ensures x * (n + 1) as real == x * n as real + x
  {
  }

  lemma {:induction false} SumOfEqual(w: seq<real>, x: real)
    requires forall y :: y in w ==> y == x
    ensures Sum(w) == x * |w| as real
  {
    if w != [] {
      var init := w[..|w| - 1];
      forall y | y in init ensures y == x {
        assert y in w;
      }
      SumOfEqual(init, x);
      assert w[|w| - 1] in w;
      OneMore(x, |init|);
    }
  }

  lemma Quotient(x: real, n: real)
    requires n > 0.0
    ensures x * n / n == x
  {
  }

  /** Equal latencies score that latency. */
  lemma EqualLatenciesScore(h: Health, w: seq<real>, x: real)
    requires Counts(h, w) && forall y :: y in w ==> y == x
    ensures SelectionLatency(h) == Some(x)
  {
    hide Sum, Counts, SelectionLatency;
    ScoreIsMean(h, w);
    SumOfEqual(w, x);
    var n := |w| as real;
    Quotient(x, n);
    assert Sum(w) / n == x;
  }

  /** Raising one of the latencies that count raises the score by its share. */
  lemma RaisedLatencyScores(h: Health, g: Health, before: seq<real>, x: real, after: seq<real>, d: real)
    requires Counts(h, before + [x] + after) && Counts(g, before + [x + d] + after)
    ensures SelectionLatency(h).Some? && SelectionLatency(g).Some?
    ensures var n := |before| + 1 + |after|;
      SelectionLatency(g).value == SelectionLatency(h).value + d / n as real
  {
    hide Sum, Counts, SelectionLatency;
    ScoreIsMean(h, before + [x] + after);
    ScoreIsMean(g, before + [x + d] + after);
    SumConcat(before + [x], after);
    SumConcat(before + [x + d], after);
    SumSnoc(before, x);
    SumSnoc(before, x + d);
    assert |before + [x] + after| == |before| + 1 + |after| == |before + [x + d] + after|;
    Shares(Sum(before) + x + Sum(after), d, (|before| + 1 + |after|) as real);
  }

  lemma Shares(x: real, d: real, n: real)
    requires n > 0.0
    ensures (x + d) / n == x / n + d / n
  {
  }

  lemma OneLess(init: seq<real>, x: real, left: seq<real>, right: seq<real>)
    requires multiset(init + [x]) == multiset(left + [x] + right)
    ensures multiset(init) == multiset(left + right)
  {
    assert multiset(init + [x]) == multiset(init) + multiset{x};
    assert multiset(left + [x] + right) == multiset(left + right) + multiset{x};
    forall y ensures multiset(init)[y] == multiset(left + right)[y] {
      assert (multiset(init) + multiset{x})[y] == (multiset(left + right) + multiset{x})[y];
    }
  }

  lemma {:induction false} SumOfPermuted(a: seq<real>, b: seq<real>)
    requires multiset(a) == multiset(b)
    ensures Sum(a) == Sum(b)
    decreases |a|
  {
    if a == [] {
      assert |multiset(b)| == |b| == 0;
    } else {
      hide Sum;
      var init, x := a[..|a| - 1], a[|a| - 1];
      assert x in multiset(b);
      var i :| 0 <= i < |b| && b[i] == x;
      var left, right := b[..i], b[i + 1..];
      assert a == init + [x] && b == left + [x] + right;
      OneLess(init, x, left, right);
      SumOfPermuted(init, left + right);
      SumConcat(left + [x], right);
      SumConcat(left, right);
      SumSnoc(left, x);
      SumSnoc(init, x);
    }
  }

  /** The order of the latencies that count does not matter. */
  lemma OrderDoesNotScore(h: Health, g: Health, w: seq<real>, v: seq<real>)
    requires Counts(h, w) && Counts(g, v) && multiset(w) == multiset(v)
    ensures SelectionLatency(h) == SelectionLatency(g)
  {
    hide Sum, Counts;
    ScoreIsMean(h, w);
    ScoreIsMean(g, v);
    SumOfPermuted(w, v);
    assert |multiset(w)| == |w| && |multiset(v)| == |v|;
  }

  // ---- The fastest endpoint of a list ----

  datatype Candidate = Candidate(key: string, latency: real)

  function CandidateOf(cache: Cache, e: Endpoint): Option<Candidate> {
    var h := ParseHealth(cache, e.key);
    if h.blacklisted || SelectionLatency(h).None? then None else Some(Candidate(e.key, SelectionLatency(h).value))
  }

  function Candidates(cache: Cache, configs: seq<Endpoint>): seq<Candidate> {
    if configs == [] then []
    else
      var c := CandidateOf(cache, configs[|configs| - 1]);
      Candidates(cache, configs[..|configs| - 1]) + (if c.Some? then [c.value] else [])
  }

  /** Insertion behind everything that is not slower: sorting this way is stable. */
  function Insert(sorted: seq<Candidate>, c: Candidate): seq<Candidate> {
    if sorted != [] && c.latency < sorted[|sorted| - 1].latency then
      Insert(sorted[..|sorted| - 1], c) + [sorted[|sorted| - 1]]
    else
      sorted + [c]
  }

  function StableSort(cs: seq<Candidate>): seq<Candidate> {
    if cs == [] then [] else Insert(StableSort(cs[..|cs| - 1]), cs[|cs| - 1])
  }

  ghost predicate Sorted(cs: seq<Candidate>) {
    forall i, j :: 0 <= i < j < |cs| ==> cs[i].latency <= cs[j].latency
  }

  ghost predicate AtMost(cs: seq<Candidate>, bound: real) {
    forall i :: 0 <= i < |cs| ==> cs[i].latency <= bound
  }

  lemma {:induction false} InsertKeepsBound(sorted: seq<Candidate>, c: Candidate, bound: real)
    requires AtMost(sorted, bound) && c.latency <= bound
    ensures AtMost(Insert(sorted, c), bound)
    decreases |sorted|
  {
    if sorted != [] && c.latency < sorted[|sorted| - 1].latency {
      InsertKeepsBound(sorted[..|sorted| - 1], c, bound);
    }
  }

  lemma {:induction false} InsertSorts(sorted: seq<Candidate>, c: Candidate)
    requires Sorted(sorted)
    ensures Sorted(Insert(sorted, c))
    decreases |sorted|
  {
    if sorted != [] && c.latency < sorted[|sorted| - 1].latency {
      var init, last := sorted[..|sorted| - 1], sorted[|sorted| - 1];
      InsertSorts(init, c);
      InsertKeepsBound(init, c, last.latency);
    }
  }

  lemma {:induction false} InsertAdds(sorted: seq<Candidate>, c: Candidate)
    ensures multiset(Insert(sorted, c)) == multiset(sorted) + multiset{c} && Insert(sorted, c) != []
    ensures Sorted(sorted) ==>
      Insert(sorted, c)[0] == if sorted == [] || c.latency < sorted[0].latency then c else sorted[0]
    decreases |sorted|
  {
    if sorted != [] && c.latency < sorted[|sorted| - 1].latency {
      InsertAdds(sorted[..|sorted| - 1], c);
      assert sorted == sorted[..|sorted| - 1] + [sorted[|sorted| - 1]];
    }
  }

  lemma {:induction false} StableSortSorts(cs: seq<Candidate>)
    ensures Sorted(StableSort(cs)) && multiset(StableSort(cs)) == multiset(cs)
  {
    hide Insert;
    if cs != [] {
      StableSortSorts(cs[..|cs| - 1]);
      InsertSorts(StableSort(cs[..|cs| - 1]), cs[|cs| - 1]);
      InsertAdds(StableSort(cs[..|cs| - 1]), cs[|cs| - 1]);
      assert cs == cs[..|cs| - 1] + [cs[|cs| - 1]];
    }
  }

  /** The first of the fastest. */
  ghost predicate IsStableMin(cs: seq<Candidate>, c: Candidate) {
    exists i :: 0 <= i < |cs| && cs[i] == c
      && (forall j :: 0 <= j < |cs| ==> c.latency <= cs[j].latency)
      && (forall j :: 0 <= j < i ==> c.latency < cs[j].latency)
  }

  lemma StableMinSnoc(init: seq<Candidate>, c: Candidate, last: Candidate)
    requires IsStableMin(init, c)
    ensures IsStableMin(init + [last], if last.latency < c.latency then last else c)
  {
    var cs := init + [last];
    var i :| 0 <= i < |init| && init[i] == c
      && (forall j :: 0 <= j < |init| ==> c.latency <= init[j].latency)
      && (forall j :: 0 <= j < i ==> c.latency < init[j].latency);
    assert cs[i] == c && cs[|init|] == last;
  }

  lemma {:induction false} HeadIsStableMin(cs: seq<Candidate>)
    requires cs != []
    ensures StableSort(cs) != [] && IsStableMin(cs, StableSort(cs)[0])
  {
    hide Insert, IsStableMin, Sorted;
    var init, last := cs[..|cs| - 1], cs[|cs| - 1];
    StableSortSorts(init);
    InsertAdds(StableSort(init), last);
    assert cs == init + [last];
    if init == [] {
      OnlyOne(last);
    } else {
      HeadIsStableMin(init);
      StableMinSnoc(init, StableSort(init)[0], last);
    }
  }

  lemma OnlyOne(c: Candidate)
    ensures IsStableMin([c], c)
  {
    assert [c][0] == c;
  }

  function Fastest(cache: Cache, configs: seq<Endpoint>): Option<string> {
    var sorted := StableSort(Candidates(cache, configs));
    if sorted == [] then None else Some(sorted[0].key)
  }

  /** The endpoint returned is a configured one that is not blacklisted, and the first of the fastest. */
  ghost predicate IsFastest(cache: Cache, configs: seq<Endpoint>, key: string) {
    exists c: Candidate :: c.key == key && IsStableMin(Candidates(cache, configs), c)
  }

  method FastestAvailable(cache: Cache, readFails: bool, configs: seq<Endpoint>) returns (key: Option<string>)
    ensures key == if readFails then None else Fastest(cache, configs)
    ensures key.Some? ==> IsFastest(cache, configs, key.value)
    ensures !readFails ==> (key.None? <==> Candidates(cache, configs) == [])
  {
    if readFails {
      return None;
    }
    var candidates: seq<Candidate> := [];
    for i := 0 to |configs|
      invariant candidates == Candidates(cache, configs[..i])
    {
      assert configs[..i + 1][..i] == configs[..i];
      var health := ParseHealth(cache, configs[i].key);
      if health.blacklisted {
        continue;
      }
      var latency := ComputeSelectionLatency(health);
      if latency.None? {
        continue;
      }
      candidates := candidates + [Candidate(configs[i].key, latency.value)];
    }
    assert configs[..|configs|] == configs;
    if |candidates| == 0 {
      return None;
    }
    HeadIsStableMin(candidates);
    return Some(StableSort(candidates)[0].key);
  }

  predicate Offers(cs: seq<Candidate>, key: string) {
    exists c :: c in cs && c.key == key
  }

  lemma FastestIs(cache: Cache, configs: seq<Endpoint>)
    ensures var cs := Candidates(cache, configs);
      && (Fastest(cache, configs).None? <==> cs == [])
      && (cs != [] ==> IsFastest(cache, configs, Fastest(cache, configs).value))
      && (cs != [] ==> Offers(cs, Fastest(cache, configs).value))
  {
    hide Candidates, StableSort;
    var cs := Candidates(cache, configs);
    StableSortSorts(cs);
    if cs != [] {
      HeadIsStableMin(cs);
      assert StableSort(cs)[0] in multiset(StableSort(cs));
    } else {
      assert |multiset(StableSort(cs))| == |StableSort(cs)|;
    }
  }

  lemma NothingFastest(cache: Cache)
    ensures Fastest(cache, []) == None && Candidates(cache, []) == []
  {
  }

  // ---- Groups and fallbacks ----

  predicate Fits(reg: Registry, region: string, key: string) {
    key in reg.endpoints && (region == "" || reg.endpoints[key].region == region)
  }

  function ConfigsFor(reg: Registry, keys: seq<string>, region: string): seq<Endpoint> {
    if keys == [] then []
    else
      var key := keys[|keys| - 1];
      ConfigsFor(reg, keys[..|keys| - 1], region) + (if Fits(reg, region, key) then [reg.endpoints[key]] else [])
  }

  function GroupConfigs(reg: Registry, group: string, region: string): seq<Endpoint> {
    if group in reg.groups then ConfigsFor(reg, reg.groups[group].configs, region) else []
  }

  /** The configs that are tried second: none when the group itself has none. */
  function FallbackConfigs(reg: Registry, group: string, region: string): seq<Endpoint> {
    if group !in reg.groups || GroupConfigs(reg, group, region) == [] || reg.groups[group].fallbackGroup == "" then []
    else GroupConfigs(reg, reg.groups[group].fallbackGroup, region)
  }

  /** The last resort, taken without any health data. */
  function Hardcoded(reg: Registry, group: string, region: string): Option<Selection> {
    if group !in reg.groups || GroupConfigs(reg, group, region) == [] then None
    else
      var g := reg.groups[group];
      if FallbackConfigs(reg, group, region) != [] && reg.groups[g.fallbackGroup].fallback != "" then
        Some(Selection(reg.groups[g.fallbackGroup].fallback, true, g.fallbackGroup))
      else if g.fallback != "" then Some(Selection(g.fallback, false, group))
      else None
  }

  /** Which reads and writes of the shared cache fail during a turn. */
  datatype Faults = Faults(firstRead: bool, secondRead: bool, blacklistRead: bool, blacklistWrite: bool)

  const NO_FAULTS := Faults(false, false, false, false)

  /** The choice, given what the group and its fallback group have to offer. */
  function ChooseFrom(reg: Registry, first: Option<string>, second: Option<string>, group: string, region: string):
    Option<Selection>
  {
    if first.Some? then Some(Selection(first.value, false, group))
    else if second.Some? && group in reg.groups then
      Some(Selection(second.value, true, reg.groups[group].fallbackGroup))
    else Hardcoded(reg, group, region)
  }

  /** A failed read counts as nothing on offer. */
  function ChooseUnder(reg: Registry, cache: Cache, faults: Faults, group: string, region: string): Option<Selection> {
    ChooseFrom(reg,
               if faults.firstRead then None else Fastest(cache, GroupConfigs(reg, group, region)),
               if faults.secondRead then None else Fastest(cache, FallbackConfigs(reg, group, region)),
               group, region)
  }

  function Choose(reg: Registry, cache: Cache, group: string, region: string): Option<Selection> {
    ChooseUnder(reg, cache, NO_FAULTS, group, region)
  }

  method GroupConfigsForRegion(reg: Registry, group: string, region: string) returns (configs: seq<Endpoint>, ok: bool)
    ensures configs == GroupConfigs(reg, group, region) && ok == (group in reg.groups)
  {
    if group !in reg.groups {
      return [], false;
    }
    var keys := reg.groups[group].configs;
    configs := [];
    for i := 0 to |keys|
      invariant configs == ConfigsFor(reg, keys[..i], region)
    {
      assert keys[..i + 1][..i] == keys[..i];
      if keys[i] !in reg.endpoints {
        continue;
      }
      var cfg := reg.endpoints[keys[i]];
      if region != "" && cfg.region != region {
        continue;
      }
      configs := configs + [cfg];
    }
    assert keys[..|keys|] == keys;
    return configs, true;
  }

  /** The group is read and has somebody to offer. */
  predicate GroupOffers(reg: Registry, cache: Cache, faults: Faults, group: string, region: string) {
    !faults.firstRead && Candidates(cache, GroupConfigs(reg, group, region)) != []
  }

  predicate FallbackOffers(reg: Registry, cache: Cache, faults: Faults, group: string, region: string) {
    !faults.secondRead && Candidates(cache, FallbackConfigs(reg, group, region)) != []
  }

  /** The fastest of the group, else of its fallback group, else the last resort; each read may fail. */
  method GetFastestForGroup(reg: Registry, cache: Cache, faults: Faults, group: string, region: string)
    returns (sel: Option<Selection>)
    ensures sel == ChooseUnder(reg, cache, faults, group, region)
    ensures GroupOffers(reg, cache, faults, group, region) ==>
      && sel.Some? && !sel.value.usingFallback && sel.value.group == group
      && IsFastest(cache, GroupConfigs(reg, group, region), sel.value.key)
    ensures !GroupOffers(reg, cache, faults, group, region) && FallbackOffers(reg, cache, faults, group, region) ==>
      && sel.Some? && sel.value.usingFallback
      && IsFastest(cache, FallbackConfigs(reg, group, region), sel.value.key)
    ensures !GroupOffers(reg, cache, faults, group, region) && !FallbackOffers(reg, cache, faults, group, region) ==>
      sel == Hardcoded(reg, group, region)
  {
    hide StableSort, Candidates, IsFastest, ConfigsFor, Fastest;
    NothingFastest(cache);
    FastestIs(cache, GroupConfigs(reg, group, region));
    FastestIs(cache, FallbackConfigs(reg, group, region));
    var configs, ok := GroupConfigsForRegion(reg, group, region);
    if !ok || |configs| == 0 {
      return None;
    }
    var groupConfig := reg.groups[group];
    var key := FastestAvailable(cache, faults.firstRead, configs);
    if key.Some? {
      return Some(Selection(key.value, false, group));
    }
    if groupConfig.fallbackGroup != "" {
      var fbConfigs, fbOK := GroupConfigsForRegion(reg, groupConfig.fallbackGroup, region);
      if fbOK && |fbConfigs| > 0 {
        key := FastestAvailable(cache, faults.secondRead, fbConfigs);
        if key.Some? {
          return Some(Selection(key.value, true, groupConfig.fallbackGroup));
        }
        var fb := reg.groups[groupConfig.fallbackGroup].fallback;
        if fb != "" {
          return Some(Selection(fb, true, groupConfig.fallbackGroup));
        }
      }
    }
    if groupConfig.fallback != "" {
      return Some(Selection(groupConfig.fallback, false, group));
    }
    return None;
  }

  // ---- Blacklisting ----

  function Truncate(s: string, n: nat): string {
    if |s| <= n then s else s[..n]
  }

  function Blacklist(cache: Cache, key: string, err: LiveError): Cache {
    cache[HealthKey(key) := Stored(ParseHealth(cache, key).(
      lastError := Some(err), blacklisted := true, reason := Some("error"),
      blacklistedAt := Some(err.at), updatedAt := Some(err.at)))]
  }

  /** The endpoint is no candidate any more, its polls are kept, and no other endpoint changes. */
  lemma BlacklistOnlyMarks(cache: Cache, key: string, err: LiveError, e: Endpoint)
    ensures var after := Blacklist(cache, key, err);
      && ParseHealth(after, key).runs == ParseHealth(cache, key).runs
      && CandidateOf(after, e) == if e.key == key then None else CandidateOf(cache, e)
  {
    hide SelectionLatency;
    if HealthKey(e.key) == HealthKey(key) {
      HealthKeyInjective(e.key, key);
    }
  }

  // ---- One turn ----

  const SLOW_MS := 3000.0

  /** How a request to the chosen endpoint went. */
  datatype Outcome =
    | BuildFailed(message: string)
    | TransportFailed(message: string, cancelled: bool)
    | Answered(status: int, body: string, totalMs: real, abandoned: bool)   // a cancellation was seen between chunks

  /** The error that blacklists the endpoint, if any: its status (0 when there is none) and its text. */
  function LiveErrorOf(o: Outcome): Option<(int, string)> {
    match o
    case BuildFailed(message) => Some((0, message))
    case TransportFailed(message, cancelled) => if cancelled then None else Some((0, message))
    case Answered(status, body, _, _) => if 200 <= status < 300 then None else Some((status, body))
  }

  function Recorded(err: (int, string), kind: string, at: string): LiveError {
    LiveError(at, kind, if err.0 != 0 then Some(err.0) else None, Truncate(err.1, 1000))
  }

  /** The cache once the chosen endpoint, if there is one, is blacklisted. */
  function Blame(reg: Registry, cache: Cache, sel: Option<Selection>, err: LiveError): Cache {
    if sel.None? || sel.value.key !in reg.endpoints then cache
    else Blacklist(cache, reg.endpoints[sel.value.key].key, err)
  }

  /** The cache after a turn whose request failed with this error. */
  function AfterFailure(reg: Registry, cache: Cache, group: string, region: string, err: LiveError): Cache {
    Blame(reg, cache, Choose(reg, cache, group, region), err)
  }

  class RedisStore {
    var cache: Cache

    constructor (cache: Cache)
      ensures this.cache == cache
    {
      this.cache := cache;
    }

    method BlacklistForLiveError(key: string, err: LiveError, readFails: bool, writeFails: bool)
      modifies this
      ensures cache == if readFails || writeFails then old(cache) else Blacklist(old(cache), key, err)
    {
      if readFails {
        return;
      }
      var health := ParseHealth(cache, key);
      health := health.(lastError := Some(err));
      health := health.(blacklisted := true, reason := Some("error"));
      health := health.(blacklistedAt := Some(err.at), updatedAt := Some(err.at));
      if !writeFails {
        cache := cache[HealthKey(key) := Stored(health)];
      }
    }

    /** One completion: the endpoint asked, and why a new poll is requested. */
    method Stream(reg: Registry, group: string, region: string, outcome: Outcome, faults: Faults,
                  kind: string, at: string)
      returns (sel: Option<Selection>, poll: Option<string>)
      modifies this
      ensures sel == ChooseUnder(reg, old(cache), faults, group, region)
      ensures var err := LiveErrorOf(outcome);
        cache == if err.None? || faults.blacklistRead || faults.blacklistWrite then old(cache)
                 else Blame(reg, old(cache), sel, Recorded(err.value, kind, at))
      ensures poll == if sel.None? || sel.value.key !in reg.endpoints then None
                      else if LiveErrorOf(outcome).Some? then Some("live_call_error")
                      else if !outcome.Answered? || outcome.abandoned then None
                      else if outcome.totalMs > 3000.0 then Some("slow_live_call")
                      else if sel.value.usingFallback then Some("fallback_recovery")
                      else None
    {
      hide ChooseUnder, GroupOffers, FallbackOffers, Blacklist;
      poll := None;
      sel := GetFastestForGroup(reg, cache, faults, group, region);
      if sel.None? || sel.value.key !in reg.endpoints {
        return;
      }
      var cfg := reg.endpoints[sel.value.key];
      match outcome {
        case BuildFailed(message) => poll := HandleError(cfg.key, 0, message, faults, kind, at);
        case TransportFailed(message, cancelled) =>
          if !cancelled {
            poll := HandleError(cfg.key, 0, message, faults, kind, at);
          }
        case Answered(status, body, totalMs, abandoned) =>
          if status < 200 || status >= 300 {
            poll := HandleError(cfg.key, status, body, faults, kind, at);
          } else if abandoned {
            return;
          } else if totalMs > SLOW_MS {
            poll := Some("slow_live_call");
          } else if sel.value.usingFallback {
            poll := Some("fallback_recovery");
          }
      }
    }

    method HandleError(key: string, status: int, message: string, faults: Faults, kind: string, at: string)
      returns (poll: Option<string>)
      modifies this
      ensures cache == if faults.blacklistRead || faults.blacklistWrite then old(cache)
                       else Blacklist(old(cache), key, Recorded((status, message), kind, at))
      ensures poll == Some("live_call_error")
    {
      var err := LiveError(at, kind, if status != 0 then Some(status) else None, Truncate(message, 1000));
      BlacklistForLiveError(key, err, faults.blacklistRead, faults.blacklistWrite);
      poll := Some("live_call_error");
    }
  }

  // ---- A run of failing turns ----

  /** The cache after a run of turns that all failed with these errors. */
  function AfterFailures(reg: Registry, cache: Cache, group: string, region: string, errs: seq<LiveError>): Cache {
    if errs == [] then cache
    else
      var last := |errs| - 1;
      AfterFailure(reg, AfterFailures(reg, cache, group, region, errs[..last]), group, region, errs[last])
  }

  /** Some endpoint of the group or of its fallback group can still be chosen by its health. */
  predicate Measured(reg: Registry, cache: Cache, group: string, region: string) {
    || Candidates(cache, GroupConfigs(reg, group, region)) != []
    || Candidates(cache, FallbackConfigs(reg, group, region)) != []
  }

  /** A chosen endpoint that was measured is the first of the fastest, in the group or else its fallback. */
  lemma MeasuredChoice(reg: Registry, cache: Cache, group: string, region: string)
    requires Measured(reg, cache, group, region)
    ensures var a, b := GroupConfigs(reg, group, region), FallbackConfigs(reg, group, region);
      var sel := Choose(reg, cache, group, region);
      && sel.Some?
      && (if Candidates(cache, a) != []
          then IsFastest(cache, a, sel.value.key) && Offers(Candidates(cache, a), sel.value.key)
               && !sel.value.usingFallback && sel.value.group == group
          else IsFastest(cache, b, sel.value.key) && Offers(Candidates(cache, b), sel.value.key)
               && sel.value.usingFallback && group in reg.groups
               && sel.value.group == reg.groups[group].fallbackGroup)
  {
    hide Candidates, Fastest, IsFastest, Offers, ConfigsFor;
    FastestIs(cache, GroupConfigs(reg, group, region));
    FastestIs(cache, FallbackConfigs(reg, group, region));
    NothingFastest(cache);
  }

  /** Blacklisting removes an endpoint's candidates and adds none. */
  lemma {:induction false} BlacklistRemoves(cache: Cache, key: string, err: LiveError, configs: seq<Endpoint>)
    ensures var before, after := Candidates(cache, configs), Candidates(Blacklist(cache, key, err), configs);
      && |after| <= |before| && (Offers(before, key) ==> |after| < |before|)
      && !Offers(after, key) && forall c :: c in after ==> c in before
  {
    hide CandidateOf, Blacklist;
    if configs != [] {
      var init, e := configs[..|configs| - 1], configs[|configs| - 1];
      BlacklistRemoves(cache, key, err, init);
      BlacklistOnlyMarks(cache, key, err, e);
      CandidateHasKey(cache, e);
    }
  }

  lemma CandidateHasKey(cache: Cache, e: Endpoint)
    ensures CandidateOf(cache, e).Some? ==> CandidateOf(cache, e).value.key == e.key
  {
  }

  lemma OffersSnoc(cache: Cache, configs: seq<Endpoint>, e: Endpoint, key: string)
    requires Offers(Candidates(cache, configs + [e]), key)
    ensures Offers(Candidates(cache, configs), key) || e.key == key
  {
    hide CandidateOf;
    CandidateHasKey(cache, e);
    assert (configs + [e])[..|configs|] == configs;
  }

  lemma {:induction false} ConfigsRegistered(reg: Registry, cache: Cache, keys: seq<string>, region: string,
      key: string)
    requires reg.Valid() && Offers(Candidates(cache, ConfigsFor(reg, keys, region)), key)
    ensures key in reg.endpoints
  {
    hide Candidates, Offers;
    if keys == [] {
      NothingOffered(cache, key);
      assert false;
    }
    var init, k := keys[..|keys| - 1], keys[|keys| - 1];
    if Fits(reg, region, k) {
      OffersSnoc(cache, ConfigsFor(reg, init, region), reg.endpoints[k], key);
    } else {
      assert ConfigsFor(reg, keys, region) == ConfigsFor(reg, init, region);
    }
    if Offers(Candidates(cache, ConfigsFor(reg, init, region)), key) {
      ConfigsRegistered(reg, cache, init, region, key);
    }
  }

  function Left(reg: Registry, cache: Cache, group: string, region: string): nat {
    |Candidates(cache, GroupConfigs(reg, group, region))| + |Candidates(cache, FallbackConfigs(reg, group, region))|
  }

  predicate OffersIn(reg: Registry, cache: Cache, group: string, region: string, key: string) {
    || Offers(Candidates(cache, GroupConfigs(reg, group, region)), key)
    || Offers(Candidates(cache, FallbackConfigs(reg, group, region)), key)
  }

  /** A failing turn never brings an endpoint back, and takes out the one it chose by its health. */
  lemma FailureRemoves(reg: Registry, cache: Cache, group: string, region: string, err: LiveError, key: string)
    requires reg.Valid()
    ensures var after := AfterFailure(reg, cache, group, region, err);
      && Left(reg, after, group, region) <= Left(reg, cache, group, region)
      && (OffersIn(reg, after, group, region, key) ==> OffersIn(reg, cache, group, region, key))
      && (Measured(reg, cache, group, region) ==>
            && Left(reg, after, group, region) < Left(reg, cache, group, region)
            && Choose(reg, cache, group, region).Some?
            && !OffersIn(reg, after, group, region, Choose(reg, cache, group, region).value.key))
  {
    hide Candidates, Choose, Blacklist, ConfigsFor, IsFastest;
    var a, b := GroupConfigs(reg, group, region), FallbackConfigs(reg, group, region);
    var sel := Choose(reg, cache, group, region);
    if Measured(reg, cache, group, region) {
      MeasuredChoice(reg, cache, group, region);
      ChosenIsRegistered(reg, cache, group, region, sel.value.key);
    }
    if sel.Some? && sel.value.key in reg.endpoints {
      BlacklistRemoves(cache, sel.value.key, err, a);
      BlacklistRemoves(cache, sel.value.key, err, b);
    }
  }

  lemma ChosenIsRegistered(reg: Registry, cache: Cache, group: string, region: string, key: string)
    requires reg.Valid() && OffersIn(reg, cache, group, region, key)
    ensures key in reg.endpoints
  {
    hide ConfigsFor, Candidates, Offers;
    NothingOffered(cache, key);
    if Offers(Candidates(cache, GroupConfigs(reg, group, region)), key) {
      ConfigsRegistered(reg, cache, reg.groups[group].configs, region, key);
    } else {
      ConfigsRegistered(reg, cache, reg.groups[reg.groups[group].fallbackGroup].configs, region, key);
    }
  }

  lemma NothingOffered(cache: Cache, key: string)
    ensures !Offers(Candidates(cache, []), key)
  {
  }

  lemma {:induction false} OnceGoneStaysGone(reg: Registry, cache: Cache, group: string, region: string,
                                             errs: seq<LiveError>, n: nat, key: string)
    requires reg.Valid() && n <= |errs|
    requires OffersIn(reg, AfterFailures(reg, cache, group, region, errs), group, region, key)
    ensures OffersIn(reg, AfterFailures(reg, cache, group, region, errs[..n]), group, region, key)
    decreases |errs|
  {
    hide OffersIn, AfterFailure;
    if n == |errs| {
      assert errs[..n] == errs;
    } else {
      var init := errs[..|errs| - 1];
      FailureRemoves(reg, AfterFailures(reg, cache, group, region, init), group, region, errs[|errs| - 1], key);
      OnceGoneStaysGone(reg, cache, group, region, init, n, key);
      assert init[..n] == errs[..n];
    }
  }

  /**
   * In a run of failing turns, as long as an endpoint is chosen by its health it is a new one:
   * if that is so in the last turn, every earlier turn chose another endpoint, also by its health.
   */
  lemma FailingTurnsTryNewEndpoints(reg: Registry, cache: Cache, group: string, region: string,
      errs: seq<LiveError>, n: nat)
    requires reg.Valid() && n < |errs|
    requires Measured(reg, AfterFailures(reg, cache, group, region, errs), group, region)
    ensures var earlier, now := AfterFailures(reg, cache, group, region, errs[..n]),
        AfterFailures(reg, cache, group, region, errs);
      && Measured(reg, earlier, group, region)
      && Choose(reg, earlier, group, region).Some? && Choose(reg, now, group, region).Some?
      && Choose(reg, earlier, group, region).value.key != Choose(reg, now, group, region).value.key
  {
    hide Candidates, Choose, AfterFailure, IsFastest, Offers, GroupConfigs, FallbackConfigs;
    var earlier, now := AfterFailures(reg, cache, group, region, errs[..n]),
        AfterFailures(reg, cache, group, region, errs);
    MeasuredChoice(reg, now, group, region);
    var key := Choose(reg, now, group, region).value.key;
    assert OffersIn(reg, now, group, region, key);
    OnceGoneStaysGone(reg, cache, group, region, errs, n, key);
    OnceGoneStaysGone(reg, cache, group, region, errs, n + 1, key);
    OfferedIsMeasured(reg, earlier, group, region, key);
    assert errs[..n + 1][..n] == errs[..n];
    FailureRemoves(reg, earlier, group, region, errs[n], key);
  }

  lemma OfferedIsMeasured(reg: Registry, cache: Cache, group: string, region: string, key: string)
    requires OffersIn(reg, cache, group, region, key)
    ensures Measured(reg, cache, group, region)
  {
    hide Candidates, GroupConfigs, FallbackConfigs;
  }

  lemma {:induction false} LeftAfterFailures(reg: Registry, cache: Cache, group: string, region: string,
      errs: seq<LiveError>)
    requires reg.Valid()
    ensures var after := AfterFailures(reg, cache, group, region, errs);
      Measured(reg, after, group, region) ==>
        Left(reg, after, group, region) + |errs| <= Left(reg, cache, group, region)
    decreases |errs|
  {
    hide AfterFailure, Left, Measured, OffersIn, Choose;
    if errs != [] {
      var init := errs[..|errs| - 1];
      var before := AfterFailures(reg, cache, group, region, init);
      LeftAfterFailures(reg, cache, group, region, init);
      FailureRemoves(reg, before, group, region, errs[|errs| - 1], "");
      if Measured(reg, AfterFailures(reg, cache, group, region, errs), group, region) {
        assert init == errs[..|init|];
        FailingTurnsTryNewEndpoints(reg, cache, group, region, errs, |init|);
      }
    }
  }

  lemma {:induction false} FewCandidates(cache: Cache, configs: seq<Endpoint>)
    ensures |Candidates(cache, configs)| <= |configs|
  {
    hide CandidateOf;
    if configs != [] {
      FewCandidates(cache, configs[..|configs| - 1]);
    }
  }

  /** After as many failing turns as both groups have endpoints, the hardcoded fallback is used, for good. */
  lemma FailingTurnsReachFallback(reg: Registry, cache: Cache, group: string, region: string, errs: seq<LiveError>)
    requires reg.Valid()
    requires |errs| >= |GroupConfigs(reg, group, region)| + |FallbackConfigs(reg, group, region)|
    ensures Choose(reg, AfterFailures(reg, cache, group, region, errs), group, region) == Hardcoded(reg, group, region)
  {
    hide Candidates, AfterFailures, GroupConfigs, FallbackConfigs, Hardcoded;
    var a, b := GroupConfigs(reg, group, region), FallbackConfigs(reg, group, region);
    var after := AfterFailures(reg, cache, group, region, errs);
    LeftAfterFailures(reg, cache, group, region, errs);
    FewCandidates(cache, a);
    FewCandidates(cache, b);
    assert !Measured(reg, after, group, region);
    FastestIs(after, a);
    FastestIs(after, b);
  }
}
