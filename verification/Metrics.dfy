/** The in-memory metrics: counters paired with cumulative histograms. */
module Metrics {
  import opened Prelude

  const HTTP_DURATION_BUCKETS: seq<real> := [0.005, 0.01, 0.025, 0.05, 0.1, 0.25, 0.5, 1.0, 2.5, 5.0, 10.0]
  const EXEC_DURATION_BUCKETS: seq<real> := [0.05, 0.1, 0.25, 0.5, 1.0, 2.0, 5.0, 10.0]

  /** One entry of a histogram's bucket map; entries keep the order of the bounds. */
  datatype Bucket = Bucket(le: real, count: nat)

  datatype Hist = Hist(sum: real, count: nat, buckets: seq<Bucket>)

  // ----- What a histogram should say of its samples -----

  function Sum(samples: seq<real>): real {
    if samples == [] then 0.0 else Sum(samples[..|samples| - 1]) + samples[|samples| - 1]
  }

  function AtMost(samples: seq<real>, bound: real): (n: nat)
    ensures n <= |samples|
  {
    if samples == [] then 0
    else AtMost(samples[..|samples| - 1], bound) + (if samples[|samples| - 1] <= bound then 1 else 0)
  }

  function HistOf(samples: seq<real>, bounds: seq<real>): Hist {
    Hist(Sum(samples), |samples|,
         seq(|bounds|, i requires 0 <= i < |bounds| => Bucket(bounds[i], AtMost(samples, bounds[i]))))
  }

  predicate Increasing(bounds: seq<real>) {
    forall i :: 0 < i < |bounds| ==> bounds[i - 1] < bounds[i]
  }

  lemma {:induction false} AtMostGrows(samples: seq<real>, low: real, high: real)
    requires low <= high
    ensures AtMost(samples, low) <= AtMost(samples, high)
  {
    if samples == [] {
    } else {
      AtMostGrows(samples[..|samples| - 1], low, high);
    }
  }

  /** The lines of one histogram: its buckets, then `+Inf` with the count. */
  function Exported(h: Hist): seq<(Option<real>, nat)> {
    seq(|h.buckets|, i requires 0 <= i < |h.buckets| => (Some(h.buckets[i].le), h.buckets[i].count))
    + [(None, h.count)]
  }

  /** What the section "Histograms and summaries" of the Prometheus text format asks of
      the lines of a histogram. */
  predicate WellFormedExport(lines: seq<(Option<real>, nat)>, count: nat) {
    && lines != []
    && (forall i :: 0 <= i < |lines| - 1 ==> lines[i].0.Some?)
    && lines[|lines| - 1] == (None, count)
    && (forall i :: 0 < i < |lines| - 1 ==> lines[i - 1].0.value < lines[i].0.value)
    && (forall i :: 0 < i < |lines| ==> lines[i - 1].1 <= lines[i].1)
  }

  /** Buckets are exported in increasing order, are cumulative and end with the count,
      and each holds the number of samples at or below its bound. */
  lemma ExportIsCumulative(samples: seq<real>, bounds: seq<real>)
    requires Increasing(bounds)
    ensures var lines := Exported(HistOf(samples, bounds));
            && WellFormedExport(lines, |samples|)
            && |lines| == |bounds| + 1
            && forall i :: 0 <= i < |bounds| ==> lines[i] == (Some(bounds[i]), AtMost(samples, bounds[i]))
  {
    forall i | 0 < i < |bounds| ensures AtMost(samples, bounds[i - 1]) <= AtMost(samples, bounds[i]) {
      AtMostGrows(samples, bounds[i - 1], bounds[i]);
    }
  }

  // ----- Logs, and the maps they should lead to -----

  /** One recorded observation: which series, which label within it, how long. */
  datatype Sample = Sample(series: string, tag: string, seconds: real)

  function Key(series: string, tag: string): string {
    series + "|" + tag
  }

  function Bump<K>(m: map<K, nat>, key: K): map<K, nat> {
    m[key := (if key in m then m[key] else 0) + 1]
  }

  function Totals(log: seq<Sample>): map<string, nat> {
    if log == [] then map[]
    else
      var last := log[|log| - 1];
      Bump(Totals(log[..|log| - 1]), Key(last.series, last.tag))
  }

  function SamplesOf(log: seq<Sample>, series: string): seq<real> {
    if log == [] then []
    else
      var last := log[|log| - 1];
      SamplesOf(log[..|log| - 1], series) + (if last.series == series then [last.seconds] else [])
  }

  predicate HistsMatch(hists: map<string, Hist>, log: seq<Sample>, bounds: seq<real>) {
    && (forall s :: s in hists ==> hists[s] == HistOf(SamplesOf(log, s), bounds))
    && (forall i :: 0 <= i < |log| ==> log[i].series in hists)
  }

  /** Counters and histograms of one kind of observation, and the log they sum up. */
  predicate Paired(totals: map<string, nat>, hists: map<string, Hist>, log: seq<Sample>, bounds: seq<real>) {
    CleanLabels(log) && totals == Totals(log) && HistsMatch(hists, log, bounds)
  }

  // ----- Conservation -----

  /** The series a key belongs to: all before its last bar. */
  function SeriesOf(key: string): string {
    if key == "" then ""
    else if key[|key| - 1] == '|' then key[..|key| - 1]
    else SeriesOf(key[..|key| - 1])
  }

  lemma {:induction false} SeriesOfKey(series: string, tag: string)
    requires '|' !in tag
    ensures SeriesOf(Key(series, tag)) == series
    decreases |tag|
  {
    var key := Key(series, tag);
    if tag == "" {
      assert key[..|key| - 1] == series;
    } else {
      var init := tag[..|tag| - 1];
      assert key[..|key| - 1] == Key(series, init);
      assert tag[|tag| - 1] in tag;
      SeriesOfKey(series, init);
    }
  }

  /** The sum of the counters whose keys are in `keys`. */
  ghost function SumOver<K>(m: map<K, nat>, keys: set<K>): nat
    requires keys <= m.Keys
  {
    if keys == {} then 0
    else
      var k :| k in keys;
      m[k] + SumOver(m, keys - {k})
  }

  lemma {:induction false} SumOverPick<K>(m: map<K, nat>, keys: set<K>, k: K)
    requires keys <= m.Keys && k in keys
    ensures SumOver(m, keys) == m[k] + SumOver(m, keys - {k})
    decreases |keys|
  {
    var c :| c in keys && SumOver(m, keys) == m[c] + SumOver(m, keys - {c});
    if c != k {
      SumOverPick(m, keys - {c}, k);
      SumOverPick(m, keys - {k}, c);
      assert keys - {c} - {k} == keys - {k} - {c};
    }
  }

  lemma {:induction false} SumOverAgrees<K>(m: map<K, nat>, n: map<K, nat>, keys: set<K>)
    requires keys <= m.Keys && keys <= n.Keys
    requires forall k :: k in keys ==> m[k] == n[k]
    ensures SumOver(m, keys) == SumOver(n, keys)
    decreases |keys|
  {
    if keys == {} {
    } else {
      var k :| k in keys;
      SumOverPick(m, keys, k);
      SumOverPick(n, keys, k);
      SumOverAgrees(m, n, keys - {k});
    }
  }

  lemma SumOverBump<K>(m: map<K, nat>, keys: set<K>, k: K)
    requires keys <= m.Keys + {k} && k in keys
    requires k in m ==> k in keys
    ensures SumOver(Bump(m, k), keys) == SumOver(m, keys * m.Keys) + 1
  {
    var n := Bump(m, k);
    SumOverPick(n, keys, k);
    SumOverAgrees(m, n, keys - {k});
    if k in m {
      assert keys * m.Keys == keys;
      SumOverPick(m, keys, k);
    } else {
      assert keys * m.Keys == keys - {k};
    }
  }

  function KeysOf(m: map<string, nat>, series: string): set<string> {
    set k | k in m && SeriesOf(k) == series
  }

  /** The total of a series, summed over its labels. */
  ghost function SeriesTotal(m: map<string, nat>, series: string): nat {
    SumOver(m, KeysOf(m, series))
  }

  lemma BumpSeriesTotal(m: map<string, nat>, k: string, series: string)
    ensures SeriesTotal(Bump(m, k), series) == SeriesTotal(m, series) + (if SeriesOf(k) == series then 1 else 0)
  {
    var n := Bump(m, k);
    if SeriesOf(k) == series {
      assert KeysOf(n, series) == KeysOf(m, series) + {k};
      SumOverBump(m, KeysOf(n, series), k);
      assert KeysOf(n, series) * m.Keys == KeysOf(m, series);
    } else {
      assert KeysOf(n, series) == KeysOf(m, series);
      SumOverAgrees(m, n, KeysOf(m, series));
    }
  }

  predicate CleanLabels(log: seq<Sample>) {
    forall i :: 0 <= i < |log| ==> '|' !in log[i].tag
  }

  /** Per series, the counters summed over their labels equal the histogram's count. */
  lemma {:induction false} TotalsMatchSamples(log: seq<Sample>, series: string)
    requires CleanLabels(log)
    ensures SeriesTotal(Totals(log), series) == |SamplesOf(log, series)|
  {
    if log == [] {
      assert KeysOf(Totals(log), series) == {};
    } else {
      var init, last := log[..|log| - 1], log[|log| - 1];
      TotalsMatchSamples(init, series);
      SeriesOfKey(last.series, last.tag);
      BumpSeriesTotal(Totals(init), Key(last.series, last.tag), series);
    }
  }

  lemma {:induction false} SamplesOfAbsent(log: seq<Sample>, series: string)
    requires forall i :: 0 <= i < |log| ==> log[i].series != series
    ensures SamplesOf(log, series) == []
  {
    if log == [] {
    } else {
      SamplesOfAbsent(log[..|log| - 1], series);
    }
  }

  lemma CountersMatchHistogram(log: seq<Sample>, hists: map<string, Hist>, bounds: seq<real>, series: string)
    requires CleanLabels(log) && HistsMatch(hists, log, bounds)
    ensures SeriesTotal(Totals(log), series) == if series in hists then hists[series].count else 0
  {
    TotalsMatchSamples(log, series);
    if series !in hists {
      SamplesOfAbsent(log, series);
    }
  }

  // ----- Keys in the exposition -----

  function UpToBar(s: string): string {
    if s == "" || s[0] == '|' then "" else [s[0]] + UpToBar(s[1..])
  }

  function AfterBar(s: string): string {
    if s == "" then "" else if s[0] == '|' then s[1..] else AfterBar(s[1..])
  }

  /** `key.split('|')`, its first three components: the labels of a request counter. */
  function CounterLabels(key: string): (string, string, string) {
    (UpToBar(key), UpToBar(AfterBar(key)), UpToBar(AfterBar(AfterBar(key))))
  }

  /** Its first two: the labels of a request histogram. */
  function HistLabels(key: string): (string, string) {
    (UpToBar(key), UpToBar(AfterBar(key)))
  }

  function RequestKey(httpMethod: string, route: string): string {
    httpMethod + "|" + route
  }

  lemma {:induction false} UpToBarOfJoin(s: string, rest: string)
    ensures UpToBar(s + "|" + rest) == UpToBar(s)
    ensures UpToBar(s) == s <==> '|' !in s
    ensures '|' !in s ==> AfterBar(s + "|" + rest) == rest
  {
    if s == "" {
      assert s + "|" + rest == "|" + rest;
      assert ("|" + rest)[1..] == rest;
    } else {
      assert (s + "|" + rest)[1..] == s[1..] + "|" + rest;
      assert s == [s[0]] + s[1..];
      assert '|' in s <==> s[0] == '|' || '|' in s[1..];
      UpToBarOfJoin(s[1..], rest);
      if s[0] == '|' {
        assert UpToBar(s) == "" && |s| > 0;
      }
    }
  }

  /** The labels of an exported request counter are what was recorded exactly when the
      route has no bar in it. */
  lemma LabelsSurviveIffNoBar(httpMethod: string, route: string, status: string)
    requires '|' !in httpMethod && '|' !in status
    ensures CounterLabels(Key(RequestKey(httpMethod, route), status)) == (httpMethod, route, status)
            <==> '|' !in route
  {
    var rest := route + "|" + status;
    assert Key(RequestKey(httpMethod, route), status) == httpMethod + "|" + rest;
    UpToBarOfJoin(httpMethod, rest);
    UpToBarOfJoin(route, status);
    UpToBarOfJoin(status, "");
  }

  lemma LabelsOfRequest(httpMethod: string, route: string)
    requires '|' !in httpMethod
    ensures HistLabels(RequestKey(httpMethod, route)) == (httpMethod, UpToBar(route))
  {
    UpToBarOfJoin(httpMethod, route);
  }

  /** Two request histograms are exported under the same labels exactly when they have
      the same method and routes that agree up to their first bar; so series without bars
      in their routes are never mixed up. */
  lemma SameLabelsIff(method1: string, route1: string, method2: string, route2: string)
    requires '|' !in method1 && '|' !in method2
    ensures HistLabels(RequestKey(method1, route1)) == HistLabels(RequestKey(method2, route2))
            <==> method1 == method2 && UpToBar(route1) == UpToBar(route2)
    ensures '|' !in route1 && '|' !in route2
            && HistLabels(RequestKey(method1, route1)) == HistLabels(RequestKey(method2, route2)) ==>
              method1 == method2 && route1 == route2
  {
    LabelsOfRequest(method1, route1);
    LabelsOfRequest(method2, route2);
    UpToBarOfJoin(route1, "");
    UpToBarOfJoin(route2, "");
  }

  /** A key whose route has no bar in it. */
  predicate OneBar(key: string) {
    '|' in key && '|' !in AfterBar(key)
  }

  lemma {:induction false} SplitAtBar(key: string)
    requires '|' in key
    ensures key == UpToBar(key) + "|" + AfterBar(key)
  {
    if key[0] == '|' {
    } else {
      assert key == [key[0]] + key[1..];
      SplitAtBar(key[1..]);
      assert key == [key[0]] + (UpToBar(key[1..]) + "|" + AfterBar(key));
    }
  }

  lemma LabelsTellKeysApart(key: string, other: string)
    requires OneBar(key) && OneBar(other) && key != other
    ensures HistLabels(key) != HistLabels(other)
  {
    SplitAtBar(key);
    SplitAtBar(other);
    UpToBarOfJoin(AfterBar(key), "");
    UpToBarOfJoin(AfterBar(other), "");
  }

  // ----- The service, in place -----

  function NameOf(v: Verdict): string {
    match v
    case Pending => "PENDING"
    case Accepted => "ACCEPTED"
    case WrongAnswer => "WRONG_ANSWER"
    case CompilationError => "COMPILATION_ERROR"
    case RuntimeError => "RUNTIME_ERROR"
    case TimeLimitExceeded => "TIME_LIMIT_EXCEEDED"
    case MemoryLimitExceeded => "MEMORY_LIMIT_EXCEEDED"
    case OutputLimitExceeded => "OUTPUT_LIMIT_EXCEEDED"
  }

  /** The verdicts as the counters are labelled. */
  lemma NamesOfVerdicts()
    ensures NameOf(Accepted) == "ACCEPTED" && NameOf(WrongAnswer) == "WRONG_ANSWER"
    ensures NameOf(TimeLimitExceeded) == "TIME_LIMIT_EXCEEDED" && NameOf(MemoryLimitExceeded) == "MEMORY_LIMIT_EXCEEDED"
    ensures NameOf(RuntimeError) == "RUNTIME_ERROR" && NameOf(CompilationError) == "COMPILATION_ERROR"
  {
  }

  lemma NamesAreClean(v: Verdict)
    ensures '|' !in NameOf(v)
  {
  }

  lemma OtherNames(v: Verdict)
    requires v != CompilationError
    ensures NameOf(v) != NameOf(CompilationError)
  {
    assert |NameOf(v)| != |NameOf(CompilationError)|;
  }

  // ----- Letter case and numbers -----

  /** `toLowerCase` on ASCII letters. */
  function Lower(s: string): string {
    seq(|s|, i requires 0 <= i < |s| => if 'A' <= s[i] <= 'Z' then ((s[i] as int) + 32) as char else s[i])
  }

  /** `toUpperCase` on ASCII letters. */
  function Upper(s: string): string {
    seq(|s|, i requires 0 <= i < |s| => if 'a' <= s[i] <= 'z' then ((s[i] as int) - 32) as char else s[i])
  }

  function LanguageKey(language: string): string {
    Lower(if language == "" then "unknown" else language)
  }

  function Decimal(n: nat): (digits: string)
    ensures '|' !in digits
  {
    var last := ['0' + (n % 10) as char];
    if n < 10 then last else Decimal(n / 10) + last
  }

  /** The 26 letters change their case, and nothing else changes. */
  lemma CaseMeans(s: string, i: nat)
    requires i < |s|
    ensures |Lower(s)| == |Upper(s)| == |s|
    ensures forall j :: 0 <= j < 26 && s[i] == "ABCDEFGHIJKLMNOPQRSTUVWXYZ"[j] ==>
              Lower(s)[i] == "abcdefghijklmnopqrstuvwxyz"[j] && Upper(s)[i] == s[i]
    ensures forall j :: 0 <= j < 26 && s[i] == "abcdefghijklmnopqrstuvwxyz"[j] ==>
              Upper(s)[i] == "ABCDEFGHIJKLMNOPQRSTUVWXYZ"[j] && Lower(s)[i] == s[i]
    ensures s[i] !in "ABCDEFGHIJKLMNOPQRSTUVWXYZ" && s[i] !in "abcdefghijklmnopqrstuvwxyz" ==>
              Lower(s)[i] == Upper(s)[i] == s[i]
  {
    LettersInOrder();
  }

  lemma LettersInOrder()
    ensures forall j :: 0 <= j < 26 ==>
              && "ABCDEFGHIJKLMNOPQRSTUVWXYZ"[j] as int == 'A' as int + j
              && "abcdefghijklmnopqrstuvwxyz"[j] as int == 'a' as int + j
  {
  }

  predicate AllDigits(s: string) {
    forall i :: 0 <= i < |s| ==> '0' <= s[i] <= '9'
  }

  /** The number that a string of digits stands for. */
  function ValueOf(digits: string): nat
    requires AllDigits(digits)
  {
    if digits == "" then 0
    else 10 * ValueOf(digits[..|digits| - 1]) + (digits[|digits| - 1] as int - '0' as int)
  }

  /** `digits` stands for `n`, without a leading zero. */
  predicate Denotes(digits: string, n: nat) {
    digits != "" && AllDigits(digits) && ValueOf(digits) == n && (n > 0 ==> digits[0] != '0')
  }

  lemma DenotesDigit(d: nat)
    requires d < 10
    ensures Denotes(['0' + d as char], d)
  {
    assert ['0' + d as char][..0] == "";
  }

  lemma DenotesSnoc(digits: string, n: nat, d: nat)
    requires Denotes(digits, n) && n > 0 && d < 10
    ensures Denotes(digits + ['0' + d as char], 10 * n + d)
  {
    var more := digits + ['0' + d as char];
    assert more[..|digits|] == digits;
  }

  /** A number is written in digits that stand for it, without a leading zero. */
  lemma {:induction false} DecimalMeans(n: nat)
    ensures Denotes(Decimal(n), n)
  {
    if n < 10 {
      DenotesDigit(n);
    } else {
      DecimalMeans(n / 10);
      DenotesSnoc(Decimal(n / 10), n / 10, n % 10);
    }
  }

  lemma LogSnoc(log: seq<Sample>, s: Sample, series: string)
    ensures Totals(log + [s]) == Bump(Totals(log), Key(s.series, s.tag))
    ensures SamplesOf(log + [s], series)
              == SamplesOf(log, series) + (if s.series == series then [s.seconds] else [])
  {
    assert (log + [s])[..|log|] == log;
  }

  lemma HistOfSnoc(samples: seq<real>, value: real, bounds: seq<real>)
    ensures HistOf(samples + [value], bounds).sum == Sum(samples) + value
    ensures HistOf(samples + [value], bounds).count == |samples| + 1
    ensures forall i :: 0 <= i < |bounds| ==>
      HistOf(samples + [value], bounds).buckets[i]
      == Bucket(bounds[i], AtMost(samples, bounds[i]) + (if value <= bounds[i] then 1 else 0))
  {
    assert (samples + [value])[..|samples|] == samples;
  }

  /** `recordHistogramSample` on the histogram of one key, where `samples` are the values
      recorded under it so far. */
  method RecordHistogramSample(hists: map<string, Hist>, key: string, value: real, bounds: seq<real>,
                               ghost samples: seq<real>)
      returns (hists': map<string, Hist>)
    requires if key in hists then hists[key] == HistOf(samples, bounds) else samples == []
    ensures hists' == hists[key := HistOf(samples + [value], bounds)]
  {
    var hist: Hist;
    if key in hists {
      hist := hists[key];
    } else {
      hist := Hist(0.0, 0, seq(|bounds|, i requires 0 <= i < |bounds| => Bucket(bounds[i], 0)));
    }
    assert hist == HistOf(samples, bounds);
    hist := hist.(sum := hist.sum + value, count := hist.count + 1);
    var buckets := hist.buckets;
    for i := 0 to |bounds|
      invariant |buckets| == |bounds|
      invariant forall j :: 0 <= j < |bounds| ==>
        buckets[j] == Bucket(bounds[j], AtMost(samples, bounds[j]) + (if j < i && value <= bounds[j] then 1 else 0))
    {
      if value <= bounds[i] {
        buckets := buckets[i := buckets[i].(count := buckets[i].count + 1)];
      }
    }
    hist := hist.(buckets := buckets);
    HistOfSnoc(samples, value, bounds);
    assert hist.buckets == HistOf(samples + [value], bounds).buckets;
    hists' := hists[key := hist];
  }

  lemma HistsMatchSnoc(hists: map<string, Hist>, hists': map<string, Hist>, log: seq<Sample>, s: Sample,
                       bounds: seq<real>)
    requires HistsMatch(hists, log, bounds)
    requires hists' == hists[s.series := HistOf(SamplesOf(log, s.series) + [s.seconds], bounds)]
    ensures HistsMatch(hists', log + [s], bounds)
  {
    forall series | series in hists' ensures hists'[series] == HistOf(SamplesOf(log + [s], series), bounds) {
      LogSnoc(log, s, series);
      assert SamplesOf(log, series) + [] == SamplesOf(log, series);
    }
    forall i | 0 <= i < |log + [s]| ensures (log + [s])[i].series in hists' {
      if i < |log| {
        assert log[i].series in hists;
      }
    }
  }

  /** The counter under `key` is one higher, and no other one has changed. */
  predicate OneMore<K>(m: map<K, nat>, m': map<K, nat>, key: K) {
    m' == m[key := (if key in m then m[key] else 0) + 1]
  }

  /** One more sample, of `durationMs` milliseconds: it adds to the count, to the sum in
      seconds, and to exactly the buckets whose bound is not below it. */
  predicate Grows(h: Hist, h': Hist, durationMs: real, bounds: seq<real>) {
    && h'.count == h.count + 1
    && h'.sum == h.sum + durationMs / 1000.0
    && |h'.buckets| == |h.buckets| == |bounds|
    && forall i :: 0 <= i < |bounds| ==>
         && h'.buckets[i].le == bounds[i]
         && h'.buckets[i].count == h.buckets[i].count + (if durationMs <= 1000.0 * bounds[i] then 1 else 0)
  }

  /** The histogram under `key`, or a new one. */
  function HistAt(hists: map<string, Hist>, key: string, bounds: seq<real>): Hist {
    if key in hists then hists[key]
    else Hist(0.0, 0, seq(|bounds|, i requires 0 <= i < |bounds| => Bucket(bounds[i], 0)))
  }

  /** The histogram under `key` has one more sample, and no other one has changed. */
  predicate OneMoreSample(hists: map<string, Hist>, hists': map<string, Hist>, key: string, durationMs: real,
                          bounds: seq<real>)
  {
    && key in hists' && hists' == hists[key := hists'[key]]
    && Grows(HistAt(hists, key, bounds), hists'[key], durationMs, bounds)
  }

  lemma HistGrows(h: Hist, durationMs: real, bounds: seq<real>, samples: seq<real>)
    requires h == HistOf(samples, bounds)
    ensures Grows(h, HistOf(samples + [durationMs / 1000.0], bounds), durationMs, bounds)
  {
    HistOfSnoc(samples, durationMs / 1000.0, bounds);
  }

  lemma NewHist(bounds: seq<real>)
    ensures Hist(0.0, 0, seq(|bounds|, i requires 0 <= i < |bounds| => Bucket(bounds[i], 0))) == HistOf([], bounds)
  {
  }

  lemma SampleIsOneMore(hists: map<string, Hist>, hists': map<string, Hist>, key: string, durationMs: real,
                        bounds: seq<real>, samples: seq<real>)
    requires if key in hists then hists[key] == HistOf(samples, bounds) else samples == []
    requires hists' == hists[key := HistOf(samples + [durationMs / 1000.0], bounds)]
    ensures OneMoreSample(hists, hists', key, durationMs, bounds)
  {
    NewHist(bounds);
    HistGrows(HistAt(hists, key, bounds), durationMs, bounds, samples);
  }

  /** `recordHistogramSample` for one key of a map that matches a log. */
  method RecordSample(hists: map<string, Hist>, bounds: seq<real>, s: Sample, durationMs: real, ghost log: seq<Sample>)
      returns (hists': map<string, Hist>)
    requires HistsMatch(hists, log, bounds) && s.seconds == durationMs / 1000.0
    ensures HistsMatch(hists', log + [s], bounds)
    ensures OneMoreSample(hists, hists', s.series, durationMs, bounds)
  {
    if s.series !in hists {
      SamplesOfAbsent(log, s.series);
    }
    ghost var samples := SamplesOf(log, s.series);
    hists' := RecordHistogramSample(hists, s.series, s.seconds, bounds, samples);
    SampleIsOneMore(hists, hists', s.series, durationMs, bounds, samples);
    HistsMatchSnoc(hists, hists', log, s, bounds);
  }

  /** `recordHistogramSample` and the bump of the counter, together. */
  method RecordPair(totals: map<string, nat>, hists: map<string, Hist>, bounds: seq<real>, s: Sample,
                    durationMs: real, ghost log: seq<Sample>)
      returns (totals': map<string, nat>, hists': map<string, Hist>)
    requires Paired(totals, hists, log, bounds) && '|' !in s.tag && s.seconds == durationMs / 1000.0
    ensures Paired(totals', hists', log + [s], bounds)
    ensures OneMore(totals, totals', Key(s.series, s.tag))
    ensures OneMoreSample(hists, hists', s.series, durationMs, bounds)
  {
    LogSnoc(log, s, s.series);
    totals' := Bump(totals, Key(s.series, s.tag));
    hists' := RecordSample(hists, bounds, s, durationMs, log);
  }

  /** One submission recorded with its verdict. */
  datatype Evaluation = Evaluation(language: string, verdict: Verdict, durationMs: real)

  /** The observation that it makes. */
  function EvaluationSample(e: Evaluation): (s: Sample)
    ensures '|' !in s.tag
  {
    NamesAreClean(e.verdict);
    Sample(LanguageKey(e.language), NameOf(e.verdict), e.durationMs / 1000.0)
  }

  function EvaluationSamples(log: seq<Evaluation>): (samples: seq<Sample>)
    ensures |samples| == |log|
  {
    seq(|log|, i requires 0 <= i < |log| => EvaluationSample(log[i]))
  }

  predicate NoCompilationErrors(log: seq<Evaluation>) {
    forall i :: 0 <= i < |log| ==> log[i].verdict != CompilationError
  }

  /** Counters and histograms of the recorded submissions; none is a compilation error. */
  predicate Evaluated(totals: map<string, nat>, hists: map<string, Hist>, log: seq<Evaluation>) {
    Paired(totals, hists, EvaluationSamples(log), EXEC_DURATION_BUCKETS) && NoCompilationErrors(log)
  }

  /** `recordSubmissionVerdict` and `recordExecutionDuration` */
  method RecordEvaluation(totals: map<string, nat>, hists: map<string, Hist>, series: string, tag: string,
                          e: Evaluation, ghost log: seq<Evaluation>)
      returns (totals': map<string, nat>, hists': map<string, Hist>)
    requires Evaluated(totals, hists, log) && e.verdict != CompilationError
    requires EvaluationSample(e) == Sample(series, tag, e.durationMs / 1000.0)
    ensures Evaluated(totals', hists', log + [e])
    ensures OneMore(totals, totals', Key(series, tag))
    ensures OneMoreSample(hists, hists', series, e.durationMs, EXEC_DURATION_BUCKETS)
  {
    var s := Sample(series, tag, e.durationMs / 1000.0);
    assert EvaluationSamples(log + [e]) == EvaluationSamples(log) + [s];
    totals', hists' := RecordPair(totals, hists, EXEC_DURATION_BUCKETS, s, e.durationMs, EvaluationSamples(log));
  }

  /** The two job statuses and the two failure types that the worker records. */
  datatype JobStatus = JobCompleted | JobFailed
  datatype FailureType = DomainFailure | InfrastructureFailure

  /** Jobs completed, and failures by type against jobs failed. */
  ghost predicate JobsAddUp(jobs: map<JobStatus, nat>, failures: map<FailureType, nat>, completed: nat) {
    && Get(jobs, JobCompleted) == completed
    && SumOver(failures, failures.Keys) == Get(jobs, JobFailed)
  }

  lemma OneMoreCompleted(jobs: map<JobStatus, nat>, jobs': map<JobStatus, nat>, failures: map<FailureType, nat>,
                         completed: nat)
    requires JobsAddUp(jobs, failures, completed) && OneMore(jobs, jobs', JobCompleted)
    ensures JobsAddUp(jobs', failures, completed + 1)
  {
  }

  lemma BumpGrandTotal<K>(m: map<K, nat>, k: K)
    ensures SumOver(Bump(m, k), Bump(m, k).Keys) == SumOver(m, m.Keys) + 1
  {
    assert Bump(m, k).Keys == m.Keys + {k};
    SumOverBump(m, m.Keys + {k}, k);
    assert (m.Keys + {k}) * m.Keys == m.Keys;
  }

  lemma {:induction false} TotalsKeys(log: seq<Sample>, key: string)
    requires key in Totals(log)
    ensures exists i :: 0 <= i < |log| && key == Key(log[i].series, log[i].tag)
  {
    var n := |log| - 1;
    if key != Key(log[n].series, log[n].tag) {
      TotalsKeys(log[..n], key);
      var i :| 0 <= i < n && key == Key(log[..n][i].series, log[..n][i].tag);
      assert key == Key(log[i].series, log[i].tag);
    }
  }

  lemma {:induction false} KeyIsInjective(series: string, tag: string, series': string, tag': string)
    requires '|' !in tag && '|' !in tag'
    requires Key(series, tag) == Key(series', tag')
    ensures series == series' && tag == tag'
  {
    SeriesOfKey(series, tag);
    SeriesOfKey(series', tag');
    assert Key(series, tag)[|series| + 1..] == tag;
    assert Key(series', tag')[|series'| + 1..] == tag';
  }

  lemma AbsentTag(log: seq<Sample>, series: string, tag: string)
    requires CleanLabels(log) && '|' !in tag
    requires forall i :: 0 <= i < |log| ==> log[i].tag != tag
    ensures Key(series, tag) !in Totals(log)
  {
    var key := Key(series, tag);
    if key in Totals(log) {
      TotalsKeys(log, key);
      var i :| 0 <= i < |log| && key == Key(log[i].series, log[i].tag);
      KeyIsInjective(series, tag, log[i].series, log[i].tag);
      assert false;
    }
  }

  class MetricsService {
    var httpRequestsTotal: map<string, nat>
    var httpRequestDurationHistograms: map<string, Hist>
    var submissionsTotal: map<string, nat>
    var executionDurationHistograms: map<string, Hist>
    var workerJobsTotal: map<JobStatus, nat>
    var workerFailuresTotal: map<FailureType, nat>
    /** The requests and the judged submissions recorded so far. */
    ghost var httpLog: seq<Sample>
    ghost var judgedLog: seq<Evaluation>
    /** How many jobs completed without a submission to record. */
    ghost var unrecorded: nat
    /** `normalizeRoute` */
    const normalize: string -> string

    ghost predicate HttpOk()
      reads this`httpRequestsTotal, this`httpRequestDurationHistograms, this`httpLog
    {
      Paired(httpRequestsTotal, httpRequestDurationHistograms, httpLog, HTTP_DURATION_BUCKETS)
    }

    ghost predicate JudgedOk()
      reads this`submissionsTotal, this`executionDurationHistograms, this`judgedLog
    {
      Evaluated(submissionsTotal, executionDurationHistograms, judgedLog)
    }

    ghost predicate JobsOk()
      reads this`workerJobsTotal, this`workerFailuresTotal, this`judgedLog, this`unrecorded
    {
      JobsAddUp(workerJobsTotal, workerFailuresTotal, |judgedLog| + unrecorded)
    }

    /** Each recorder touches some of the three parts, and keeps those; its frame leaves
        the others as they were. */
    ghost predicate Valid()
      reads this
    {
      HttpOk() && JudgedOk() && JobsOk()
    }

    constructor (normalize: string -> string)
      ensures Valid() && httpLog == [] && judgedLog == [] && unrecorded == 0
      ensures this.normalize == normalize
    {
      this.normalize := normalize;
      httpRequestsTotal, submissionsTotal, workerJobsTotal, workerFailuresTotal := map[], map[], map[], map[];
      httpRequestDurationHistograms, executionDurationHistograms := map[], map[];
      httpLog, judgedLog, unrecorded := [], [], 0;
    }

    /** `recordHttpRequest` */
    method RecordHttpRequest(httpMethod: string, route: string, statusCode: nat, durationMs: real)
      requires HttpOk()
      modifies this`httpRequestsTotal, this`httpRequestDurationHistograms, this`httpLog
      ensures HttpOk()
      ensures OneMore(old(httpRequestsTotal), httpRequestsTotal,
                      Key(Upper(httpMethod) + "|" + normalize(route), Decimal(statusCode)))
      ensures OneMoreSample(old(httpRequestDurationHistograms), httpRequestDurationHistograms,
                            Upper(httpMethod) + "|" + normalize(route), durationMs, HTTP_DURATION_BUCKETS)
    {
      var normRoute := normalize(route);
      var statusGroup := Decimal(statusCode);
      var durationKey := Upper(httpMethod) + "|" + normRoute;
      var s := Sample(durationKey, statusGroup, durationMs / 1000.0);
      var totals, hists := RecordPair(httpRequestsTotal, httpRequestDurationHistograms, HTTP_DURATION_BUCKETS,
                                      s, durationMs, httpLog);
      httpRequestsTotal, httpRequestDurationHistograms, httpLog := totals, hists, httpLog + [s];
    }

    /** `recordWorkerJob` */
    method RecordWorkerJob(status: JobStatus)
      modifies this`workerJobsTotal
      ensures OneMore(old(workerJobsTotal), workerJobsTotal, status)
    {
      workerJobsTotal := Bump(workerJobsTotal, status);
    }

    /** `recordWorkerFailure` */
    method RecordWorkerFailure(kind: FailureType)
      modifies this`workerFailuresTotal
      ensures OneMore(old(workerFailuresTotal), workerFailuresTotal, kind)
    {
      workerFailuresTotal := Bump(workerFailuresTotal, kind);
    }

    /** `recordSubmissionVerdict` and `recordExecutionDuration`, as the worker calls them.
        Like the two before, it leaves it to its caller to keep jobs and submissions in step. */
    method RecordSubmission(language: string, verdict: Verdict, durationMs: real)
      requires JudgedOk() && verdict != CompilationError
      modifies this`submissionsTotal, this`executionDurationHistograms, this`judgedLog
      ensures JudgedOk() && judgedLog == old(judgedLog) + [Evaluation(language, verdict, durationMs)]
      ensures OneMore(old(submissionsTotal), submissionsTotal, Key(LanguageKey(language), NameOf(verdict)))
      ensures OneMoreSample(old(executionDurationHistograms), executionDurationHistograms,
                            LanguageKey(language), durationMs, EXEC_DURATION_BUCKETS)
    {
      var series, tag := LanguageKey(language), NameOf(verdict);
      var e := Evaluation(language, verdict, durationMs);
      ghost var log := judgedLog + [e];
      var totals, hists := RecordEvaluation(submissionsTotal, executionDurationHistograms, series, tag, e, judgedLog);
      submissionsTotal, executionDurationHistograms, judgedLog := totals, hists, log;
    }

    /** What the worker records when a job completes: `returned` is the verdict of the
        submission that `executeSubmission` returned, if it returned one, which it does
        for every verdict but COMPILATION_ERROR. */
    method RecordCompleted(language: string, returned: Option<Verdict>, durationMs: real)
      requires JudgedOk() && JobsOk()
      requires returned != Some(CompilationError)
      modifies this`submissionsTotal, this`executionDurationHistograms, this`workerJobsTotal
      modifies this`judgedLog, this`unrecorded
      ensures JudgedOk() && JobsOk()
      ensures OneMore(old(workerJobsTotal), workerJobsTotal, JobCompleted)
      ensures judgedLog == if returned.None? then old(judgedLog)
                           else old(judgedLog) + [Evaluation(language, returned.value, durationMs)]
      ensures returned.None? ==>
                && submissionsTotal == old(submissionsTotal)
                && executionDurationHistograms == old(executionDurationHistograms)
      ensures returned.Some? ==>
                && OneMore(old(submissionsTotal), submissionsTotal,
                           Key(LanguageKey(language), NameOf(returned.value)))
                && OneMoreSample(old(executionDurationHistograms), executionDurationHistograms,
                                 LanguageKey(language), durationMs, EXEC_DURATION_BUCKETS)
    {
      RecordWorkerJob(JobCompleted);
      OneMoreCompleted(old(workerJobsTotal), workerJobsTotal, workerFailuresTotal, |judgedLog| + unrecorded);
      if returned.Some? {
        RecordSubmission(language, returned.value, durationMs);
      } else {
        unrecorded := unrecorded + 1;
      }
    }

    /** What the worker records when a job fails. */
    method RecordFailed(fault: Fault)
      requires JobsOk()
      modifies this`workerJobsTotal, this`workerFailuresTotal
      ensures JobsOk()
      ensures OneMore(old(workerFailuresTotal), workerFailuresTotal,
                      if fault == NonRetryable then DomainFailure else InfrastructureFailure)
      ensures OneMore(old(workerJobsTotal), workerJobsTotal, JobFailed)
    {
      RecordWorkerJob(JobFailed);
      var kind := if fault == NonRetryable then DomainFailure else InfrastructureFailure;
      BumpGrandTotal(workerFailuresTotal, kind);
      RecordWorkerFailure(kind);
    }

    /** Conservation in every valid state, per series and over all failures. */
    lemma CountersAreConserved(series: string)
      requires Valid()
      ensures SeriesTotal(httpRequestsTotal, series)
              == if series in httpRequestDurationHistograms then httpRequestDurationHistograms[series].count else 0
      ensures SeriesTotal(submissionsTotal, series)
              == if series in executionDurationHistograms then executionDurationHistograms[series].count else 0
      ensures SumOver(workerFailuresTotal, workerFailuresTotal.Keys) == Get(workerJobsTotal, JobFailed)
    {
      CountersMatchHistogram(httpLog, httpRequestDurationHistograms, HTTP_DURATION_BUCKETS, series);
      CountersMatchHistogram(EvaluationSamples(judgedLog), executionDurationHistograms, EXEC_DURATION_BUCKETS, series);
    }

    /** In every state of the service COMPILATION_ERROR has no counter, in any language,
        and the completed jobs that no verdict counts are those without a submission. */
    lemma CompilationErrorsAreNotCounted(language: string)
      requires Valid()
      ensures Key(LanguageKey(language), NameOf(CompilationError)) !in submissionsTotal
      ensures |judgedLog| == Get(workerJobsTotal, JobCompleted) - unrecorded
    {
      NamesAreClean(CompilationError);
      forall i | 0 <= i < |judgedLog| ensures EvaluationSamples(judgedLog)[i].tag != NameOf(CompilationError) {
        OtherNames(judgedLog[i].verdict);
      }
      AbsentTag(EvaluationSamples(judgedLog), LanguageKey(language), NameOf(CompilationError));
    }

    /** Every stored histogram is exported as its format requires, and no other one under
        its labels, as long as routes have no bars in them. */
    lemma ExportsAreWellFormed(series: string)
      requires Valid()
      ensures series in httpRequestDurationHistograms ==>
                WellFormedExport(Exported(httpRequestDurationHistograms[series]), |SamplesOf(httpLog, series)|)
      ensures series in executionDurationHistograms ==>
                WellFormedExport(Exported(executionDurationHistograms[series]),
                                 |SamplesOf(EvaluationSamples(judgedLog), series)|)
      ensures forall other ::
                other in httpRequestDurationHistograms && other != series && OneBar(series) && OneBar(other) ==>
                  HistLabels(other) != HistLabels(series)
    {
      forall other | other in httpRequestDurationHistograms && other != series && OneBar(series) && OneBar(other)
        ensures HistLabels(other) != HistLabels(series)
      {
        LabelsTellKeysApart(series, other);
      }
      ExportIsCumulative(SamplesOf(httpLog, series), HTTP_DURATION_BUCKETS);
      ExportIsCumulative(SamplesOf(EvaluationSamples(judgedLog), series), EXEC_DURATION_BUCKETS);
    }
  }

  function Get<K>(m: map<K, nat>, key: K): nat {
    if key in m then m[key] else 0
  }
}
