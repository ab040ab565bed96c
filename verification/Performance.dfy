/** The performance store: observations folded into rows of one minute each, and
    the report that regroups the rows. */
module Performance {
  import opened Rows
  import opened Latency

  const MAX_POINTS := 120
  const MAX_DIMENSION := 128
  const MAX_ENDPOINT := 512

  /** Where an observation was made. */
  datatype Place = Place(site: int, environment: string, service: string, version: string, endpoint: string)

  datatype Observation = Observation(place: Place, duration: int, status: int, error: bool, timestampMs: int)

  datatype RowKey = RowKey(bucketStart: int, place: Place)

  predicate Blank(c: char) {
    c in " \t\n\r\U{000B}\U{000C}\U{0085}\U{00A0}"
  }

  /** strings.TrimSpace. */
  function Trim(s: string): string
    decreases |s|
  {
    if s == "" then ""
    else if Blank(s[0]) then Trim(s[1..])
    else if Blank(s[|s| - 1]) then Trim(s[..|s| - 1])
    else s
  }

  function Named(s: string): string {
    if s == "" then "unknown" else s
  }

  function Dimension(s: string): string {
    var trimmed := Trim(s);
    if |trimmed| > MAX_DIMENSION then trimmed[..MAX_DIMENSION] else trimmed
  }

  /** The place as it is filed: trimmed, cut to size, and named if it had no name. */
  function Filed(p: Place): Place {
    p.(environment := Named(Dimension(p.environment)), service := Named(Dimension(p.service)),
       version := Named(Dimension(p.version)), endpoint := Named(Trim(p.endpoint)))
  }

  function KeyFor(o: Observation, nowMs: int): RowKey {
    RowKey((if o.timestampMs <= 0 then nowMs else o.timestampMs) / 60_000 * 60, Filed(o.place))
  }

  /** An observation is filed under the minute it was made in, or the present one. */
  lemma KeyIsMinute(o: Observation, nowMs: int)
    requires nowMs >= 0
    ensures var at := if o.timestampMs <= 0 then nowMs else o.timestampMs;
            var start := KeyFor(o, nowMs).bucketStart;
            start % 60 == 0 && start * 1_000 <= at < (start + 60) * 1_000
    ensures KeyFor(o, nowMs).place == Filed(o.place)
  {
    hide Filed;
    var at := if o.timestampMs <= 0 then nowMs else o.timestampMs;
    var m := at / 60_000;
    assert at == m * 60_000 + at % 60_000;
  }

  function SampleOf(o: Observation): Sample {
    Sample(o.duration, o.error || o.status >= 500)
  }

  /** A place too long to file and a duration out of range refuse the batch. */
  predicate Acceptable(o: Observation) {
    |Filed(o.place).endpoint| <= MAX_ENDPOINT && 0 <= o.duration <= MAX_DURATION
  }

  /** Trimming takes blanks off both ends, and leaves none there. */
  lemma {:induction false} TrimIsCore(s: string) returns (left: string, right: string)
    ensures s == left + Trim(s) + right && AllBlank(left) && AllBlank(right)
    ensures Trim(s) != "" ==> !Blank(Trim(s)[0]) && !Blank(Trim(s)[|Trim(s)| - 1])
    decreases |s|
  {
    hide Blank, Trim;
    TrimStep(s);
    left, right := "", "";
    if s == "" {
      return;
    }
    if Blank(s[0]) {
      var l, r := TrimIsCore(s[1..]);
      AroundCore(s, [s[0]], s[1..], "", l, Trim(s), r);
      return [s[0]] + l, r;
    }
    if Blank(s[|s| - 1]) {
      var l, r := TrimIsCore(s[..|s| - 1]);
      AroundCore(s, "", s[..|s| - 1], [s[|s| - 1]], l, Trim(s), r);
      return l, r + [s[|s| - 1]];
    }
  }

  lemma TrimStep(s: string)
    ensures Trim(s) ==
              if s == "" then "" else if Blank(s[0]) then Trim(s[1..]) else if Blank(s[|s| - 1]) then Trim(s[..|s| - 1]) else s
  {
    hide Blank;
  }

  ghost predicate AllBlank(s: string) {
    forall i :: 0 <= i < |s| ==> Blank(s[i])
  }

  lemma AroundCore(s: string, before: string, inner: string, after: string, l: string, core: string, r: string)
    requires s == before + inner + after && inner == l + core + r
    ensures s == before + l + core + (r + after)
    ensures AllBlank(before) && AllBlank(l) ==> AllBlank(before + l)
    ensures AllBlank(r) && AllBlank(after) ==> AllBlank(r + after)
  {
    hide Blank;
  }

  /** A response of 500 or more, or one marked so, is an error. */
  lemma SampleIs(o: Observation)
    ensures SampleOf(o).duration == o.duration && (SampleOf(o).failed <==> o.error || o.status >= 500)
  {}

  /** A batch is refused for a duration beyond an hour or a name beyond 512 characters. */
  lemma AcceptableIs(o: Observation)
    ensures Acceptable(o) <==>
              0 <= o.duration <= 3_600_000 && |if Trim(o.place.endpoint) == "" then "unknown" else Trim(o.place.endpoint)| <= 512
  {}

  /** Each field is filed as it came, short of the blanks around it and what does not
      fit, and as "unknown" when nothing is left. */
  lemma FiledIs(p: Place)
    ensures Filed(p).site == p.site
    ensures Filed(p).environment == NamedPart(p.environment, 128) && Filed(p).service == NamedPart(p.service, 128)
    ensures Filed(p).version == NamedPart(p.version, 128)
    ensures Filed(p).endpoint == NamedPart(p.endpoint, |p.endpoint|)
  {
    TrimShortens(p.endpoint);
  }

  function NamedPart(s: string, most: nat): string {
    var t := Trim(s);
    if t == "" then "unknown" else if |t| > most then t[..most] else t
  }

  lemma {:induction false} TrimShortens(s: string)
    ensures |Trim(s)| <= |s|
    decreases |s|
  {
    hide Blank;
    if s != "" {
      TrimShortens(s[1..]);
      TrimShortens(s[..|s| - 1]);
    }
  }

  /** What is filed has a name in each field and fits it; an endpoint is refused for
      its length without the blanks around it. */
  lemma FiledFits(o: Observation)
    ensures var p := Filed(o.place);
            && p.site == o.place.site
            && 0 < |p.environment| <= MAX_DIMENSION && 0 < |p.service| <= MAX_DIMENSION && 0 < |p.version| <= MAX_DIMENSION
            && 0 < |p.endpoint| && (Acceptable(o) ==> |p.endpoint| <= MAX_ENDPOINT)
            && (|o.place.endpoint| > MAX_ENDPOINT && !Blank(o.place.endpoint[0]) && !Blank(o.place.endpoint[|o.place.endpoint| - 1])
                ==> !Acceptable(o))
  {}

  // ---- An aggregate updated in place ----

  class Accumulator {
    var requests: nat
    var errors: nat
    var sum: int
    var max: int
    var buckets: array<nat>

    ghost predicate Valid()
      reads this, buckets
    {
      buckets.Length == BUCKETS && max >= 0
    }

    ghost function Value(): (a: Aggregate)
      requires Valid()
      reads this, buckets
      ensures |a.buckets| == BUCKETS
    {
      Aggregate(requests, errors, sum, max, buckets[..])
    }

    constructor ()
      ensures Valid() && Value() == Empty && fresh(buckets)
    {
      requests, errors, sum, max := 0, 0, 0, 0;
      buckets := new nat[BUCKETS](_ => 0);
      new;
      assert buckets[..] == Empty.buckets;
    }

    /** The counting half of SavePerformanceObservations. */
    method Record(o: Observation)
      requires Valid()
      modifies this, buckets
      ensures Valid() && buckets == old(buckets)
      ensures Value() == Merge(old(Value()), Single(SampleOf(o)))
    {
      requests := requests + 1;
      sum := sum + o.duration;
      if o.duration > max { max := o.duration; }
      var i := BucketIndex(o.duration);
      buckets[i] := buckets[i] + 1;
      if o.error || o.status >= 500 { errors := errors + 1; }
      assert buckets[..] == Merge(old(Value()), Single(SampleOf(o))).buckets;
    }

    /** addRow and addAggregate. */
    method Add(row: Aggregate)
      requires Valid() && |row.buckets| == BUCKETS
      modifies this, buckets
      ensures Valid() && buckets == old(buckets)
      ensures Value() == Merge(old(Value()), row)
    {
      requests := requests + row.requests;
      errors := errors + row.errors;
      sum := sum + row.sum;
      if row.max > max { max := row.max; }
      var i := 0;
      while i < BUCKETS
        invariant 0 <= i <= BUCKETS && buckets == old(buckets) && buckets.Length == BUCKETS
        invariant requests == old(requests) + row.requests && errors == old(errors) + row.errors
        invariant sum == old(sum) + row.sum && max == Larger(old(max), row.max)
        invariant forall j :: 0 <= j < i ==> buckets[j] == old(buckets[j]) + row.buckets[j]
        invariant forall j :: i <= j < BUCKETS ==> buckets[j] == old(buckets[j])
      {
        buckets[i] := buckets[i] + row.buckets[i];
        i := i + 1;
      }
      assert buckets[..] == Merge(old(Value()), row).buckets;
    }
  }

  // ---- Saving ----

  /** The samples a batch holds for one row, in order. */
  function SamplesFor(batch: seq<Observation>, k: RowKey, nowMs: int): seq<Sample>
    decreases |batch|
  {
    if batch == [] then []
    else
      var last := batch[|batch| - 1];
      SamplesFor(batch[..|batch| - 1], k, nowMs) + if KeyFor(last, nowMs) == k then [SampleOf(last)] else []
  }

  /** Everything ever recorded for a row. */
  function Known(history: map<RowKey, seq<Sample>>, k: RowKey): seq<Sample> {
    if k in history then history[k] else []
  }

  ghost predicate RowsOk(rows: map<RowKey, Aggregate>, history: map<RowKey, seq<Sample>>) {
    rows.Keys == history.Keys && forall k :: k in rows ==> rows[k] == OnePass(history[k])
  }

  class Metrics {
    var rows: map<RowKey, Aggregate>
    ghost var history: map<RowKey, seq<Sample>>

    /** Every stored row is the one-pass aggregate of all its observations. */
    ghost predicate Valid()
      reads this
    {
      RowsOk(rows, history)
    }

    constructor ()
      ensures Valid() && rows == map[] && history == map[]
    {
      rows, history := map[], map[];
    }

    /** SavePerformanceObservations: all of the batch or none of it. */
    method Save(batch: seq<Observation>, nowMs: int) returns (ok: bool)
      requires Valid()
      modifies this
      ensures Valid()
      ensures ok <==> forall i :: 0 <= i < |batch| ==> Acceptable(batch[i])
      ensures !ok ==> rows == old(rows) && history == old(history)
      ensures ok ==> forall k :: Known(history, k) == Known(old(history), k) + SamplesFor(batch, k, nowMs)
    {
      hide RowsOk, KeyFor, SampleOf, Acceptable, Merge, Single, SamplesFor, Known;
      var groups: map<RowKey, Aggregate> := map[];
      ghost var grouped: map<RowKey, seq<Sample>> := map[];
      NothingGrouped(nowMs);
      assert batch[..0] == [];
      var i := 0;
      while i < |batch|
        invariant 0 <= i <= |batch| && forall j :: 0 <= j < i ==> Acceptable(batch[j])
        invariant RowsOk(groups, grouped) && RowsOk(rows, history) && rows == old(rows) && history == old(history)
        invariant forall k :: Known(grouped, k) == SamplesFor(batch[..i], k, nowMs)
      {
        var o := batch[i];
        if !Acceptable(o) {
          return false;
        }
        var key := KeyFor(o, nowMs);
        GroupOne(batch[..i], o, nowMs, groups, grouped);
        var group := if key in groups then groups[key] else Empty;
        groups := groups[key := Merge(group, Single(SampleOf(o)))];
        grouped := grouped[key := Known(grouped, key) + [SampleOf(o)]];
        i := i + 1;
        assert batch[..i] == batch[..i - 1] + [o];
      }
      assert batch[..i] == batch;
      Fold(groups, grouped);
      return true;
    }

    /** The writing half: a new row is inserted, a known one merged. */
    method Fold(groups: map<RowKey, Aggregate>, ghost grouped: map<RowKey, seq<Sample>>)
      requires Valid() && RowsOk(groups, grouped)
      modifies this
      ensures Valid()
      ensures forall k :: Known(history, k) == Known(old(history), k) + Known(grouped, k)
    {
      hide RowsOk, Merge, Known;
      NotGrouped(groups, grouped);
      var keys := groups.Keys;
      while keys != {}
        invariant keys <= groups.Keys && RowsOk(rows, history)
        invariant forall k :: Known(history, k) == Known(old(history), k) + if k in keys then [] else Known(grouped, k)
        decreases |keys|
      {
        var key :| key in keys;
        FoldOne(rows, history, groups, grouped, key);
        rows := rows[key := if key in rows then Merge(rows[key], groups[key]) else groups[key]];
        history := history[key := Known(history, key) + Known(grouped, key)];
        keys := keys - {key};
      }
    }
  }

  lemma NothingGrouped(nowMs: int)
    ensures RowsOk(map[], map[]) && forall k :: Known(map[], k) == SamplesFor([], k, nowMs)
  {}

  /** One more observation of a batch joins its row. */
  lemma GroupOne(batch: seq<Observation>, o: Observation, nowMs: int,
                 groups: map<RowKey, Aggregate>, grouped: map<RowKey, seq<Sample>>)
    requires RowsOk(groups, grouped) && forall k :: Known(grouped, k) == SamplesFor(batch, k, nowMs)
    ensures var key := KeyFor(o, nowMs);
            var group := if key in groups then groups[key] else Empty;
            var grouped' := grouped[key := Known(grouped, key) + [SampleOf(o)]];
            && |group.buckets| == BUCKETS
            && RowsOk(groups[key := Merge(group, Single(SampleOf(o)))], grouped')
            && forall k :: Known(grouped', k) == SamplesFor(batch + [o], k, nowMs)
  {
    hide KeyFor, SampleOf, Merge, Single, OnePass;
    var key := KeyFor(o, nowMs);
    OnePassOne(Known(grouped, key), SampleOf(o));
    SamplesOne(batch, o, nowMs);
    forall k ensures Known(grouped[key := Known(grouped, key) + [SampleOf(o)]], k) == SamplesFor(batch + [o], k, nowMs) {}
  }

  lemma OnePassOne(samples: seq<Sample>, x: Sample)
    ensures OnePass(samples + [x]) == Merge(OnePass(samples), Single(x)) && OnePass([]) == Empty
  {
    assert (samples + [x])[..|samples|] == samples;
  }

  /** A row gets the samples of the observations filed under it, each once. */
  lemma {:induction false} SamplesAre(batch: seq<Observation>, k: RowKey, nowMs: int)
    ensures |SamplesFor(batch, k, nowMs)| == |set i | 0 <= i < |batch| && KeyFor(batch[i], nowMs) == k|
    ensures forall x :: x in SamplesFor(batch, k, nowMs) <==> exists i :: 0 <= i < |batch| && KeyFor(batch[i], nowMs) == k && SampleOf(batch[i]) == x
    decreases |batch|
  {
    hide KeyFor, SampleOf;
    if batch != [] {
      var before, n := batch[..|batch| - 1], |batch| - 1;
      SamplesAre(before, k, nowMs);
      assert (set i | 0 <= i < |batch| && KeyFor(batch[i], nowMs) == k)
          == (set i | 0 <= i < |before| && KeyFor(before[i], nowMs) == k) + if KeyFor(batch[n], nowMs) == k then {n} else {};
      forall i | 0 <= i < |before| ensures before[i] == batch[i] {}
    }
  }

  lemma SamplesOne(batch: seq<Observation>, o: Observation, nowMs: int)
    ensures forall k :: SamplesFor(batch + [o], k, nowMs) ==
              SamplesFor(batch, k, nowMs) + if KeyFor(o, nowMs) == k then [SampleOf(o)] else []
  {
    assert (batch + [o])[..|batch|] == batch;
  }

  lemma FoldOne(rows: map<RowKey, Aggregate>, history: map<RowKey, seq<Sample>>,
                groups: map<RowKey, Aggregate>, grouped: map<RowKey, seq<Sample>>, k: RowKey)
    requires RowsOk(rows, history) && RowsOk(groups, grouped) && k in groups
    ensures |groups[k].buckets| == BUCKETS && (k in rows ==> |rows[k].buckets| == BUCKETS)
    ensures var history' := history[k := Known(history, k) + Known(grouped, k)];
            && RowsOk(rows[k := if k in rows then Merge(rows[k], groups[k]) else groups[k]], history')
            && forall j :: Known(history', j) == Known(history, j) + if j == k then Known(grouped, j) else []
  {
    hide OnePass, Merge;
    var was := Known(history, k);
    MergeIsOnePass(was, grouped[k]);
    assert groups[k] == OnePass(grouped[k]);
    if k in rows {
      assert rows[k] == OnePass(was);
    } else {
      assert was + grouped[k] == grouped[k];
    }
  }

  lemma NotGrouped(groups: map<RowKey, Aggregate>, grouped: map<RowKey, seq<Sample>>)
    requires RowsOk(groups, grouped)
    ensures forall k :: k !in groups ==> Known(grouped, k) == []
  {}

  // ---- The report ----

  datatype Row = Row(place: Place, start: int, value: Aggregate)

  ghost predicate Sound(parts: seq<Aggregate>) {
    forall i :: 0 <= i < |parts| ==> |parts[i].buckets| == BUCKETS && parts[i].max >= 0
  }

  ghost function MergeAll(parts: seq<Aggregate>): (a: Aggregate)
    requires Sound(parts)
    ensures |a.buckets| == BUCKETS && a.max >= 0
    decreases |parts|
  {
    if parts == [] then Empty else Merge(MergeAll(parts[..|parts| - 1]), parts[|parts| - 1])
  }

  /** The requests of a map's aggregates added up. */
  ghost function Requests<K(!new)>(m: map<K, Aggregate>): nat
    decreases |m|
  {
    if m == map[] then 0
    else
      var k :| k in m;
      m[k].requests + Requests(m - {k})
  }

  lemma {:induction false} RequestsWithout<K(!new)>(m: map<K, Aggregate>, k: K)
    requires k in m
    ensures Requests(m) == m[k].requests + Requests(m - {k})
    decreases |m|
  {
    var j :| j in m && Requests(m) == m[j].requests + Requests(m - {j});
    if j != k {
      RequestsWithout(m - {j}, k);
      RequestsWithout(m - {k}, j);
      assert m - {j} - {k} == m - {k} - {j};
    }
  }

  lemma RequestsPut<K(!new)>(m: map<K, Aggregate>, k: K, a: Aggregate)
    ensures Requests(m[k := a]) == Requests(m) + a.requests - if k in m then m[k].requests else 0
  {
    RequestsWithout(m[k := a], k);
    assert m[k := a] - {k} == m - {k};
    if k in m { RequestsWithout(m, k); } else { assert m - {k} == m; }
  }

  lemma MergeOne(parts: seq<Aggregate>, a: Aggregate)
    requires Sound(parts) && |a.buckets| == BUCKETS && a.max >= 0
    ensures Sound(parts + [a]) && MergeAll(parts + [a]) == Merge(MergeAll(parts), a)
  {
    assert (parts + [a])[..|parts|] == parts;
  }

  /** What GetPerformance gathers of one endpoint. */
  datatype Group = Group(total: Aggregate, series: map<int, Aggregate>)

  const NoGroup := Group(Empty, map[])

  /** The values of the rows at one endpoint, in order. */
  function At(rows: seq<Row>, e: Place): seq<Aggregate>
    decreases |rows|
  {
    if rows == [] then []
    else
      var last := rows[|rows| - 1];
      At(rows[..|rows| - 1], e) + if last.place == e then [last.value] else []
  }

  /** The values of the rows at one endpoint and minute, in order. */
  function AtMinute(rows: seq<Row>, e: Place, start: int): seq<Aggregate>
    decreases |rows|
  {
    if rows == [] then []
    else
      var last := rows[|rows| - 1];
      AtMinute(rows[..|rows| - 1], e, start) + if last.place == e && last.start == start then [last.value] else []
  }

  function AllValues(rows: seq<Row>): (parts: seq<Aggregate>)
    ensures |parts| == |rows| && forall i :: 0 <= i < |rows| ==> parts[i] == rows[i].value
  {
    seq(|rows|, i requires 0 <= i < |rows| => rows[i].value)
  }

  lemma {:induction false} SoundParts(rows: seq<Row>, e: Place, start: int)
    requires Sound(AllValues(rows))
    ensures Sound(At(rows, e)) && Sound(AtMinute(rows, e, start))
    decreases |rows|
  {
    if rows != [] {
      var before := rows[..|rows| - 1];
      assert AllValues(before) == AllValues(rows)[..|rows| - 1];
      assert AllValues(rows)[|rows| - 1] == rows[|rows| - 1].value;
      SoundParts(before, e, start);
    }
  }

  /** The groups are exactly the regrouped rows, and count the same requests. */
  ghost predicate GroupsOk(rows: seq<Row>, total: Aggregate, groups: map<Place, Group>) {
    && Sound(AllValues(rows)) && total == MergeAll(AllValues(rows))
    && (forall e :: e in groups ==> GroupOk(rows, e, groups[e]) && At(rows, e) != [])
    && (forall e :: e !in groups ==> GroupOk(rows, e, NoGroup))
    && Requests(Totals(groups)) == total.requests
  }

  ghost predicate GroupOk(rows: seq<Row>, e: Place, g: Group) {
    && Sound(At(rows, e)) && g.total == MergeAll(At(rows, e))
    && (forall b :: b in g.series ==> AtMinute(rows, e, b) != [] && Sound(AtMinute(rows, e, b)) && g.series[b] == MergeAll(AtMinute(rows, e, b)))
    && (forall b :: b !in g.series ==> AtMinute(rows, e, b) == [])
    && Requests(g.series) == g.total.requests
  }

  function Totals(groups: map<Place, Group>): map<Place, Aggregate> {
    map e | e in groups :: groups[e].total
  }

  /** A group with one more row. */
  function Joined(g: Group, row: Row): Group
    requires |row.value.buckets| == BUCKETS && |g.total.buckets| == BUCKETS
    requires row.start in g.series ==> |g.series[row.start].buckets| == BUCKETS
  {
    var point := if row.start in g.series then g.series[row.start] else Empty;
    Group(Merge(g.total, row.value), g.series[row.start := Merge(point, row.value)])
  }

  lemma JoinParts(rows: seq<Row>, row: Row, e: Place)
    requires row.place == e
    ensures At(rows + [row], e) == At(rows, e) + [row.value]
    ensures AtMinute(rows + [row], e, row.start) == AtMinute(rows, e, row.start) + [row.value]
    ensures forall x :: x != row.start ==> AtMinute(rows + [row], e, x) == AtMinute(rows, e, x)
  {
    assert (rows + [row])[..|rows|] == rows;
  }

  lemma JoinPoint(rows: seq<Row>, e: Place, g: Group, row: Row)
    requires GroupOk(rows, e, g) && row.place == e && |row.value.buckets| == BUCKETS && row.value.max >= 0
    ensures row.start in g.series ==> |g.series[row.start].buckets| == BUCKETS
    ensures Sound(AtMinute(rows, e, row.start) + [row.value])
    ensures Merge(if row.start in g.series then g.series[row.start] else Empty, row.value) == MergeAll(AtMinute(rows, e, row.start) + [row.value])
  {
    hide Requests, Merge, Sound;
    var b := row.start;
    var parts := AtMinute(rows, e, b);
    if b !in g.series { assert Sound([]) by { NoneSound(); } }
    assert Sound(parts);
    MergeOne(parts, row.value);
  }

  lemma NoneSound()
    ensures Sound([]) && MergeAll([]) == Empty
  {}

  lemma JoinOk(rows: seq<Row>, e: Place, g: Group, row: Row)
    requires GroupOk(rows, e, g) && row.place == e && |row.value.buckets| == BUCKETS && row.value.max >= 0
    ensures |g.total.buckets| == BUCKETS && (row.start in g.series ==> |g.series[row.start].buckets| == BUCKETS)
    ensures GroupOk(rows + [row], e, Joined(g, row))
  {
    hide MergeAll, Requests, Merge, Sound, At, AtMinute;
    JoinParts(rows, row, e);
    MergeOne(At(rows, e), row.value);
    JoinPoint(rows, e, g, row);
    var b := row.start;
    var point := if b in g.series then g.series[b] else Empty;
    RequestsPut(g.series, b, Merge(point, row.value));
    MergeRequests(point, row.value);
    MergeRequests(g.total, row.value);
  }

  lemma MergeRequests(a: Aggregate, b: Aggregate)
    requires |a.buckets| == BUCKETS && |b.buckets| == BUCKETS
    ensures Merge(a, b).requests == a.requests + b.requests
  {}

  lemma OthersOk(rows: seq<Row>, e: Place, g: Group, row: Row)
    requires GroupOk(rows, e, g) && row.place != e
    ensures GroupOk(rows + [row], e, g)
  {
    var more := rows + [row];
    assert more[..|rows|] == rows;
    assert At(more, e) == At(rows, e);
    forall x ensures AtMinute(more, e, x) == AtMinute(rows, e, x) {}
    hide MergeAll, Requests;
  }

  lemma GatherOne(rows: seq<Row>, total: Aggregate, groups: map<Place, Group>, row: Row)
    requires GroupsOk(rows, total, groups) && |row.value.buckets| == BUCKETS && row.value.max >= 0
    ensures var g := if row.place in groups then groups[row.place] else NoGroup;
            && |total.buckets| == BUCKETS && |g.total.buckets| == BUCKETS
            && (row.start in g.series ==> |g.series[row.start].buckets| == BUCKETS)
            && GroupsOk(rows + [row], Merge(total, row.value), groups[row.place := Joined(g, row)])
  {
    hide GroupOk, MergeAll, Requests, Totals, Merge, Sound;
    var g := if row.place in groups then groups[row.place] else NoGroup;
    JoinOk(rows, row.place, g, row);
    MergeOne(AllValues(rows), row.value);
    assert AllValues(rows + [row]) == AllValues(rows) + [row.value];
    var groups' := groups[row.place := Joined(g, row)];
    TotalsPut(groups, row.place, Joined(g, row));
    RequestsPut(Totals(groups), row.place, Joined(g, row).total);
    MergeRequests(total, row.value);
    MergeRequests(g.total, row.value);
    forall e | e != row.place ensures GroupOk(rows + [row], e, if e in groups then groups[e] else NoGroup) {
      OthersOk(rows, e, if e in groups then groups[e] else NoGroup, row);
    }
  }

  lemma TotalsPut(groups: map<Place, Group>, e: Place, g: Group)
    ensures Totals(groups[e := g]) == Totals(groups)[e := g.total]
    ensures Totals(groups).Keys == groups.Keys && (e in groups ==> Totals(groups)[e] == groups[e].total)
  {}

  lemma GatherNone()
    ensures GroupsOk([], Empty, map[])
  {
    assert Totals(map[]) == map[];
  }

  /** The grouping loop of GetPerformance: no request is lost or counted twice, from
      rows to endpoints, to their minutes, and to the summary. */
  method Gather(rows: seq<Row>) returns (total: Aggregate, groups: map<Place, Group>)
    requires Sound(AllValues(rows))
    ensures GroupsOk(rows, total, groups)
  {
    hide GroupsOk;
    total, groups := Empty, map[];
    GatherNone();
    var i := 0;
    while i < |rows|
      invariant 0 <= i <= |rows| && GroupsOk(rows[..i], total, groups)
    {
      var row := rows[i];
      assert AllValues(rows)[i] == row.value;
      GatherOne(rows[..i], total, groups, row);
      assert rows[..i] + [row] == rows[..i + 1];
      var g := if row.place in groups then groups[row.place] else NoGroup;
      total := Merge(total, row.value);
      groups := groups[row.place := Joined(g, row)];
      i := i + 1;
    }
    assert rows[..i] == rows;
  }

  // ---- The series ----

  datatype Point = Point(bucketStart: int, value: Aggregate)

  function GroupSize(n: nat): (size: nat)
    ensures size >= 1
    ensures n <= size * 120 && (size > 1 ==> (size - 1) * 120 < n)
  {
    if n > MAX_POINTS then (n + MAX_POINTS - 1) / MAX_POINTS else 1
  }

  ghost predicate SeriesOk(series: map<int, Aggregate>) {
    forall b :: b in series ==> |series[b].buckets| == BUCKETS && series[b].max >= 0
  }

  /** The aggregates of these starts, in order. */
  ghost function Values(series: map<int, Aggregate>, starts: seq<int>): (parts: seq<Aggregate>)
    requires SeriesOk(series) && forall i :: 0 <= i < |starts| ==> starts[i] in series
    ensures |parts| == |starts| && Sound(parts) && forall i :: 0 <= i < |starts| ==> parts[i] == series[starts[i]]
  {
    assert forall i :: 0 <= i < |starts| ==> |series[starts[i]].buckets| == BUCKETS && series[starts[i]].max >= 0 by {
      forall i | 0 <= i < |starts| ensures |series[starts[i]].buckets| == BUCKETS && series[starts[i]].max >= 0 {
        var b := starts[i];
        assert b in series;
      }
    }
    seq(|starts|, i requires 0 <= i < |starts| => series[starts[i]])
  }

  /** The k-th run of consecutive starts. */
  function Run(starts: seq<int>, size: nat, k: nat): seq<int>
    requires size > 0 && k * size <= |starts|
  {
    starts[k * size..if (k + 1) * size < |starts| then (k + 1) * size else |starts|]
  }

  ghost predicate PointOk(series: map<int, Aggregate>, starts: seq<int>, size: nat, k: nat, p: Point)
    requires SeriesOk(series) && forall i :: 0 <= i < |starts| ==> starts[i] in series
    requires size > 0
  {
    && k * size < |starts|
    && var run := Run(starts, size, k);
    && run != [] && p.bucketStart == run[|run| - 1]
    && p.value == MergeAll(Values(series, run))
  }

  function PointRequests(points: seq<Point>): nat
    decreases |points|
  {
    if points == [] then 0 else PointRequests(points[..|points| - 1]) + points[|points| - 1].value.requests
  }

  function StartRequests(series: map<int, Aggregate>, starts: seq<int>): nat
    requires forall i :: 0 <= i < |starts| ==> starts[i] in series
    decreases |starts|
  {
    if starts == [] then 0 else StartRequests(series, starts[..|starts| - 1]) + series[starts[|starts| - 1]].requests
  }

  lemma {:induction false} StartsConcat(series: map<int, Aggregate>, p: seq<int>, q: seq<int>)
    requires (forall i :: 0 <= i < |p| ==> p[i] in series) && forall i :: 0 <= i < |q| ==> q[i] in series
    ensures StartRequests(series, p + q) == StartRequests(series, p) + StartRequests(series, q)
    decreases |q|
  {
    if q == [] {
      assert p + q == p;
    } else {
      assert (p + q)[..|p + q| - 1] == p + q[..|q| - 1];
      StartsConcat(series, p, q[..|q| - 1]);
    }
  }

  lemma {:induction false} StartsAgree(a: map<int, Aggregate>, b: map<int, Aggregate>, starts: seq<int>)
    requires forall i :: 0 <= i < |starts| ==> starts[i] in a && starts[i] in b && a[starts[i]] == b[starts[i]]
    ensures StartRequests(a, starts) == StartRequests(b, starts)
    decreases |starts|
  {
    if starts != [] { StartsAgree(a, b, starts[..|starts| - 1]); }
  }

  /** Counting along the sorted starts counts every aggregate once. */
  lemma {:induction false} StartsAreAll(series: map<int, Aggregate>, starts: seq<int>)
    requires Increasing(starts) && forall b :: b in starts <==> b in series
    ensures forall i :: 0 <= i < |starts| ==> starts[i] in series
    ensures StartRequests(series, starts) == Requests(series)
    decreases |starts|
  {
    hide StartRequests, Requests, Increasing;
    StartsIn(series, starts);
    if starts == [] {
      NoStarts(series);
    } else {
      var before, last := starts[..|starts| - 1], starts[|starts| - 1];
      LastStart(series, starts);
      StartsAreAll(series - {last}, before);
      StartsAgree(series, series - {last}, before);
      RequestsWithout(series, last);
      OneStartMore(series, before, last);
      assert starts == before + [last];
    }
  }

  lemma StartsIn(series: map<int, Aggregate>, starts: seq<int>)
    requires forall b :: b in starts <==> b in series
    ensures forall i :: 0 <= i < |starts| ==> starts[i] in series
    ensures starts == [] ==> series == map[]
  {
    forall i | 0 <= i < |starts| ensures starts[i] in series {
      var b := starts[i];
      assert b in starts;
    }
    if starts == [] { assert forall b :: b in series ==> b in starts; }
  }

  lemma NoStarts(series: map<int, Aggregate>)
    requires series == map[]
    ensures StartRequests(series, []) == Requests(series)
  {}

  /** The starts short of the last are those of the rest of the rows. */
  lemma LastStart(series: map<int, Aggregate>, starts: seq<int>)
    requires Increasing(starts) && starts != [] && forall b :: b in starts <==> b in series
    ensures var before, last := starts[..|starts| - 1], starts[|starts| - 1];
            Increasing(before) && last in series && forall b :: b in before <==> b in series - {last}
    ensures forall i :: 0 <= i < |starts| - 1 ==> starts[i] in series && starts[i] in series - {starts[|starts| - 1]}
  {
    var before, last := starts[..|starts| - 1], starts[|starts| - 1];
    assert last in starts && last !in before;
    assert starts == before + [last];
    forall b ensures b in before <==> b in series - {last} { assert b in starts <==> b in before || b == last; }
    StartsIn(series - {last}, before);
  }

  lemma OneStartMore(series: map<int, Aggregate>, before: seq<int>, last: int)
    requires (forall i :: 0 <= i < |before| ==> before[i] in series) && last in series
    ensures StartRequests(series, before + [last]) == StartRequests(series, before) + series[last].requests
  {
    assert (before + [last])[..|before|] == before;
  }

  lemma {:induction false} MergedRequests(series: map<int, Aggregate>, starts: seq<int>)
    requires SeriesOk(series) && forall i :: 0 <= i < |starts| ==> starts[i] in series
    ensures MergeAll(Values(series, starts)).requests == StartRequests(series, starts)
    decreases |starts|
  {
    if starts != [] {
      var before := starts[..|starts| - 1];
      MergedRequests(series, before);
      assert Values(series, starts)[..|starts| - 1] == Values(series, before);
    }
  }

  /** performanceSeries: consecutive runs of equal size merged into at most 120
      points that keep every request. */
  method PerformanceSeries(series: map<int, Aggregate>) returns (points: seq<Point>)
    requires SeriesOk(series)
    ensures |points| <= 120 && (|series| <= 120 ==> |points| == |series|)
    ensures var starts := Sorted(series.Keys); var size := GroupSize(|starts|);
            && (forall i :: 0 <= i < |starts| ==> starts[i] in series)
            && (forall k :: 0 <= k < |points| ==> PointOk(series, starts, size, k, points[k]))
            && |starts| <= |points| * size && ((|points| - 1) * size < |starts| || (starts == [] && points == []))
    ensures PointRequests(points) == Requests(series)
  {
    hide Requests, Sorted, SeriesOk, MergeAll, SeriesAt, PointOk, GroupSize, StartRequests, PointRequests, Increasing;
    var starts := Sorted(series.Keys);
    StartsAreAll(series, starts);
    var size := GroupSize(|starts|);
    points := [];
    NoPoints(series, starts, size);
    var start := 0;
    while start < |starts|
      invariant start >= 0 && SeriesAt(series, starts, size, points, start)
      decreases |starts| - start
    {
      var end := if start + size > |starts| then |starts| else start + size;
      var aggregate := MergeRun(series, starts[start..end]);
      var point := Point(starts[end - 1], aggregate);
      AddPoint(series, starts, size, points, point, start, end);
      points := points + [point];
      start := start + size;
    }
    SeriesEnd(series, starts, size, points, start);
  }

  /** The points so far cover the starts below `start`. */
  ghost predicate SeriesAt(series: map<int, Aggregate>, starts: seq<int>, size: nat, points: seq<Point>, start: nat)
    requires SeriesOk(series) && size > 0 && forall i :: 0 <= i < |starts| ==> starts[i] in series
  {
    && start == |points| * size
    && (points != [] ==> (|points| - 1) * size < |starts|)
    && (forall k :: 0 <= k < |points| ==> PointOk(series, starts, size, k, points[k]))
    && PointRequests(points) == StartRequests(series, starts[..if start < |starts| then start else |starts|])
  }

  lemma NoPoints(series: map<int, Aggregate>, starts: seq<int>, size: nat)
    requires SeriesOk(series) && size > 0 && forall i :: 0 <= i < |starts| ==> starts[i] in series
    ensures SeriesAt(series, starts, size, [], 0)
  {}

  lemma SeriesEnd(series: map<int, Aggregate>, starts: seq<int>, size: nat, points: seq<Point>, start: nat)
    requires SeriesOk(series) && size == GroupSize(|starts|) && forall i :: 0 <= i < |starts| ==> starts[i] in series
    requires SeriesAt(series, starts, size, points, start) && start >= |starts|
    ensures |points| <= MAX_POINTS && |starts| <= |points| * size
    ensures (|points| - 1) * size < |starts| || (starts == [] && points == [])
    ensures forall k :: 0 <= k < |points| ==> PointOk(series, starts, size, k, points[k])
    ensures PointRequests(points) == StartRequests(series, starts)
  {
    hide PointOk, MergeAll, StartRequests, PointRequests, GroupSize, SeriesOk;
    assert starts[..|starts|] == starts;
    if points != [] { AtMostPoints(|starts|, size, |points|); }
  }

  lemma AtMostPoints(n: nat, size: nat, points: nat)
    requires size == GroupSize(n) && (points - 1) * size < n
    ensures points <= MAX_POINTS
  {
    if points > MAX_POINTS { TimesGrows(MAX_POINTS, points - 1, size); }
  }

  lemma TimesGrows(a: nat, b: nat, c: nat)
    requires a <= b
    ensures a * c <= b * c
  {}

  lemma RunAt(starts: seq<int>, size: nat, k: nat, end: nat)
    requires size > 0 && k * size < |starts| && end == (if k * size + size > |starts| then |starts| else k * size + size)
    ensures Run(starts, size, k) == starts[k * size..end]
  {
    assert (k + 1) * size == k * size + size;
  }

  lemma RunRequests(series: map<int, Aggregate>, starts: seq<int>, start: nat, end: nat)
    requires SeriesOk(series) && (forall i :: 0 <= i < |starts| ==> starts[i] in series) && start <= end <= |starts|
    ensures StartRequests(series, starts[..end]) == StartRequests(series, starts[..start]) + MergeAll(Values(series, starts[start..end])).requests
  {
    hide MergeAll, SeriesOk, Sound;
    assert starts[..end] == starts[..start] + starts[start..end];
    StartsConcat(series, starts[..start], starts[start..end]);
    MergedRequests(series, starts[start..end]);
  }

  lemma AddPoint(series: map<int, Aggregate>, starts: seq<int>, size: nat, points: seq<Point>, p: Point, start: nat, end: nat)
    requires SeriesOk(series) && (forall i :: 0 <= i < |starts| ==> starts[i] in series) && size > 0
    requires SeriesAt(series, starts, size, points, start) && start < |starts|
    requires end == (if start + size > |starts| then |starts| else start + size)
    requires p == Point(starts[end - 1], MergeAll(Values(series, starts[start..end])))
    ensures SeriesAt(series, starts, size, points + [p], start + size)
  {
    hide MergeAll, StartRequests, SeriesOk, Sound, PointOk, Run, Values;
    var k := |points|;
    NextPoint(series, starts, size, k, p, end);
    RunRequests(series, starts, start, end);
    assert (k + 1) * size == start + size;
    assert (points + [p])[..k] == points;
  }

  lemma NextPoint(series: map<int, Aggregate>, starts: seq<int>, size: nat, k: nat, p: Point, end: nat)
    requires SeriesOk(series) && (forall i :: 0 <= i < |starts| ==> starts[i] in series) && size > 0
    requires k * size < |starts| && end == (if k * size + size > |starts| then |starts| else k * size + size)
    requires p == Point(starts[end - 1], MergeAll(Values(series, starts[k * size..end])))
    ensures PointOk(series, starts, size, k, p)
  {
    hide MergeAll, SeriesOk, Sound, Run, Values;
    RunAt(starts, size, k, end);
  }

  /** addAggregate over one run. */
  method MergeRun(series: map<int, Aggregate>, run: seq<int>) returns (a: Aggregate)
    requires SeriesOk(series) && forall i :: 0 <= i < |run| ==> run[i] in series
    ensures a == MergeAll(Values(series, run))
  {
    a := Empty;
    var i := 0;
    assert Values(series, run[..0]) == [];
    while i < |run|
      invariant 0 <= i <= |run| && a == MergeAll(Values(series, run[..i]))
    {
      assert Values(series, run[..i + 1])[..i] == Values(series, run[..i]);
      a := Merge(a, series[run[i]]);
      i := i + 1;
    }
    assert run[..i] == run;
  }

  /** The runs are consecutive and together are all the starts. */
  function Runs(starts: seq<int>, size: nat, n: nat): seq<int>
    requires size > 0 && (n == 0 || (n - 1) * size <= |starts|)
    decreases n
  {
    if n == 0 then []
    else
      assert n > 1 ==> (n - 2) * size <= (n - 1) * size;
      Runs(starts, size, n - 1) + Run(starts, size, n - 1)
  }

  lemma {:induction false} RunsPartition(starts: seq<int>, size: nat, n: nat)
    requires size > 0 && (n == 0 || (n - 1) * size < |starts|)
    ensures Runs(starts, size, n) == starts[..if n * size < |starts| then n * size else |starts|]
    decreases n
  {
    if n > 0 {
      assert n > 1 ==> (n - 2) * size <= (n - 1) * size;
      assert n * size == (n - 1) * size + size;
      RunsPartition(starts, size, n - 1);
    }
  }
}
