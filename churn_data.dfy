/** The deterministic part of the churn data generator: the lookup tables of event
    types and metric names, and the monthly and weekly activity periods cut out of each
    subscription. Instants are whole seconds on one clock (a subscription's start and
    end dates are midnights, "now" keeps its time of day); `.date()` is the day number
    of an instant. The random draws, pandas frames and the SQLite and CSV writes are not
    part of this model. */
module ChurnData {
  import opened Wrappers

  /** Seconds in a day: `timedelta(days=1)`. */
  const Day := 86400

  const EventTypes: seq<string> := [
    "login", "logout", "feature_usage", "support_ticket",
    "settings_change", "invite", "payment", "upgrade",
    "downgrade", "content_view", "export", "api_call"
  ]

  const MetricNames: seq<string> := [
    "login_rate", "feature_usage_count", "session_duration",
    "support_tickets", "user_count", "api_calls",
    "content_views", "exports", "engagement_score", "health_score"
  ]

  // ---------------------------------------------------------------------------
  // Lookup tables

  datatype LookupRow = LookupRow(id: nat, name: string)

  /** `enumerate(names, 1)` into rows: ids 1..n paired with the names in list order. */
  method LookupTable(names: seq<string>) returns (rows: seq<LookupRow>)
    ensures |rows| == |names|
    ensures forall i :: 0 <= i < |rows| ==> rows[i].id == i + 1 && rows[i].name == names[i]
  {
    rows := [];
    var i := 0;
    while i < |names|
      invariant 0 <= i <= |names| && |rows| == i
      invariant forall j :: 0 <= j < i ==> rows[j] == LookupRow(j + 1, names[j])
    {
      rows := rows + [LookupRow(i + 1, names[i])];
      i := i + 1;
    }
  }

  /** The event_type table. */
  method GenerateEventTypes() returns (rows: seq<LookupRow>)
    ensures |rows| == 12
    ensures forall i :: 0 <= i < |rows| ==> rows[i].id == i + 1 && rows[i].name == EventTypes[i]
  {
    rows := LookupTable(EventTypes);
  }

  /** The metric_name table. */
  method GenerateMetricNames() returns (rows: seq<LookupRow>)
    ensures |rows| == 10
    ensures forall i :: 0 <= i < |rows| ==> rows[i].id == i + 1 && rows[i].name == MetricNames[i]
  {
    rows := LookupTable(MetricNames);
  }

  /** In a lookup table built from distinct names, the id names exactly one row and
      the name names exactly one id: ids and names are a one-to-one pairing. */
  lemma LookupOneToOne(names: seq<string>, rows: seq<LookupRow>, i: nat, j: nat)
    requires |rows| == |names|
    requires forall k :: 0 <= k < |rows| ==> rows[k].id == k + 1 && rows[k].name == names[k]
    requires forall a, b :: 0 <= a < b < |names| ==> names[a] != names[b]
    requires i < |rows| && j < |rows|
    ensures rows[i].id == rows[j].id <==> i == j
    ensures rows[i].name == rows[j].name <==> i == j
  {
    if i < j {
      assert names[i] != names[j];
    } else if j < i {
      assert names[j] != names[i];
    }
  }

  /** The two name lists hold no duplicates, so both tables are one-to-one. */
  lemma NameListsDistinct()
    ensures forall a, b :: 0 <= a < b < |EventTypes| ==> EventTypes[a] != EventTypes[b]
    ensures forall a, b :: 0 <= a < b < |MetricNames| ==> MetricNames[a] != MetricNames[b]
  {
  }

  // ---------------------------------------------------------------------------
  // Cutting an interval into periods

  /** A period as two instants: where the cursor stood and where the period ends. */
  datatype Chunk = Chunk(from: int, to: int)

  function Min(a: int, b: int): int {
    if a <= b then a else b
  }

  /** The periods the `while current < end_date` loop cuts out of `[start, end)` with a
      cap of `span` seconds: each ends at `min(current + span, end)`, and the next one
      starts a day after that. */
  function Chunks(start: int, end: int, span: nat): seq<Chunk>
    decreases end - start
  {
    if start >= end then []
    else
      var stop := Min(start + span, end);
      [Chunk(start, stop)] + Chunks(stop + Day, end, span)
  }

  /** An independent description of the loop's output: the first period starts at
      `start`, every period starts before `end` and ends at its capped end, each next
      period starts a day after the previous one ended, and the last one ends less
      than a day before `end` (so the loop stopped there). */
  predicate IsChunking(c: seq<Chunk>, start: int, end: int, span: nat) {
    && (c == [] <==> start >= end)
    && (c != [] ==> c[0].from == start && c[|c| - 1].to + Day >= end)
    && (forall i :: 0 <= i < |c| ==> c[i].from < end && c[i].to == Min(c[i].from + span, end))
    && (forall i :: 0 <= i < |c| - 1 ==> c[i + 1].from == c[i].to + Day)
  }

  lemma {:induction false} ChunksIsChunking(start: int, end: int, span: nat)
    ensures IsChunking(Chunks(start, end, span), start, end, span)
    decreases end - start
  {
    if start < end {
      var stop := Min(start + span, end);
      var rest := Chunks(stop + Day, end, span);
      ChunksIsChunking(stop + Day, end, span);
      var c := Chunks(start, end, span);
      assert c == [Chunk(start, stop)] + rest;
      forall i | 0 <= i < |c| - 1 ensures c[i + 1].from == c[i].to + Day {
        if i > 0 {
          assert c[i] == rest[i - 1] && c[i + 1] == rest[i];
        }
      }
    }
  }

  /** The description fixes the output: any sequence of periods that satisfies it is
      the one the loop produces. */
  lemma {:induction false} ChunkingUnique(c: seq<Chunk>, start: int, end: int, span: nat)
    requires IsChunking(c, start, end, span)
    ensures c == Chunks(start, end, span)
    decreases end - start
  {
    if start < end {
      var stop := Min(start + span, end);
      assert c[0] == Chunk(start, stop);
      var rest := c[1..];
      assert IsChunking(rest, stop + Day, end, span) by {
        if rest != [] {
          assert rest[0] == c[1];
        } else {
          assert c[|c| - 1] == c[0];
        }
        forall i | 0 <= i < |rest| - 1 ensures rest[i + 1].from == rest[i].to + Day {
          assert rest[i] == c[i + 1] && rest[i + 1] == c[i + 2];
        }
      }
      ChunkingUnique(rest, stop + Day, end, span);
      assert c == [c[0]] + rest;
    }
  }

  /** The cursor loop. */
  method SplitInterval(start: int, end: int, span: nat) returns (chunks: seq<Chunk>)
    ensures IsChunking(chunks, start, end, span)
    ensures chunks == Chunks(start, end, span)
  {
    chunks := [];
    var current := start;
    while current < end
      invariant chunks + Chunks(current, end, span) == Chunks(start, end, span)
      decreases end - current
    {
      var stop := Min(current + span, end);
      assert Chunks(current, end, span) == [Chunk(current, stop)] + Chunks(stop + Day, end, span);
      chunks := chunks + [Chunk(current, stop)];
      current := stop + Day;
    }
    assert chunks + [] == chunks;
    ChunksIsChunking(start, end, span);
  }

  /** Every period lies inside `[start, end]` and runs forwards; with a positive cap it
      is not empty. */
  lemma ChunkBounds(c: seq<Chunk>, start: int, end: int, span: nat, i: nat)
    requires IsChunking(c, start, end, span)
    requires i < |c|
    ensures start <= c[i].from <= c[i].to <= end
    ensures span > 0 ==> c[i].from < c[i].to
  {
    StartsAtLeast(c, start, end, span, i);
  }

  /** Later periods start after earlier ones end: the periods are disjoint and in
      increasing order. */
  lemma {:induction false} ChunksOrdered(c: seq<Chunk>, start: int, end: int, span: nat, i: nat, j: nat)
    requires IsChunking(c, start, end, span)
    requires i < j < |c|
    ensures c[i].to < c[j].from
    decreases j - i
  {
    if j > i + 1 {
      ChunksOrdered(c, start, end, span, i, j - 1);
      assert c[j - 1].from <= c[j - 1].to;
    }
  }

  lemma {:induction false} StartsAtLeast(c: seq<Chunk>, start: int, end: int, span: nat, i: nat)
    requires IsChunking(c, start, end, span)
    requires i < |c|
    ensures start <= c[i].from
    decreases i
  {
    if i > 0 {
      StartsAtLeast(c, start, end, span, i - 1);
      assert c[i].from == c[i - 1].to + Day;
    }
  }

  // ---------------------------------------------------------------------------
  // Activity rows

  /** `.date()` of an instant: the number of its day. */
  function DateOf(t: int): int {
    t / Day
  }

  /** A subscription as the generator reads it; `end` is None for an open one. */
  datatype Subscription = Subscription(account: int, start: int, end: Option<int>)

  /** A row of active_period or active_week. */
  datatype Period = Period(account: int, startDate: int, endDate: int)

  const MonthSpan: nat := 30 * Day
  const WeekSpan: nat := 7 * Day

  /** An open subscription runs until now. */
  function EndOf(s: Subscription, now: int): int {
    s.end.GetOr(now)
  }

  function PeriodRow(account: int, c: Chunk): Period {
    Period(account, DateOf(c.from), DateOf(c.to))
  }

  /** The rows of one subscription. */
  function SubscriptionRows(s: Subscription, now: int, span: nat): seq<Period> {
    var c := Chunks(s.start, EndOf(s, now), span);
    seq(|c|, i requires 0 <= i < |c| => PeriodRow(s.account, c[i]))
  }

  /** The rows of all subscriptions, in subscription order. */
  function AllRows(subs: seq<Subscription>, now: int, span: nat): seq<Period>
    decreases |subs|
  {
    if subs == [] then []
    else AllRows(subs[..|subs| - 1], now, span) + SubscriptionRows(subs[|subs| - 1], now, span)
  }

  /** The period loop over the given subscriptions; `span` is the cap. */
  method ActivityRows(subs: seq<Subscription>, now: int, span: nat) returns (rows: seq<Period>)
    ensures rows == AllRows(subs, now, span)
  {
    rows := [];
    var k := 0;
    while k < |subs|
      invariant 0 <= k <= |subs|
      invariant rows == AllRows(subs[..k], now, span)
    {
      var s := subs[k];
      var chunks := SplitInterval(s.start, EndOf(s, now), span);
      var before := rows;
      var i := 0;
      while i < |chunks|
        invariant 0 <= i <= |chunks| && |rows| == |before| + i
        invariant rows[..|before|] == before
        invariant forall m :: 0 <= m < i ==> rows[|before| + m] == PeriodRow(s.account, chunks[m])
      {
        rows := rows + [PeriodRow(s.account, chunks[i])];
        i := i + 1;
      }
      assert rows == before + SubscriptionRows(s, now, span);
      assert subs[..k + 1][..k] == subs[..k];
      k := k + 1;
    }
    assert subs[..k] == subs;
  }

  /** `generate_active_periods`: monthly periods of every subscription. */
  method GenerateActivePeriods(subs: seq<Subscription>, now: int) returns (rows: seq<Period>)
    ensures rows == AllRows(subs, now, MonthSpan)
  {
    rows := ActivityRows(subs, now, MonthSpan);
  }

  /** `generate_active_weeks`: weekly periods of the sampled subscriptions (the random
      sample is the argument). */
  method GenerateActiveWeeks(sample: seq<Subscription>, now: int) returns (rows: seq<Period>)
    ensures rows == AllRows(sample, now, WeekSpan)
  {
    rows := ActivityRows(sample, now, WeekSpan);
  }

  /** A subscription yields no rows exactly when it starts at or after its end. */
  lemma NoRowsIffEmpty(s: Subscription, now: int, span: nat)
    ensures SubscriptionRows(s, now, span) == [] <==> s.start >= EndOf(s, now)
  {
    ChunksIsChunking(s.start, EndOf(s, now), span);
  }

  /** The day rows of one subscription: the first starts on the subscription's start
      date, every row runs forwards and ends no later than the end date, and each next
      row starts the day after the previous one ends. */
  lemma SubscriptionRowsChain(s: Subscription, now: int, span: nat)
    ensures var r := SubscriptionRows(s, now, span);
      && (r != [] ==> r[0].startDate == DateOf(s.start))
      && (forall i :: 0 <= i < |r| ==>
            r[i].account == s.account
            && DateOf(s.start) <= r[i].startDate <= r[i].endDate <= DateOf(EndOf(s, now)))
      && (forall i :: 0 <= i < |r| - 1 ==> r[i + 1].startDate == r[i].endDate + 1)
  {
    var end := EndOf(s, now);
    var c := Chunks(s.start, end, span);
    var r := SubscriptionRows(s, now, span);
    ChunksIsChunking(s.start, end, span);
    forall i | 0 <= i < |r|
      ensures DateOf(s.start) <= r[i].startDate <= r[i].endDate <= DateOf(end)
    {
      StartsAtLeast(c, s.start, end, span, i);
      DateMonotone(s.start, c[i].from);
      DateMonotone(c[i].from, c[i].to);
      DateMonotone(c[i].to, end);
    }
    forall i | 0 <= i < |r| - 1 ensures r[i + 1].startDate == r[i].endDate + 1 {
      NextDay(c[i].to);
    }
  }

  lemma DateMonotone(a: int, b: int)
    requires a <= b
    ensures DateOf(a) <= DateOf(b)
  {
  }

  lemma NextDay(t: int)
    ensures DateOf(t + Day) == DateOf(t) + 1
  {
  }

  /** A monthly row spans at most 31 calendar days and a weekly row at most 8, counting
      both ends. */
  lemma RowLength(s: Subscription, now: int, span: nat, i: nat)
    requires span % Day == 0
    requires i < |SubscriptionRows(s, now, span)|
    ensures var r := SubscriptionRows(s, now, span)[i];
      r.endDate - r.startDate <= span / Day
  {
    var end := EndOf(s, now);
    var c := Chunks(s.start, end, span);
    ChunksIsChunking(s.start, end, span);
    DateMonotone(c[i].to, c[i].from + span);
    ShiftByDays(c[i].from, span / Day);
  }

  lemma ShiftByDays(t: int, n: int)
    ensures DateOf(t + n * Day) == DateOf(t) + n
  {
  }
}
