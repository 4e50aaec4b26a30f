/**
 * The quota ledger and content calendar of `scripts/strategy.py`.
 *
 * The configuration document is the value `Config`; `StrategyManager` holds it in
 * its `config` field and its methods update it in place, as the Python methods
 * update `self.config`. Dates of the action log are day numbers (proleptic
 * Gregorian ordinals, as `date.toordinal()`), and "today" is an input: the clock is
 * not part of the model. Persisting the document to disk is not modelled.
 */
module Strategy {
  import opened Wrappers
  import opened Text

  /** A calendar day as its proleptic Gregorian ordinal (0001-01-01 is day 1). */
  type Day = int

  /** How many days of the action log survive a cleanup. */
  const KeepDays: nat := 7

  const DefaultDailyLimits: map<string, nat> :=
    map["likes" := 30, "comments" := 10, "replies" := 20, "collects" := 10, "publishes" := 3]

  const BestPublishTimes: seq<string> :=
    ["07:00-09:00", "11:30-13:30", "17:30-19:00", "20:00-22:00"]

  const RedLines: seq<string> := [
    "单日互动总量不超过 80 次",
    "连续互动不超过 3 次，需批次冷却 15-30 秒",
    "单次评论间隔至少 30 秒",
    "避免深夜（00:00-06:00）大量操作",
    "禁止重复发送相同评论内容",
    "新账号前 7 天减半配额"
  ]

  /** One entry of the content calendar. */
  datatype CalendarEntry = CalendarEntry(
    date: string, topic: string, noteType: string, notes: string, status: string)

  /** The strategy document (its timestamps are not modelled). */
  datatype Config = Config(
    persona: string,
    targetAudience: string,
    contentDirection: seq<string>,
    dailyLimits: map<string, nat>,
    bestPublishTimes: seq<string>,
    redLines: seq<string>,
    actionLog: map<Day, map<string, nat>>,
    contentCalendar: seq<CalendarEntry>)

  /** The answer of `check_daily_limit`. */
  datatype LimitInfo = LimitInfo(actionType: string, allowed: bool, used: nat, limit: nat, remaining: nat)

  /** The answer of `record_action`. */
  datatype RecordInfo = RecordInfo(actionType: string, todayCount: nat, remaining: nat)

  /** The answer of `init_strategy`. */
  datatype InitInfo = InitInfo(persona: string, targetAudience: string, contentDirection: seq<string>)

  /** `_default_config`: empty persona, the default ceilings, an empty log and calendar. */
  function DefaultConfig(): (c: Config)
    ensures c.dailyLimits == DefaultDailyLimits
    ensures c.actionLog == map[] && c.contentCalendar == []
    ensures c.persona == "" && c.targetAudience == "" && c.contentDirection == []
  {
    Config("", "", [], DefaultDailyLimits, BestPublishTimes, RedLines, map[], [])
  }

  /** How many actions of type `t` the log holds for `day` (0 when absent). */
  function CountOn(log: map<Day, map<string, nat>>, day: Day, t: string): nat
  {
    if day in log && t in log[day] then log[day][t] else 0
  }

  /**
   * `check_daily_limit`: today's use of `t` against its ceiling; an unknown type
   * has ceiling 0. `remaining` is `max(0, limit - used)`.
   */
  function CheckLimit(c: Config, t: string, today: Day): (r: LimitInfo)
    ensures r.actionType == t
    ensures r.used == CountOn(c.actionLog, today, t)
    ensures r.limit == (if t in c.dailyLimits then c.dailyLimits[t] else 0)
    ensures r.allowed <==> r.used < r.limit
    ensures r.allowed <==> r.remaining > 0
    ensures r.remaining <= r.limit
    ensures r.allowed ==> r.used + r.remaining == r.limit
    ensures t !in c.dailyLimits ==> !r.allowed && r.remaining == 0
  {
    var limit := if t in c.dailyLimits then c.dailyLimits[t] else 0;
    var used := CountOn(c.actionLog, today, t);
    var remaining := if limit - used > 0 then limit - used else 0;
    LimitInfo(t, remaining > 0, used, limit, remaining)
  }

  /** A freshly defaulted ledger has all of every default ceiling left. */
  lemma FreshLedgerFullQuota(t: string, today: Day)
    requires t in DefaultDailyLimits
    ensures CheckLimit(DefaultConfig(), t, today).used == 0
    ensures CheckLimit(DefaultConfig(), t, today).remaining == DefaultDailyLimits[t]
    ensures CheckLimit(DefaultConfig(), t, today).allowed
  {
  }

  /** The log with today's count of `t` raised by one. */
  function Incremented(log: map<Day, map<string, nat>>, t: string, today: Day): (r: map<Day, map<string, nat>>)
    ensures r.Keys == log.Keys + {today}
    ensures CountOn(r, today, t) == CountOn(log, today, t) + 1
    ensures forall u :: u != t ==> CountOn(r, today, u) == CountOn(log, today, u)
    ensures forall d, u :: d != today ==> CountOn(r, d, u) == CountOn(log, d, u)
  {
    var dayLog := if today in log then log[today] else map[];
    log[today := dayLog[t := CountOn(log, today, t) + 1]]
  }

  /** The log without the days before `cutoff`. */
  function Purged(log: map<Day, map<string, nat>>, cutoff: Day): (r: map<Day, map<string, nat>>)
    ensures r.Keys == set d | d in log && d >= cutoff
    ensures forall d :: d in r ==> r[d] == log[d]
  {
    map d | d in log && d >= cutoff :: log[d]
  }

  // ---------------------------------------------------------------------------
  // Dates as `datetime.strptime(s, "%Y-%m-%d")` reads them
  // ---------------------------------------------------------------------------

  predicate IsDigit(c: char) { '0' <= c <= '9' }

  predicate IsLeapYear(y: int)
  {
    y % 4 == 0 && (y % 100 != 0 || y % 400 == 0)
  }

  function DaysInMonth(y: int, m: int): (n: int)
    requires 1 <= m <= 12
    ensures 28 <= n <= 31
  {
    if m == 2 then (if IsLeapYear(y) then 29 else 28)
    else if m == 4 || m == 6 || m == 9 || m == 11 then 30
    else 31
  }

  function DaysBeforeMonth(y: int, m: int): int
    requires 1 <= m <= 12
  {
    var before := [0, 31, 59, 90, 120, 151, 181, 212, 243, 273, 304, 334][m - 1];
    if m > 2 && IsLeapYear(y) then before + 1 else before
  }

  /** `date(y, m, d).toordinal()`. */
  function Ordinal(y: int, m: int, d: int): Day
    requires y >= 1 && 1 <= m <= 12
  {
    var py := y - 1;
    py * 365 + py / 4 - py / 100 + py / 400 + DaysBeforeMonth(y, m) + d
  }

  /** The `%m` field: `1[0-2]|0[1-9]|[1-9]`. */
  function MonthField(f: string): Option<int>
  {
    if |f| == 1 && '1' <= f[0] <= '9' then Some(DigitValue(f[0]))
    else if |f| == 2 && f[0] == '0' && '1' <= f[1] <= '9' then Some(DigitValue(f[1]))
    else if |f| == 2 && f[0] == '1' && '0' <= f[1] <= '2' then Some(10 + DigitValue(f[1]))
    else None
  }

  /** The `%d` field: `3[01]|[12]\d|0[1-9]|[1-9]| [1-9]`. */
  function DayField(f: string): Option<int>
  {
    if |f| == 1 && '1' <= f[0] <= '9' then Some(DigitValue(f[0]))
    else if |f| == 2 && (f[0] == '0' || f[0] == ' ') && '1' <= f[1] <= '9' then Some(DigitValue(f[1]))
    else if |f| == 2 && '1' <= f[0] <= '2' && IsDigit(f[1]) then Some(DigitValue(f[0]) * 10 + DigitValue(f[1]))
    else if |f| == 2 && f[0] == '3' && '0' <= f[1] <= '1' then Some(30 + DigitValue(f[1]))
    else None
  }

  /**
   * The day a calendar date string names, or None where `strptime` (or the
   * `date` constructor behind it) raises ValueError: four year digits, a dash,
   * the month field, a dash, the day field, nothing more, and a real date.
   */
  function ParseDate(s: string): (r: Option<Day>)
    ensures r.Some? ==> 8 <= |s| <= 10 && s[4] == '-' && (forall i :: 0 <= i < 4 ==> IsDigit(s[..4][i]))
                        && DigitsValue(s[..4]) >= 1
  {
    if |s| < 8 || !(IsDigit(s[0]) && IsDigit(s[1]) && IsDigit(s[2]) && IsDigit(s[3])) || s[4] != '-' then None
    else
      var rest := s[5..];
      var parts := Split(rest, '-');
      if |parts| != 2 then None
      else
        JoinSplit(rest, '-');
        assert rest == parts[0] + ['-'] + parts[1];
        var year := DigitsValue(s[..4]);
        match (MonthField(parts[0]), DayField(parts[1]))
        case (Some(m), Some(d)) =>
          if year >= 1 && 1 <= m <= 12 && d <= DaysInMonth(year, m) then Some(Ordinal(year, m, d)) else None
        case _ => None
  }

  /** `%02d`. */
  function TwoDigits(n: nat): string
    requires n < 100
  {
    [DigitChar(n / 10), DigitChar(n % 10)]
  }

  /** `%04d`. */
  function FourDigits(n: nat): string
    requires n < 10000
  {
    [DigitChar(n / 1000), DigitChar(n / 100 % 10), DigitChar(n / 10 % 10), DigitChar(n % 10)]
  }

  /** `date(y, m, d).strftime("%Y-%m-%d")`, the form the calendar and the ledger write. */
  function IsoDate(y: int, m: int, d: int): string
    requires 1 <= y <= 9999 && 1 <= m <= 12 && 1 <= d <= 31
  {
    FourDigits(y) + "-" + TwoDigits(m) + "-" + TwoDigits(d)
  }

  lemma FourDigitsValue(n: nat)
    requires n < 10000
    ensures DigitsValue(FourDigits(n)) == n
  {
    var s := FourDigits(n);
    assert n / 10 / 10 == n / 100 && n / 100 / 10 == n / 1000;
    assert s[..1][..0] == [] && s[..2][..1] == s[..1] && s[..3][..2] == s[..2] && s[..4][..3] == s[..3];
    assert DigitsValue(s[..1]) == n / 1000;
    assert DigitsValue(s[..2]) == n / 100;
    assert DigitsValue(s[..3]) == n / 10;
    assert s[..4] == s;
  }

  /** A real date written as `%Y-%m-%d` parses back to that day. */
  lemma ParseIsoDate(y: int, m: int, d: int)
    requires 1 <= y <= 9999 && 1 <= m <= 12 && 1 <= d <= DaysInMonth(y, m)
    ensures ParseDate(IsoDate(y, m, d)) == Some(Ordinal(y, m, d))
  {
    var s := IsoDate(y, m, d);
    var mm, dd := TwoDigits(m), TwoDigits(d);
    assert s[..4] == FourDigits(y);
    FourDigitsValue(y);
    assert s[5..] == mm + ['-'] + dd;
    SplitAtFirst(mm, '-', dd);
    SplitWithoutSep(dd, '-');
    assert Split(s[5..], '-') == [mm, dd];
    TwoDigitFields(m, d);
  }

  lemma TwoDigitFields(m: int, d: int)
    requires 1 <= m <= 12 && 1 <= d <= 31
    ensures MonthField(TwoDigits(m)) == Some(m)
    ensures DayField(TwoDigits(d)) == Some(d)
  {
  }

  // ---------------------------------------------------------------------------
  // The upcoming-posts window and its ordering
  // ---------------------------------------------------------------------------

  /** The entry's date parses to a day in `[today, today + days]`. */
  predicate InWindow(e: CalendarEntry, today: Day, days: int)
  {
    ParseDate(e.date).Some? && today <= ParseDate(e.date).value <= today + days
  }

  /** The entries in the window, in calendar order. */
  function Upcoming(cal: seq<CalendarEntry>, today: Day, days: int): (r: seq<CalendarEntry>)
    ensures forall e :: e in r ==> e in cal && InWindow(e, today, days)
    ensures forall e :: e in cal && InWindow(e, today, days) ==> e in r
  {
    if cal == [] then []
    else
      var init := Upcoming(cal[..|cal| - 1], today, days);
      var last := cal[|cal| - 1];
      assert cal == cal[..|cal| - 1] + [last];
      if InWindow(last, today, days) then init + [last] else init
  }

  predicate SortedByDate(s: seq<CalendarEntry>)
  {
    forall i, j :: 0 <= i < j < |s| ==> StrLe(s[i].date, s[j].date)
  }

  /** Inserts `e` after every entry whose date is not later than its own. */
  function InsertByDate(s: seq<CalendarEntry>, e: CalendarEntry): (r: seq<CalendarEntry>)
    ensures |r| == |s| + 1
  {
    if s == [] then [e]
    else if StrLe(s[0].date, e.date) then [s[0]] + InsertByDate(s[1..], e)
    else [e] + s
  }

  /**
   * `list.sort(key=date)`: an insertion sort on the date strings, as stable as
   * Python's (entries with the same date keep their order).
   */
  function SortByDate(s: seq<CalendarEntry>): (r: seq<CalendarEntry>)
    ensures |r| == |s|
  {
    if s == [] then [] else InsertByDate(SortByDate(s[..|s| - 1]), s[|s| - 1])
  }

  lemma {:induction false} InsertByDateKeeps(s: seq<CalendarEntry>, e: CalendarEntry)
    ensures multiset(InsertByDate(s, e)) == multiset(s) + multiset{e}
  {
    if s != [] && StrLe(s[0].date, e.date) {
      InsertByDateKeeps(s[1..], e);
      assert s == [s[0]] + s[1..];
    }
  }

  lemma {:induction false} InsertByDateSorted(s: seq<CalendarEntry>, e: CalendarEntry)
    requires SortedByDate(s)
    ensures SortedByDate(InsertByDate(s, e))
  {
    if s == [] {
    } else if StrLe(s[0].date, e.date) {
      var tail := InsertByDate(s[1..], e);
      InsertByDateSorted(s[1..], e);
      InsertByDateKeeps(s[1..], e);
      var r := [s[0]] + tail;
      forall i, j | 0 <= i < j < |r| ensures StrLe(r[i].date, r[j].date) {
        if i == 0 {
          assert r[j] in multiset(tail);
          assert r[j] in multiset(s[1..]) + multiset{e};
          if r[j] == e {
          } else {
            assert r[j] in s[1..];
            var k :| 0 <= k < |s[1..]| && s[1..][k] == r[j];
            assert s[k + 1] == r[j];
          }
        }
      }
    } else {
      var r := [e] + s;
      StrLeTotal(s[0].date, e.date);
      forall i, j | 0 <= i < j < |r| ensures StrLe(r[i].date, r[j].date) {
        if i == 0 && j > 1 {
          StrLeTrans(e.date, s[0].date, s[j - 1].date);
        }
      }
    }
  }

  /** The sort orders by date. */
  lemma {:induction false} SortByDateSorted(s: seq<CalendarEntry>)
    ensures SortedByDate(SortByDate(s))
  {
    if s != [] {
      SortByDateSorted(s[..|s| - 1]);
      InsertByDateSorted(SortByDate(s[..|s| - 1]), s[|s| - 1]);
    }
  }

  /** The sort neither drops nor adds entries. */
  lemma {:induction false} SortByDatePermutes(s: seq<CalendarEntry>)
    ensures multiset(SortByDate(s)) == multiset(s)
  {
    if s != [] {
      SortByDatePermutes(s[..|s| - 1]);
      InsertByDateKeeps(SortByDate(s[..|s| - 1]), s[|s| - 1]);
      assert s == s[..|s| - 1] + [s[|s| - 1]];
    }
  }

  /** The entries of `s` dated `d`, in their order in `s`. */
  function DatedOn(s: seq<CalendarEntry>, d: string): seq<CalendarEntry>
  {
    if s == [] then [] else (if s[0].date == d then [s[0]] else []) + DatedOn(s[1..], d)
  }

  lemma {:induction false} DatedOnConcat(a: seq<CalendarEntry>, b: seq<CalendarEntry>, d: string)
    ensures DatedOn(a + b, d) == DatedOn(a, d) + DatedOn(b, d)
  {
    if a != [] {
      assert (a + b)[1..] == a[1..] + b;
      DatedOnConcat(a[1..], b, d);
    } else {
      assert a + b == b;
    }
  }

  /** In a sorted list, nothing from the first entry later than `e` on has `e`'s date. */
  lemma {:induction false} NoneDatedLikeAfter(s: seq<CalendarEntry>, e: CalendarEntry)
    requires SortedByDate(s) && s != [] && !StrLe(s[0].date, e.date)
    ensures DatedOn(s, e.date) == []
  {
    StrLeTotal(e.date, e.date);
    if |s| > 1 {
      if StrLe(s[1].date, e.date) {
        StrLeTrans(s[0].date, s[1].date, e.date);
      }
      NoneDatedLikeAfter(s[1..], e);
    }
  }

  lemma {:induction false} InsertByDateStable(s: seq<CalendarEntry>, e: CalendarEntry, d: string)
    requires SortedByDate(s)
    ensures DatedOn(InsertByDate(s, e), d) == DatedOn(s, d) + (if e.date == d then [e] else [])
  {
    if s == [] {
      assert DatedOn([e], d) == (if e.date == d then [e] else []) + DatedOn([], d);
    } else if StrLe(s[0].date, e.date) {
      var tail := InsertByDate(s[1..], e);
      var r := [s[0]] + tail;
      assert r[0] == s[0] && r[1..] == tail;
      assert SortedByDate(s[1..]);
      InsertByDateStable(s[1..], e, d);
      assert DatedOn(s, d) == (if s[0].date == d then [s[0]] else []) + DatedOn(s[1..], d);
    } else {
      var r := [e] + s;
      assert r[1..] == s;
      if e.date == d {
        NoneDatedLikeAfter(s, e);
      }
    }
  }

  /** The sort is stable: the entries sharing any one date keep their calendar order. */
  lemma {:induction false} SortByDateStable(s: seq<CalendarEntry>, d: string)
    ensures DatedOn(SortByDate(s), d) == DatedOn(s, d)
  {
    if s != [] {
      var init, last := s[..|s| - 1], s[|s| - 1];
      SortByDateStable(init, d);
      SortByDateSorted(init);
      InsertByDateStable(SortByDate(init), last, d);
      assert s == init + [last];
      DatedOnConcat(init, [last], d);
      assert DatedOn([last], d) == (if last.date == d then [last] else []) + DatedOn([], d);
    }
  }

  /** `StrategyManager`: the loaded strategy document and the operations on it. */
  class StrategyManager {
    var config: Config

    /** `_load_config`: the stored document when it could be read, else the defaults. */
    constructor (stored: Option<Config>)
      ensures config == (if stored.Some? then stored.value else DefaultConfig())
    {
      config := if stored.Some? then stored.value else DefaultConfig();
    }

    /** `init_strategy`: sets the persona fields; a missing direction list becomes []. */
    method InitStrategy(persona: string, targetAudience: string, contentDirection: Option<seq<string>>)
      returns (info: InitInfo)
      modifies this
      ensures config == old(config).(persona := persona, targetAudience := targetAudience,
                                     contentDirection := contentDirection.GetOr([]))
      ensures info == InitInfo(persona, targetAudience, contentDirection.GetOr([]))
    {
      var direction := contentDirection.GetOr([]);
      config := config.(persona := persona, targetAudience := targetAudience, contentDirection := direction);
      info := InitInfo(persona, targetAudience, direction);
    }

    /**
     * `_cleanup_old_logs`: deletes, one key at a time, every day of the log before
     * `today - keepDays`; the other days keep their counts.
     */
    method CleanupOldLogs(today: Day, keepDays: nat)
      modifies this
      ensures config == old(config).(actionLog := Purged(old(config.actionLog), today - keepDays))
    {
      var cutoff := today - keepDays;
      var log0 := config.actionLog;
      var oldKeys := set k | k in config.actionLog && k < cutoff;
      while oldKeys != {}
        invariant oldKeys <= log0.Keys
        invariant forall k :: k in oldKeys ==> k < cutoff
        invariant config == old(config).(actionLog := config.actionLog)
        invariant config.actionLog == map d | d in log0 && (d >= cutoff || d in oldKeys) :: log0[d]
        decreases oldKeys
      {
        var k :| k in oldKeys;
        config := config.(actionLog := config.actionLog - {k});
        oldKeys := oldKeys - {k};
      }
      assert config.actionLog == Purged(log0, cutoff);
    }

    /**
     * `record_action`: today's count of `t` goes up by exactly one, every other
     * count of today stays, and then the days before `today - 7` are purged.
     */
    method RecordAction(t: string, today: Day) returns (info: RecordInfo)
      modifies this
      ensures config == old(config).(actionLog := Purged(Incremented(old(config.actionLog), t, today), today - KeepDays))
      ensures CountOn(config.actionLog, today, t) == CountOn(old(config.actionLog), today, t) + 1
      ensures forall u :: u != t ==> CountOn(config.actionLog, today, u) == CountOn(old(config.actionLog), today, u)
      ensures forall d, u :: today - KeepDays <= d && d != today ==>
                CountOn(config.actionLog, d, u) == CountOn(old(config.actionLog), d, u)
      ensures forall d :: d in config.actionLog ==> d >= today - KeepDays
      ensures info.todayCount == CountOn(old(config.actionLog), today, t) + 1
      ensures info.remaining == CheckLimit(config, t, today).remaining
    {
      var current := CountOn(config.actionLog, today, t);
      config := config.(actionLog := Incremented(config.actionLog, t, today));
      CleanupOldLogs(today, KeepDays);
      var limitInfo := CheckLimit(config, t, today);
      info := RecordInfo(t, current + 1, limitInfo.remaining);
    }

    /** `add_scheduled_post`: appends one planned entry and changes nothing else. */
    method AddScheduledPost(date: string, topic: string, noteType: string, notes: string)
      returns (entry: CalendarEntry)
      modifies this
      ensures entry == CalendarEntry(date, topic, noteType, notes, "planned")
      ensures config == old(config).(contentCalendar := old(config.contentCalendar) + [entry])
    {
      entry := CalendarEntry(date, topic, noteType, notes, "planned");
      config := config.(contentCalendar := config.contentCalendar + [entry]);
    }

    /**
     * `_get_upcoming_posts`: the calendar entries whose date parses to a day from
     * `today` to `today + days`, ordered by their date strings; entries whose
     * date does not parse are skipped.
     */
    method GetUpcomingPosts(today: Day, days: int) returns (posts: seq<CalendarEntry>)
      ensures SortedByDate(posts)
      ensures multiset(posts) == multiset(Upcoming(config.contentCalendar, today, days))
      ensures forall e :: e in posts <==> e in config.contentCalendar && InWindow(e, today, days)
      ensures posts == SortByDate(Upcoming(config.contentCalendar, today, days))
      ensures forall d :: DatedOn(posts, d) == DatedOn(Upcoming(config.contentCalendar, today, days), d)
    {
      var calendar := config.contentCalendar;
      var upcoming: seq<CalendarEntry> := [];
      var i := 0;
      while i < |calendar|
        invariant 0 <= i <= |calendar|
        invariant upcoming == Upcoming(calendar[..i], today, days)
      {
        assert calendar[..i + 1][..i] == calendar[..i];
        if InWindow(calendar[i], today, days) {
          upcoming := upcoming + [calendar[i]];
        }
        i := i + 1;
      }
      assert calendar[..i] == calendar;
      posts := SortByDate(upcoming);
      SortByDateSorted(upcoming);
      SortByDatePermutes(upcoming);
      forall d ensures DatedOn(posts, d) == DatedOn(upcoming, d) {
        SortByDateStable(upcoming, d);
      }
      forall e ensures e in posts <==> e in upcoming {
        assert e in posts <==> e in multiset(posts);
        assert e in upcoming <==> e in multiset(upcoming);
      }
    }
  }
}
