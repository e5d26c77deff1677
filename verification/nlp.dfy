/**
 * The rule-based task-sentence parser and the free-slot recommender of
 * src/utils/nlpUtils.ts. The current time is a parameter (`now`), read once
 * per call.
 *
 * `Parse` and `Recommend` are the specifications; the methods
 * `ParseNaturalLanguage` and `RecommendBestTime` run the source's loops and
 * are proved to compute them. The lemmas state what the specifications
 * promise.
 */
module Nlp {
  import opened Wrappers
  import opened Seqs
  import opened Strings
  import opened Dates
  import opened Types

  // ---------------------------------------------------------------------
  // Keyword tables, in declaration order (`Object.entries` keeps the
  // insertion order of these non-numeric keys).
  // ---------------------------------------------------------------------

  const PriorityKeywords: seq<(string, Priority)> := [
    ("重要", High), ("紧急", High), ("优先", High), ("立即", High), ("必须", High),
    ("高优先级", High),
    ("中等", Medium), ("一般", Medium), ("普通", Medium), ("中优先级", Medium),
    ("不急", Low), ("低优先级", Low), ("有空", Low), ("次要", Low), ("不重要", Low)
  ]

  const CategoryKeywords: seq<(string, Category)> := [
    ("工作", Work), ("项目", Work), ("开会", Work), ("汇报", Work), ("客户", Work), ("报告", Work),
    ("个人", Personal), ("私人", Personal), ("家庭", Personal), ("家", Personal),
    ("购物", Shopping), ("买", Shopping), ("采购", Shopping), ("超市", Shopping),
    ("健康", Health), ("医生", Health), ("药", Health), ("锻炼", Health), ("运动", Health),
    ("财务", Finance), ("钱", Finance), ("银行", Finance), ("存款", Finance), ("贷款", Finance), ("投资", Finance),
    ("学习", Education), ("课程", Education), ("班", Education), ("考试", Education), ("研究", Education),
    ("社交", Social), ("聚会", Social), ("朋友", Social), ("约会", Social), ("聚餐", Social)
  ]

  /** Day phrases: a weekday number (0 = Sunday), a next-week day number, or a day offset. */
  const DayOfWeekKeywords: seq<(string, int)> := [
    ("星期一", 1), ("周一", 1), ("下周一", 8), ("下下周一", 15),
    ("星期二", 2), ("周二", 2), ("下周二", 9), ("下下周二", 16),
    ("星期三", 3), ("周三", 3), ("下周三", 10), ("下下周三", 17),
    ("星期四", 4), ("周四", 4), ("下周四", 11), ("下下周四", 18),
    ("星期五", 5), ("周五", 5), ("下周五", 12), ("下下周五", 19),
    ("星期六", 6), ("周六", 6), ("下周六", 13), ("下下周六", 20),
    ("星期日", 0), ("周日", 0), ("下周日", 14), ("下下周日", 21),
    ("星期天", 0), ("周天", 0), ("下周天", 14), ("下下周天", 21),
    ("今天", 0), ("明天", 1), ("后天", 2), ("大后天", 3)
  ]

  const TimeKeywords: seq<(string, nat)> := [
    ("早上", 8), ("早晨", 8), ("上午", 10), ("中午", 12),
    ("下午", 14), ("傍晚", 17), ("晚上", 19), ("深夜", 22)
  ]

  // ---------------------------------------------------------------------
  // First match in a table: the `for ... of Object.entries(...)` scans with
  // `input.includes(keyword)` and `break`.
  // ---------------------------------------------------------------------

  function FirstMatchFrom<V>(table: seq<(string, V)>, input: string, i: nat): (r: Option<nat>)
    requires i <= |table|
    ensures r.Some? ==> i <= r.value < |table| && Contains(input, table[r.value].0)
    ensures r.Some? ==> forall j :: i <= j < r.value ==> !Contains(input, table[j].0)
    ensures r.None? ==> forall j :: i <= j < |table| ==> !Contains(input, table[j].0)
    decreases |table| - i
  {
    if i == |table| then None
    else if Contains(input, table[i].0) then Some(i)
    else FirstMatchFrom(table, input, i + 1)
  }

  /** Index of the first entry, in declaration order, whose phrase occurs in `input`. */
  function FirstMatch<V>(table: seq<(string, V)>, input: string): Option<nat> {
    FirstMatchFrom(table, input, 0)
  }

  /** An entry can never be the first match when an earlier entry is a substring of its phrase. */
  lemma Shadowed<V>(table: seq<(string, V)>, input: string, i: nat, j: nat)
    requires i < j < |table| && Contains(table[j].0, table[i].0)
    ensures FirstMatch(table, input) != Some(j)
  {
    if FirstMatch(table, input) == Some(j) {
      ContainsTransitive(input, table[j].0, table[i].0);
    }
  }

  // ---------------------------------------------------------------------
  // The numeric time pattern /(\d{1,2})[点|:|：](\d{0,2})/.
  // ---------------------------------------------------------------------

  predicate IsDigit(c: char) {
    '0' <= c <= '9'
  }

  /** The character class `[点|:|：]`; inside brackets `|` is a literal, so it is a separator too. */
  predicate IsHourSeparator(c: char) {
    c == '点' || c == '|' || c == ':' || c == '：'
  }

  predicate AllDigits(s: string) {
    forall i :: 0 <= i < |s| ==> IsDigit(s[i])
  }

  function Pow10(n: nat): (p: nat)
    ensures p >= 1
  {
    if n == 0 then 1 else 10 * Pow10(n - 1)
  }

  /** `parseInt(s, 10)` of a run of decimal digits; the empty run reads as 0 (the `? : 0` default). */
  function DigitsValue(s: string): (n: nat)
    requires AllDigits(s)
    ensures n < Pow10(|s|)
  {
    if s == [] then 0
    else DigitsValue(s[..|s| - 1]) * 10 + (s[|s| - 1] as int - '0' as int)
  }

  /** Every character of `s[lo..hi]` is a decimal digit. */
  predicate DigitsBetween(s: string, lo: nat, hi: nat)
    requires lo <= hi <= |s|
  {
    forall k :: lo <= k < hi ==> IsDigit(s[k])
  }

  /** A match of the pattern at position `i` with `hourLen` hour digits and `minLen` minute digits. */
  predicate MatchesPattern(s: string, i: nat, hourLen: nat, minLen: nat) {
    && 1 <= hourLen <= 2 && minLen <= 2
    && i + hourLen + 1 + minLen <= |s|
    && DigitsBetween(s, i, i + hourLen)
    && IsHourSeparator(s[i + hourLen])
    && DigitsBetween(s, i + hourLen + 1, i + hourLen + 1 + minLen)
  }

  /** `hourMatch`: where it starts, its two groups' lengths, `hourMatch[0]` and the two parsed numbers. */
  datatype TimeMatch = TimeMatch(start: nat, hourLen: nat, minLen: nat, text: string, hour: nat, minutes: nat)

  /** The hour group `\d{1,2}` followed by a separator at `i`: two digits before one; 0 when neither fits. */
  function HourDigits(s: string, i: nat): (n: nat)
    ensures n <= 2
    ensures n > 0 ==> MatchesPattern(s, i, n, 0)
    ensures n == 1 ==> forall m :: !MatchesPattern(s, i, 2, m)
    ensures n == 0 ==> forall h, m :: !MatchesPattern(s, i, h, m)
  {
    if i + 2 < |s| && IsDigit(s[i]) && IsDigit(s[i + 1]) && IsHourSeparator(s[i + 2]) then 2
    else if i + 1 < |s| && IsDigit(s[i]) && IsHourSeparator(s[i + 1]) then 1
    else 0
  }

  /** The minute group `\d{0,2}` at `m0`: greedy, up to two digits. */
  function MinuteDigits(s: string, m0: nat): (n: nat)
    requires m0 <= |s|
    ensures n <= 2 && m0 + n <= |s| && DigitsBetween(s, m0, m0 + n)
    ensures n < 2 ==> !(m0 + n < |s| && IsDigit(s[m0 + n]))
  {
    if m0 < |s| && IsDigit(s[m0]) then (if m0 + 1 < |s| && IsDigit(s[m0 + 1]) then 2 else 1) else 0
  }

  lemma DigitsSlice(s: string, lo: nat, hi: nat)
    requires lo <= hi <= |s| && DigitsBetween(s, lo, hi)
    ensures AllDigits(s[lo..hi])
  {
  }

  /** `m` is a match of the pattern in `s`: its text is the matched slice and its numbers are the groups read in base 10. */
  predicate MatchReads(s: string, m: TimeMatch) {
    var m0 := m.start + m.hourLen + 1;
    && MatchesPattern(s, m.start, m.hourLen, m.minLen)
    && m.text == s[m.start..m0 + m.minLen]
    && AllDigits(s[m.start..m.start + m.hourLen]) && AllDigits(s[m0..m0 + m.minLen])
    && m.hour == DigitsValue(s[m.start..m.start + m.hourLen])
    && m.minutes == DigitsValue(s[m0..m0 + m.minLen])
  }

  /** The match with the given group lengths at `i`, its numbers read from the groups. */
  function MatchWith(s: string, i: nat, hourLen: nat, minLen: nat): (r: TimeMatch)
    requires MatchesPattern(s, i, hourLen, minLen)
    ensures r.start == i && r.hourLen == hourLen && r.minLen == minLen && MatchReads(s, r)
    ensures r.hour < 100 && r.minutes < 100
  {
    var m0 := i + hourLen + 1;
    DigitsSlice(s, i, i + hourLen);
    DigitsSlice(s, m0, m0 + minLen);
    assert Pow10(2) == 100 && Pow10(1) == 10;
    TimeMatch(i, hourLen, minLen, s[i..m0 + minLen],
              DigitsValue(s[i..i + hourLen]), DigitsValue(s[m0..m0 + minLen]))
  }

  /**
   * The pattern tried at exactly position `i`, with the regular-expression
   * engine's backtracking order: two hour digits before one, and as many
   * minute digits as are there (at most two).
   */
  function MatchAt(s: string, i: nat): (r: Option<TimeMatch>)
    ensures r.None? ==> forall h, m :: !MatchesPattern(s, i, h, m)
    ensures r.Some? ==> r.value.start == i && MatchReads(s, r.value)
    ensures r.Some? ==> && (r.value.hourLen == 1 ==> forall m :: !MatchesPattern(s, i, 2, m))
                        && (r.value.minLen < 2 ==> !MatchesPattern(s, i, r.value.hourLen, r.value.minLen + 1))
    ensures r.Some? ==> r.value.hour < 100 && r.value.minutes < 100
  {
    var hourLen := HourDigits(s, i);
    if hourLen == 0 then None
    else
      var minLen := MinuteDigits(s, i + hourLen + 1);
      Some(MatchWith(s, i, hourLen, minLen))
  }

  function MatchFrom(s: string, i: nat): (r: Option<TimeMatch>)
    ensures r.Some? ==> i <= r.value.start < |s| && MatchAt(s, r.value.start) == r
    ensures r.Some? ==> forall j :: i <= j < r.value.start ==> MatchAt(s, j).None?
    ensures r.None? ==> forall j :: i <= j ==> MatchAt(s, j).None?
    decreases |s| - i
  {
    if i >= |s| then
      None
    else
      match MatchAt(s, i)
      case Some(m) => Some(m)
      case None => MatchFrom(s, i + 1)
  }

  /** `input.match(hourRegex)`: the leftmost match, if any. */
  function MatchHourPattern(s: string): (r: Option<TimeMatch>)
    ensures r.Some? ==> MatchAt(s, r.value.start) == r && forall j :: 0 <= j < r.value.start ==> MatchAt(s, j).None?
    ensures r.None? ==> forall j: nat :: MatchAt(s, j).None?
  {
    MatchFrom(s, 0)
  }

  // ---------------------------------------------------------------------
  // Day phrases.
  // ---------------------------------------------------------------------

  predicate IsNextWeekPhrase(name: string) {
    StartsWith(name, "下周") || StartsWith(name, "下下周")
  }

  /** The number of days `setDate(today.getDate() + n)` adds for a matched day phrase. */
  function DayOffset(dayName: string, daysToAdd: int, today: DateTime): int {
    if IsNextWeekPhrase(dayName) then daysToAdd
    else if dayName == "今天" then 0
    else if dayName == "明天" then 1
    else if dayName == "后天" then 2
    else if dayName == "大后天" then 3
    else
      var currentDay := Weekday(today.day);
      var dayOfWeek := if daysToAdd == 0 then 7 else daysToAdd;
      var daysToTargetDay := dayOfWeek - currentDay;
      if daysToTargetDay <= 0 then daysToTargetDay + 7 else daysToTargetDay
  }

  // ---------------------------------------------------------------------
  // The specification of parseNaturalLanguage, step by step.
  // ---------------------------------------------------------------------

  /** The parser's result: the fields of `Partial<Task>` it always sets. */
  datatype Parsed = Parsed(title: string, dueDate: DateTime, priority: Priority, category: Category)

  /** The priority: the value of a phrase that occurs in the input, medium when none occurs. */
  function PriorityOf(input: string): (p: Priority)
    ensures (forall k :: 0 <= k < |PriorityKeywords| ==> !Contains(input, PriorityKeywords[k].0)) ==> p == Medium
    ensures p != Medium ==> exists k :: 0 <= k < |PriorityKeywords| && Contains(input, PriorityKeywords[k].0) && PriorityKeywords[k].1 == p
  {
    match FirstMatch(PriorityKeywords, input)
    case Some(k) => PriorityKeywords[k].1
    case None => Medium
  }

  /** The category: the value of a phrase that occurs in the input, other when none occurs. */
  function CategoryOf(input: string): (c: Category)
    ensures (forall k :: 0 <= k < |CategoryKeywords| ==> !Contains(input, CategoryKeywords[k].0)) ==> c == Other
    ensures c != Other ==> exists k :: 0 <= k < |CategoryKeywords| && Contains(input, CategoryKeywords[k].0) && CategoryKeywords[k].1 == c
  {
    match FirstMatch(CategoryKeywords, input)
    case Some(k) => CategoryKeywords[k].1
    case None => Other
  }

  /** The title once the priority phrase is removed (the category phrase is never removed). */
  function TitleAfterPriority(input: string): (title: string)
    ensures Trim(title) == title && |title| <= |input|
  {
    match FirstMatch(PriorityKeywords, input)
    case Some(k) => CutPhrase(Trim(input), PriorityKeywords[k].0)
    case None => TrimIdempotent(input); Trim(input)
  }

  /** The date a day phrase resolves to, with the current clock time; `None` without a day phrase. */
  function DateOf(input: string, now: DateTime): (r: Option<DateTime>)
    ensures r.Some? <==> exists k :: 0 <= k < |DayOfWeekKeywords| && Contains(input, DayOfWeekKeywords[k].0)
    ensures r.Some? ==> r.value.hour == now.hour && r.value.minute == now.minute && r.value.second == now.second && r.value.ms == now.ms
  {
    match FirstMatch(DayOfWeekKeywords, input)
    case Some(k) => Some(DateFor(k, now))
    case None => None
  }

  /** The date the `k`-th day phrase moves `now` to, keeping the clock time. */
  function DateFor(k: nat, now: DateTime): DateTime
    requires k < |DayOfWeekKeywords|
  {
    AddDays(now, DayOffset(DayOfWeekKeywords[k].0, DayOfWeekKeywords[k].1, now))
  }

  function TitleAfterDay(input: string): (title: string)
    ensures Trim(title) == title && |title| <= |input|
  {
    match FirstMatch(DayOfWeekKeywords, input)
    case Some(k) => CutPhrase(TitleAfterPriority(input), DayOfWeekKeywords[k].0)
    case None => TitleAfterPriority(input)
  }

  /** The local `hour`: the numeric hour, else the time phrase's hour, else -1. */
  function HourOf(input: string): int {
    match MatchHourPattern(input)
    case Some(m) => m.hour
    case None =>
      match FirstMatch(TimeKeywords, input)
      case Some(k) => TimeKeywords[k].1
      case None => -1
  }

  /** `dueDate` after the time step: a numeric time wins over a time phrase; both apply to the resolved date or to today. */
  function TimedDate(input: string, now: DateTime): (r: Option<DateTime>)
    ensures r.None? <==> DateOf(input, now).None? && HourOf(input) == -1
    ensures HourOf(input) == -1 ==> r == DateOf(input, now)
    ensures HourOf(input) != -1 ==> r.Some? && r.value.day >= DateOf(input, now).GetOr(now).day && r.value.second == 0 && r.value.ms == 0
  {
    var base := DateOf(input, now).GetOr(now);
    match MatchHourPattern(input)
    case Some(m) => Some(SetHours(base, m.hour, m.minutes))
    case None =>
      match FirstMatch(TimeKeywords, input)
      case Some(k) => Some(SetHours(base, TimeKeywords[k].1, 0))
      case None => DateOf(input, now)
  }

  /** The final title: trimmed, and never longer than the input. */
  function TitleAfterTime(input: string): (title: string)
    ensures Trim(title) == title && |title| <= |input|
  {
    match MatchHourPattern(input)
    case Some(m) => CutPhrase(TitleAfterDay(input), m.text)
    case None =>
      match FirstMatch(TimeKeywords, input)
      case Some(k) => CutPhrase(TitleAfterDay(input), TimeKeywords[k].0)
      case None => TitleAfterDay(input)
  }

  /** The final `dueDate`: with neither a date nor an hour, today at 09:00; with an hour but no date (not reachable), now. */
  function DueDate(input: string, now: DateTime): (r: DateTime)
    ensures DateOf(input, now).None? && HourOf(input) == -1 ==> r.day == now.day && r.hour == 9 && r.minute == 0 && r.second == 0 && r.ms == 0
    ensures DateOf(input, now).Some? && HourOf(input) == -1 ==> r == DateOf(input, now).value
    ensures HourOf(input) != -1 ==> r.second == 0 && r.ms == 0
  {
    match TimedDate(input, now)
    case Some(d) => d
    case None => if HourOf(input) == -1 then SetHours(now, 9, 0) else now
  }

  /** What `parseNaturalLanguage(input)` returns when the clock reads `now`. */
  function Parse(input: string, now: DateTime): (r: Parsed)
    ensures Trim(r.title) == r.title && |r.title| <= |input|
  {
    Parsed(TitleAfterTime(input), DueDate(input, now), PriorityOf(input), CategoryOf(input))
  }

  // ---------------------------------------------------------------------
  // parseNaturalLanguage, as the source runs it.
  // ---------------------------------------------------------------------

  /**
   * One `for (const [keyword, value] of Object.entries(table))` scan with
   * `if (input.includes(keyword)) { ...; break; }`: the index of the entry
   * whose branch runs.
   */
  method ScanTable<V>(table: seq<(string, V)>, input: string) returns (found: Option<nat>)
    ensures found == FirstMatch(table, input)
  {
    found := None;
    for i := 0 to |table|
      invariant forall j :: 0 <= j < i ==> !Contains(input, table[j].0)
    {
      if Contains(input, table[i].0) {
        found := Some(i);
        assert FirstMatch(table, input) == found by { FirstMatchIs(table, input, i); }
        return;
      }
    }
  }

  /** A table with an entry that occurs in the input has a first match, no later than that entry. */
  lemma FirstMatchAtMost<V>(table: seq<(string, V)>, input: string, j: nat)
    requires j < |table| && Contains(input, table[j].0)
    ensures FirstMatch(table, input).Some? && FirstMatch(table, input).value <= j
  {
  }

  lemma FirstMatchIs<V>(table: seq<(string, V)>, input: string, k: nat)
    requires k < |table| && Contains(input, table[k].0)
    requires forall j :: 0 <= j < k ==> !Contains(input, table[j].0)
    ensures FirstMatch(table, input) == Some(k)
  {
  }

  /** The body of the day loop for the matched phrase: the date it moves `today` to. */
  method ResolveDay(dayName: string, daysToAdd: int, today: DateTime) returns (targetDate: DateTime)
    ensures targetDate == AddDays(today, DayOffset(dayName, daysToAdd, today))
  {
    targetDate := today;
    if StartsWith(dayName, "下周") || StartsWith(dayName, "下下周") {
      targetDate := AddDays(targetDate, daysToAdd);
    } else if dayName == "今天" {
    } else if dayName == "明天" {
      targetDate := AddDays(targetDate, 1);
    } else if dayName == "后天" {
      targetDate := AddDays(targetDate, 2);
    } else if dayName == "大后天" {
      targetDate := AddDays(targetDate, 3);
    } else {
      var currentDay := Weekday(today.day);
      var dayOfWeek := if daysToAdd == 0 then 7 else daysToAdd;
      var daysToTargetDay := dayOfWeek - currentDay;
      if daysToTargetDay <= 0 {
        daysToTargetDay := daysToTargetDay + 7;
      }
      targetDate := AddDays(targetDate, daysToTargetDay);
    }
  }

  /** The priority loop: the first priority phrase sets the priority and is cut from the trimmed title. */
  method PriorityStep(input: string) returns (priority: Priority, title: string)
    ensures priority == PriorityOf(input) && title == TitleAfterPriority(input)
  {
    title := Trim(input);
    priority := Medium;
    var found := ScanTable(PriorityKeywords, input);
    if found.Some? {
      var (keyword, value) := PriorityKeywords[found.value];
      priority := value;
      title := CutPhrase(title, keyword);
    }
  }

  /** The category loop: the first category phrase sets the category; the title keeps it. */
  method CategoryStep(input: string) returns (category: Category)
    ensures category == CategoryOf(input)
  {
    category := Other;
    var found := ScanTable(CategoryKeywords, input);
    if found.Some? {
      category := CategoryKeywords[found.value].1;
    }
  }

  /** The day loop on the title left by the priority loop: the first day phrase sets the due date and is cut from the title. */
  method DayStep(input: string, title: string, now: DateTime) returns (dueDate: Option<DateTime>, title': string)
    requires title == TitleAfterPriority(input)
    ensures dueDate == DateOf(input, now) && title' == TitleAfterDay(input)
  {
    title' := title;
    dueDate := None;
    var found := ScanTable(DayOfWeekKeywords, input);
    if found.Some? {
      var (dayName, daysToAdd) := DayOfWeekKeywords[found.value];
      var targetDate := ResolveDay(dayName, daysToAdd, now);
      dueDate := Some(targetDate);
      title' := CutPhrase(title', dayName);
    }
  }

  /**
   * The time step on the title and due date left by the day loop: a numeric
   * time, else the first time phrase, sets the hour on the due date (or on
   * today) and is cut from the title.
   */
  method TimeStep(input: string, title: string, dueDate: Option<DateTime>, now: DateTime)
    returns (hour: int, dueDate': Option<DateTime>, title': string)
    requires title == TitleAfterDay(input) && dueDate == DateOf(input, now)
    ensures hour == HourOf(input) && dueDate' == TimedDate(input, now) && title' == TitleAfterTime(input)
  {
    hour := -1;
    dueDate' := dueDate;
    title' := title;
    var hourMatch := MatchHourPattern(input);
    if hourMatch.Some? {
      hour := hourMatch.value.hour;
      var minutes := hourMatch.value.minutes;
      if dueDate'.Some? {
        dueDate' := Some(SetHours(dueDate'.value, hourMatch.value.hour, minutes));
      } else {
        dueDate' := Some(SetHours(now, hourMatch.value.hour, minutes));
      }
      title' := CutPhrase(title', hourMatch.value.text);
    } else {
      var found := ScanTable(TimeKeywords, input);
      if found.Some? {
        var (keyword, value) := TimeKeywords[found.value];
        hour := value;
        if dueDate'.Some? {
          dueDate' := Some(SetHours(dueDate'.value, value, 0));
        } else {
          dueDate' := Some(SetHours(now, value, 0));
        }
        title' := CutPhrase(title', keyword);
      }
    }
  }

  /** The parser as the source runs it: each step works on the title and due date the previous one left. */
  method ParseNaturalLanguage(input: string, now: DateTime) returns (result: Parsed)
    ensures result == Parse(input, now)
  {
    var priority, title := PriorityStep(input);
    var category := CategoryStep(input);
    var dueDate, dayTitle := DayStep(input, title, now);
    var hour, timedDate, timeTitle := TimeStep(input, dayTitle, dueDate, now);
    if timedDate.None? {
      var d := now;
      if hour == -1 {
        d := SetHours(d, 9, 0);
      }
      timedDate := Some(d);
    }
    result := Parsed(timeTitle, timedDate.value, priority, category);
  }

  // ---------------------------------------------------------------------
  // What the parser promises.
  // ---------------------------------------------------------------------

  /** Without any phrase or numeric time: the trimmed input, medium, other, today at 09:00:00.000. */
  lemma ParseDefaults(input: string, now: DateTime)
    requires FirstMatch(PriorityKeywords, input).None? && FirstMatch(CategoryKeywords, input).None?
    requires FirstMatch(DayOfWeekKeywords, input).None? && FirstMatch(TimeKeywords, input).None?
    requires MatchHourPattern(input).None?
    ensures Parse(input, now) == Parsed(Trim(input), DateTime(now.day, 9, 0, 0, 0), Medium, Other)
  {
  }

  /** Every category phrase is one or two CJK ideographs, none of them whitespace. */
  lemma CategoryPhraseShape(k: nat)
    requires k < |CategoryKeywords|
    ensures var w := CategoryKeywords[k].0;
      1 <= |w| <= 2 && forall c :: c in w ==> '\U{4E00}' <= c <= '\U{9FFF}'
  {
  }

  /** When some entry of `table` is the first match, `value` is its value and its phrase occurs in `title`. */
  predicate FirstPhraseKept<V(==)>(table: seq<(string, V)>, input: string, title: string, value: V) {
    match FirstMatch(table, input)
    case Some(k) => value == table[k].1 && Contains(title, table[k].0)
    case None => true
  }

  /** With no priority, day or time phrase nothing is cut: the title is the trimmed input. */
  lemma NothingCut(input: string)
    requires FirstMatch(PriorityKeywords, input).None? && FirstMatch(DayOfWeekKeywords, input).None?
    requires FirstMatch(TimeKeywords, input).None? && MatchHourPattern(input).None?
    ensures TitleAfterTime(input) == Trim(input)
  {
  }

  /**
   * The category phrase stays in the title: with no priority, day or time
   * phrase the title is the trimmed input, which still holds the phrase
   * that set the category.
   */
  lemma CategoryPhraseStaysInTitle(input: string, now: DateTime)
    requires FirstMatch(PriorityKeywords, input).None? && FirstMatch(DayOfWeekKeywords, input).None?
    requires FirstMatch(TimeKeywords, input).None? && MatchHourPattern(input).None?
    ensures Parse(input, now).title == Trim(input)
    ensures FirstPhraseKept(CategoryKeywords, input, Parse(input, now).title, Parse(input, now).category)
  {
    var r := Parse(input, now);
    assert r.title == TitleAfterTime(input) && r.category == CategoryOf(input);
    NothingCut(input);
    if FirstMatch(CategoryKeywords, input).Some? {
      var k := FirstMatch(CategoryKeywords, input).value;
      var w := CategoryKeywords[k].0;
      CategoryPhraseShape(k);
      HanPhraseSurvivesTrim(input, w);
    }
  }

  /** A phrase of CJK ideographs, none of them whitespace, survives trimming. */
  lemma HanPhraseSurvivesTrim(s: string, w: string)
    requires Contains(s, w) && w != []
    requires forall c :: c in w ==> '\U{4E00}' <= c <= '\U{9FFF}'
    ensures Contains(Trim(s), w)
  {
    assert w[0] in w && w[|w| - 1] in w;
    ContainsAfterTrim(s, w);
  }

  /**
   * "高优先级", "中优先级", "低优先级" and "不重要" are never the matched
   * priority phrase: each contains an earlier phrase ("优先" or "重要").
   */
  lemma DeadPriorityPhrases(input: string)
    ensures FirstMatch(PriorityKeywords, input) !in {Some(5), Some(9), Some(11), Some(14)}
  {
    ContainsSuffix("不", "重要");
    assert PriorityKeywords[14].0 == "不" + "重要";
    Shadowed(PriorityKeywords, input, 0, 14);
    forall j | j in {5, 9, 11}
      ensures FirstMatch(PriorityKeywords, input) != Some(j)
    {
      assert PriorityKeywords[j].0 == [PriorityKeywords[j].0[0]] + "优先" + "级";
      ContainsPrefix([PriorityKeywords[j].0[0]] + "优先", "级");
      ContainsSuffix([PriorityKeywords[j].0[0]], "优先");
      ContainsTransitive(PriorityKeywords[j].0, [PriorityKeywords[j].0[0]] + "优先", "优先");
      Shadowed(PriorityKeywords, input, 2, j);
    }
  }

  /** Asking for low priority with "不重要" or "低优先级" yields high priority: "重要" or "优先" matches first. */
  lemma LowPhrasesYieldHigh(input: string)
    requires Contains(input, "不重要") || Contains(input, "低优先级")
    ensures PriorityOf(input) == High
  {
    if Contains(input, "不重要") {
      ContainsSuffix("不", "重要");
      assert "不重要" == "不" + "重要";
      ContainsTransitive(input, "不重要", "重要");
      FirstMatchAtMost(PriorityKeywords, input, 0);
    } else {
      assert "低优先级" == "低优先" + "级" && "低优先" == "低" + "优先";
      ContainsPrefix("低优先", "级");
      ContainsSuffix("低", "优先");
      ContainsTransitive("低优先级", "低优先", "优先");
      ContainsTransitive(input, "低优先级", "优先");
      FirstMatchAtMost(PriorityKeywords, input, 2);
    }
  }

  /** "下周X" extends the "周X" just before it. */
  lemma NextWeekEntry(k: nat)
    requires k < 32 && k % 4 == 2
    ensures DayOfWeekKeywords[k].0 == "下" + DayOfWeekKeywords[k - 1].0
  {
    assert k in {2, 6, 10, 14, 18, 22, 26, 30};
  }

  /** "下下周X" extends the "周X" two entries before it. */
  lemma WeekAfterNextEntry(k: nat)
    requires k < 32 && k % 4 == 3
    ensures DayOfWeekKeywords[k].0 == "下下" + DayOfWeekKeywords[k - 2].0
  {
  }

  /** The first two entries of each weekday group are "星期X" and "周X", for weekday numbers 0 to 6. */
  lemma PlainWeekdayEntry(k: nat)
    requires k < 32 && k % 4 < 2
    ensures |DayOfWeekKeywords[k].0| > 0 && DayOfWeekKeywords[k].0[0] in {'星', '周'}
    ensures 0 <= DayOfWeekKeywords[k].1 < 7
  {
  }

  /** A phrase starting with "星" or "周" names no next week and no day offset. */
  lemma WeekdayName(w: string)
    requires |w| > 0 && w[0] in {'星', '周'}
    ensures !IsNextWeekPhrase(w) && w !in {"今天", "明天", "后天", "大后天"}
  {
  }

  /** Every entry other than "下周X", "下下周X" and "大后天" names no next week and is not "大后天". */
  lemma PlainDayEntry(k: nat)
    requires k < 35 && !(k < 32 && k % 4 >= 2)
    ensures !IsNextWeekPhrase(DayOfWeekKeywords[k].0) && DayOfWeekKeywords[k].0 != "大后天"
    ensures k < 32 ==> DayOfWeekKeywords[k].0 !in {"今天", "明天", "后天", "大后天"} && 0 <= DayOfWeekKeywords[k].1 < 7
  {
    if k < 32 {
      PlainWeekdayEntry(k);
      WeekdayName(DayOfWeekKeywords[k].0);
    } else {
      assert |DayOfWeekKeywords[k].0| == 2 && DayOfWeekKeywords[k].0[0] != '下';
    }
  }

  /**
   * The day table is not ordered longest-first: every "下周X" and "下下周X"
   * entry comes after its substring "周X", and "大后天" after "后天". So the
   * next-week branch and the three-day branch are never taken.
   */
  lemma DayPhraseNeverNextWeek(input: string)
    ensures FirstMatch(DayOfWeekKeywords, input).Some? ==>
      var k := FirstMatch(DayOfWeekKeywords, input).value;
      var name := DayOfWeekKeywords[k].0;
      !IsNextWeekPhrase(name) && name != "大后天" && !(k < 32 && k % 4 >= 2) && k != 35
  {
    var r := FirstMatch(DayOfWeekKeywords, input);
    if r.Some? {
      var k := r.value;
      if k < 32 && k % 4 == 2 {
        NextWeekEntry(k);
        ContainsSuffix("下", DayOfWeekKeywords[k - 1].0);
        Shadowed(DayOfWeekKeywords, input, k - 1, k);
      } else if k < 32 && k % 4 == 3 {
        WeekAfterNextEntry(k);
        ContainsSuffix("下下", DayOfWeekKeywords[k - 2].0);
        Shadowed(DayOfWeekKeywords, input, k - 2, k);
      } else if k == 35 {
        assert DayOfWeekKeywords[35].0 == "大" + DayOfWeekKeywords[34].0;
        ContainsSuffix("大", DayOfWeekKeywords[34].0);
        Shadowed(DayOfWeekKeywords, input, 34, 35);
      } else {
        PlainDayEntry(k);
      }
    }
  }

  /** A plain weekday phrase moves 1 to 7 days ahead, onto the named weekday (never today). */
  lemma WeekdayOffset(dayName: string, daysToAdd: int, today: DateTime)
    requires !IsNextWeekPhrase(dayName) && dayName !in {"今天", "明天", "后天", "大后天"}
    requires 0 <= daysToAdd < 7
    ensures 1 <= DayOffset(dayName, daysToAdd, today) <= 7
    ensures (Weekday(today.day) + DayOffset(dayName, daysToAdd, today)) % 7 == daysToAdd
    ensures Weekday(today.day + DayOffset(dayName, daysToAdd, today)) == daysToAdd
  {
    WeekdayShift(today.day, DayOffset(dayName, daysToAdd, today));
  }

  /** The weekday entries "星期X" and "周X" move 1 to 7 days ahead, onto their weekday. */
  lemma WeekdayEntryDate(k: nat, now: DateTime)
    requires k < 32 && k % 4 < 2
    ensures 1 <= DateFor(k, now).day - now.day <= 7
    ensures Weekday(DateFor(k, now).day) == DayOfWeekKeywords[k].1
  {
    var (name, value) := DayOfWeekKeywords[k];
    PlainDayEntry(k);
    WeekdayOffset(name, value, now);
  }

  /** "今天", "明天" and "后天" move 0, 1 and 2 days ahead. */
  lemma RelativeDayEntry(k: nat, now: DateTime)
    requires 32 <= k < 35
    ensures DateFor(k, now).day == now.day + (k - 32)
  {
    assert DayOfWeekKeywords[k].0[0] != '下';
  }

  /** A weekday phrase lands on its weekday, 1 to 7 days ahead (a phrase naming today means next week). */
  lemma WeekdayPhraseResolution(input: string, now: DateTime)
    requires FirstMatch(DayOfWeekKeywords, input).Some? && FirstMatch(DayOfWeekKeywords, input).value < 32
    ensures var k := FirstMatch(DayOfWeekKeywords, input).value;
      && 1 <= DateOf(input, now).value.day - now.day <= 7
      && Weekday(DateOf(input, now).value.day) == DayOfWeekKeywords[k].1
  {
    DayPhraseNeverNextWeek(input);
    WeekdayEntryDate(FirstMatch(DayOfWeekKeywords, input).value, now);
  }

  /**
   * A matched day phrase resolves to today plus 0 to 7 days, keeping the
   * clock time.
   */
  lemma DayPhraseResolution(input: string, now: DateTime)
    requires FirstMatch(DayOfWeekKeywords, input).Some?
    ensures var d := DateOf(input, now).value;
      && now.day <= d.day <= now.day + 7
      && d.hour == now.hour && d.minute == now.minute && d.second == now.second && d.ms == now.ms
  {
    var k := FirstMatch(DayOfWeekKeywords, input).value;
    DayPhraseNeverNextWeek(input);
    if k < 32 {
      WeekdayEntryDate(k, now);
    } else {
      RelativeDayEntry(k, now);
    }
  }

  /**
   * Asking for three days ahead with "大后天" always finds a day phrase, but
   * never the "大后天" entry itself: a relative-day phrase ("后天", or an
   * earlier "今天" or "明天") gives at most two days ahead, and a weekday
   * phrase that matched first gives its weekday, 1 to 7 days ahead.
   */
  lemma ThreeDaysAheadNeverReached(input: string, now: DateTime)
    requires Contains(input, "大后天")
    ensures FirstMatch(DayOfWeekKeywords, input).Some? && FirstMatch(DayOfWeekKeywords, input).value <= 34
    ensures FirstMatch(DayOfWeekKeywords, input).value >= 32 ==> DateOf(input, now).value.day <= now.day + 2
    ensures FirstMatch(DayOfWeekKeywords, input).value < 32 ==> 1 <= DateOf(input, now).value.day - now.day <= 7
  {
    assert "大后天" == "大" + "后天";
    ContainsSuffix("大", "后天");
    ContainsTransitive(input, "大后天", "后天");
    assert DayOfWeekKeywords[34].0 == "后天";
    FirstMatchAtMost(DayOfWeekKeywords, input, 34);
    var k := FirstMatch(DayOfWeekKeywords, input).value;
    if k >= 32 {
      RelativeDayEntry(k, now);
    } else {
      WeekdayPhraseResolution(input, now);
    }
  }

  /**
   * A numeric time wins over any time phrase: hour and minutes come from the
   * leftmost match (minutes 0 when absent), seconds and milliseconds are
   * zeroed, on the resolved date or on today.
   */
  lemma NumericTimeWins(input: string, now: DateTime)
    requires MatchHourPattern(input).Some?
    ensures var m := MatchHourPattern(input).value;
      var base := DateOf(input, now).GetOr(now);
      var due := DueDate(input, now);
      && due.second == 0 && due.ms == 0
      && due.day * 1440 + due.hour * 60 + due.minute == base.day * 1440 + m.hour * 60 + m.minutes
      && (m.hour < 24 && m.minutes < 60 ==> due.day == base.day && due.hour == m.hour && due.minute == m.minutes)
  {
  }

  /** Without a numeric time, the first time phrase sets the hour, on the resolved date or today, at minute 0. */
  lemma TimePhraseApplies(input: string, now: DateTime)
    requires MatchHourPattern(input).None? && FirstMatch(TimeKeywords, input).Some?
    ensures var d := DueDate(input, now);
      && d.day == DateOf(input, now).GetOr(now).day
      && d.hour == TimeKeywords[FirstMatch(TimeKeywords, input).value].1
      && d.minute == 0 && d.second == 0 && d.ms == 0
  {
  }

  /** No time phrase stands for 9 o'clock. */
  lemma TimeKeywordNotNine(k: nat)
    requires k < |TimeKeywords|
    ensures TimeKeywords[k].1 != 9
  {
  }

  /** A day phrase without any time keeps the current clock time on the resolved day. */
  lemma DateOnlyKeepsClock(input: string, now: DateTime)
    requires FirstMatch(DayOfWeekKeywords, input).Some?
    requires MatchHourPattern(input).None? && FirstMatch(TimeKeywords, input).None?
    ensures Parse(input, now).dueDate == DateOf(input, now).value
    ensures Parse(input, now).dueDate.hour == now.hour && Parse(input, now).dueDate.minute == now.minute
  {
  }

  /** A numeric time earlier than the clock, with no day phrase, gives a due date in the past. */
  lemma ParseCanPrecedeNow(input: string, now: DateTime)
    requires FirstMatch(DayOfWeekKeywords, input).None?
    requires MatchHourPattern(input).Some?
    requires MatchHourPattern(input).value.hour < now.hour && MatchHourPattern(input).value.minutes < 60
    ensures IsBefore(Parse(input, now).dueDate, now)
  {
  }

  // ---------------------------------------------------------------------
  // recommendBestTime.
  // ---------------------------------------------------------------------

  const WorkHoursStart := 9
  const WorkHoursEnd := 17

  /** Today, or tomorrow once the clock reads 17:00 or later. */
  function CandidateDay(now: DateTime): (day: int)
    ensures now.day <= day <= now.day + 1
    ensures day == now.day + 1 <==> now.hour >= WorkHoursEnd
  {
    if now.hour >= WorkHoursEnd then now.day + 1 else now.day
  }

  /** Some existing task is due on `day` at hour `h`. */
  predicate HourTaken(tasks: seq<Task>, day: int, h: int) {
    exists t :: t in tasks && t.dueDate.day == day && t.dueDate.hour == h
  }

  /** The `busyHours` set: hours of the tasks due on `day`. */
  function BusyHours(tasks: seq<Task>, day: int): (busy: set<int>)
    ensures forall h :: h in busy <==> HourTaken(tasks, day, h)
  {
    set t | t in tasks && t.dueDate.day == day :: t.dueDate.hour as int
  }

  /** The first hour in `from..WorkHoursEnd` not in `busy`. */
  function FirstFreeHour(busy: set<int>, from: int): (r: Option<int>)
    requires WorkHoursStart <= from <= WorkHoursEnd + 1
    ensures r.Some? ==> from <= r.value <= WorkHoursEnd && r.value !in busy
    ensures r.Some? ==> forall h :: from <= h < r.value ==> h in busy
    ensures r.None? ==> forall h :: from <= h <= WorkHoursEnd ==> h in busy
    decreases WorkHoursEnd + 1 - from
  {
    if from > WorkHoursEnd then None
    else if from !in busy then Some(from)
    else FirstFreeHour(busy, from + 1)
  }

  /**
   * What `recommendBestTime` returns: on the candidate day, the earliest
   * hour from 9 to 17 at which no task is due; when all nine are taken, the
   * next day at 09:00, unchecked. Minutes, seconds and milliseconds are zero.
   */
  function Recommend(tasks: seq<Task>, now: DateTime): (r: DateTime)
    ensures WorkHoursStart <= r.hour <= WorkHoursEnd && r.minute == 0 && r.second == 0 && r.ms == 0
    ensures r.day == CandidateDay(now) || r.day == CandidateDay(now) + 1
    ensures r.day == CandidateDay(now) <==>
      exists h :: WorkHoursStart <= h <= WorkHoursEnd && !HourTaken(tasks, CandidateDay(now), h)
    ensures r.day == CandidateDay(now) ==> !HourTaken(tasks, r.day, r.hour)
    ensures r.day == CandidateDay(now) ==> forall h :: WorkHoursStart <= h < r.hour ==> HourTaken(tasks, r.day, h)
    ensures r.day != CandidateDay(now) ==> r.hour == WorkHoursStart
  {
    var day := CandidateDay(now);
    match FirstFreeHour(BusyHours(tasks, day), WorkHoursStart)
    case Some(h) => DateTime(day, h, 0, 0, 0)
    case None => DateTime(day + 1, WorkHoursStart, 0, 0, 0)
  }

  method RecommendBestTime(taskTitle: string, existingTasks: seq<Task>, now: DateTime) returns (recommendedTime: DateTime)
    ensures recommendedTime == Recommend(existingTasks, now)
  {
    recommendedTime := SetHours(now, WorkHoursStart, 0);
    if now.hour >= WorkHoursEnd {
      recommendedTime := AddDays(recommendedTime, 1);
    }

    var busyHours: set<int> := {};
    for k := 0 to |existingTasks|
      invariant forall h :: h in busyHours <==> HourTaken(existingTasks[..k], recommendedTime.day, h)
    {
      var taskDate := existingTasks[k].dueDate;
      assert existingTasks[..k + 1] == existingTasks[..k] + [existingTasks[k]];
      if taskDate.day == recommendedTime.day {
        busyHours := busyHours + {taskDate.hour};
      }
    }
    assert existingTasks[..|existingTasks|] == existingTasks;
    assert forall h :: h in busyHours <==> h in BusyHours(existingTasks, recommendedTime.day);
    assert busyHours == BusyHours(existingTasks, recommendedTime.day);

    for hour := WorkHoursStart to WorkHoursEnd + 1
      invariant forall h :: WorkHoursStart <= h < hour ==> h in busyHours
    {
      if hour !in busyHours {
        recommendedTime := SetHours(recommendedTime, hour, 0);
        return;
      }
    }

    recommendedTime := AddDays(recommendedTime, 1);
    recommendedTime := SetHours(recommendedTime, WorkHoursStart, 0);
  }

  /** Only the tasks due on the candidate day, completed or not, decide the recommendation. */
  lemma RecommendSeesOnlyCandidateDay(tasks: seq<Task>, now: DateTime)
    ensures Recommend(tasks, now) == Recommend(Filter((t: Task) => t.dueDate.day == CandidateDay(now), tasks), now)
  {
    var day := CandidateDay(now);
    var sameDay := Filter((t: Task) => t.dueDate.day == day, tasks);
    assert forall h :: HourTaken(tasks, day, h) <==> HourTaken(sameDay, day, h);
    assert BusyHours(tasks, day) == BusyHours(sameDay, day);
  }
}
