/**
 * The watering calendar of the browser (public/js/config_riego.js): a schedule maps
 * Spanish weekday names to `{enabled, time: "HH:MM"}`; the page finds the next
 * watering, fires a notification at the exact minute, builds the schedule from the
 * form, removes a day, and keeps a capped history of saved schedules. The clock is
 * the pair (day of week, minute of day) and `localStorage` a map from key to text.
 */
module Watering {
  import opened JsValues
  import opened JsText

  /** `DIAS_SEMANA`: Sunday is day 0, as `Date.getDay` counts. */
  const Days: seq<string> := ["domingo", "lunes", "martes", "miercoles", "jueves", "viernes", "sabado"]
  const MinutesPerDay := 1440
  const MinutesPerWeek := 7 * 1440

  /** One day's entry; stored entries are taken to be objects of this shape. */
  datatype Entry = Entry(enabled: bool, time: string)

  /** A property of the schedule object, in the object's key order. */
  datatype Slot = Slot(day: string, entry: Entry)

  type Schedule = seq<Slot>

  /** `schedule[day]`: a later property of the same name wins, as in `JSON.parse`. */
  function Lookup(s: Schedule, day: string): Option<Entry> {
    if s == [] then None
    else if s[|s| - 1].day == day then Some(s[|s| - 1].entry)
    else Lookup(s[..|s| - 1], day)
  }

  /**
   * A day is absent exactly when no slot carries it; otherwise its entry is that of
   * the last slot carrying it.
   */
  lemma {:induction false} LookupFindsLast(s: Schedule, day: string)
    ensures Lookup(s, day).None? <==> forall k :: 0 <= k < |s| ==> s[k].day != day
    ensures Lookup(s, day).Some? ==>
      exists k :: 0 <= k < |s| && s[k] == Slot(day, Lookup(s, day).value) && forall j :: k < j < |s| ==> s[j].day != day
  {
    if s != [] {
      var init := s[..|s| - 1];
      var last := s[|s| - 1];
      assert forall k :: 0 <= k < |init| ==> s[k] == init[k];
      LookupFindsLast(init, day);
      if last.day != day {
        assert Lookup(s, day) == Lookup(init, day);
        if Lookup(s, day).Some? {
          var k :| 0 <= k < |init| && init[k] == Slot(day, Lookup(init, day).value)
                   && forall j :: k < j < |init| ==> init[j].day != day;
          assert s[k] == Slot(day, Lookup(s, day).value) && forall j :: k < j < |s| ==> s[j].day != day;
        }
      } else {
        assert s[|s| - 1] == Slot(day, Lookup(s, day).value);
      }
    }
  }

  /** `delete schedule[day]` */
  function Remove(s: Schedule, day: string): (r: Schedule)
    ensures forall k :: 0 <= k < |r| ==> r[k] in s && r[k].day != day
    ensures |r| <= |s|
  {
    if s == [] then []
    else Remove(s[..|s| - 1], day) + (if s[|s| - 1].day == day then [] else [s[|s| - 1]])
  }

  /** Deleting a day leaves every other day's entry as it was. */
  lemma {:induction false} RemoveLookup(s: Schedule, day: string, other: string)
    ensures Lookup(Remove(s, day), day) == None
    ensures other != day ==> Lookup(Remove(s, day), other) == Lookup(s, other)
  {
    if s != [] {
      var init := s[..|s| - 1];
      RemoveLookup(init, day, other);
      var r := Remove(s, day);
      if s[|s| - 1].day != day {
        assert r[..|r| - 1] == Remove(init, day);
      } else {
        assert r == Remove(init, day);
      }
    }
  }

  /** The position of a day name in the week, -1 for any other text. */
  function DayIndex(name: string): int {
    if name == "domingo" then 0
    else if name == "lunes" then 1
    else if name == "martes" then 2
    else if name == "miercoles" then 3
    else if name == "jueves" then 4
    else if name == "viernes" then 5
    else if name == "sabado" then 6
    else -1
  }

  /** The seven day names are distinct: each is found at its own position. */
  lemma DaysDistinct(i: nat, j: nat)
    requires i < 7 && j < 7 && i != j
    ensures Days[i] != Days[j]
  {
    assert forall k :: 0 <= k < 7 ==> DayIndex(Days[k]) == k;
  }

  // ------------------------------------------------------------ times of day

  /** `Number(piece)` for the pieces of a time: digits only, the empty text being 0. */
  function TimePiece(s: string): Option<nat> {
    if AllDigits(s) then Some(DigitsValue(s)) else None
  }

  /**
   * `const [hours, minutes] = time.split(':').map(Number); hours * 60 + minutes`:
   * None stands for NaN (no second piece, or a piece that is not a number).
   */
  function ParseTime(time: string): Option<nat> {
    var i := IndexOf(time, ':');
    if i == |time| then None
    else
      var rest := time[i + 1..];
      match (TimePiece(time[..i]), TimePiece(rest[..IndexOf(rest, ':')]))
      case (Some(h), Some(m)) => Some(h * 60 + m)
      case _ => None
  }

  /** The zero-padded "HH:MM" the page builds from the clock. */
  function ClockText(hour: nat, minute: nat): string {
    PadStart2(hour) + ":" + PadStart2(minute)
  }

  /** A well-formed time input value: two digits, a colon, two digits, within a day. */
  predicate IsClockText(t: string) {
    && |t| == 5 && t[2] == ':'
    && AllDigits(t[..2]) && AllDigits(t[3..])
    && DigitsValue(t[..2]) < 24 && DigitsValue(t[3..]) < 60
  }

  lemma DigitCharValue(c: char)
    requires IsDigit(c)
    ensures DigitChar(DigitValue(c)) == c
  {
  }

  /** A two-digit text is the zero-padded text of its own value. */
  lemma PadStart2OfDigits(t: string)
    requires |t| == 2 && AllDigits(t)
    ensures PadStart2(DigitsValue(t)) == t
  {
    var a := DigitValue(t[0]);
    var b := DigitValue(t[1]);
    TwoDigitsValue(t);
    var n := a * 10 + b;
    assert DigitsValue(t) == n;
    DigitCharValue(t[1]);
    if a == 0 {
      assert t[0] == '0';
      assert PadStart2(n) == ['0'] + NatText(b) == ['0', DigitChar(b)];
    } else {
      DigitCharValue(t[0]);
      NatTextTwoDigits(a, b);
      assert PadStart2(n) == NatText(n);
    }
    assert t == [t[0], t[1]];
  }

  /** Every well-formed time is the clock text of its hours and minutes. */
  lemma ClockTextOfParts(t: string)
    requires IsClockText(t)
    ensures t == ClockText(DigitsValue(t[..2]), DigitsValue(t[3..]))
  {
    PadStart2OfDigits(t[..2]);
    PadStart2OfDigits(t[3..]);
    assert t == t[..2] + ":" + t[3..];
  }

  /** The clock text of a time of day reads back as that minute of the day. */
  lemma ParseClockText(hour: nat, minute: nat)
    requires hour < 24 && minute < 60
    ensures IsClockText(ClockText(hour, minute))
    ensures ParseTime(ClockText(hour, minute)) == Some(hour * 60 + minute)
  {
    var a := PadStart2(hour);
    var b := PadStart2(minute);
    PadStart2Value(hour);
    PadStart2Value(minute);
    var t := ClockText(hour, minute);
    assert t[..2] == a && t[3..] == b && t[2] == ':';
    assert IndexOf(t, ':') == 2 by {
      assert !IsDigit(':') && IsDigit(t[0]) && IsDigit(t[1]);
    }
    var rest := t[3..];
    assert IndexOf(rest, ':') == 2 by {
      assert IsDigit(rest[0]) && IsDigit(rest[1]);
    }
    assert rest[..2] == b;
  }

  // ------------------------------------------------------------ next watering

  /** The minute of the day a day's entry waters at, when that day is enabled and its time reads. */
  function TimeOf(s: Schedule, i: nat): Option<nat>
    requires i < 7
  {
    match Lookup(s, Days[i])
    case Some(e) => if e.enabled then ParseTime(e.time) else None
    case None => None
  }

  /**
   * Whole days from today to day i: the wrap-around difference, with today's own
   * time at or before now rolled a week forward.
   */
  function DayDiff(i: nat, today: nat, time: int, now: int): (d: int)
    requires i < 7 && today < 7
    ensures 0 <= d <= 7
    ensures d == 0 <==> i == today && time > now
    ensures d == 7 <==> i == today && time <= now
    ensures i != today ==> d == (i - today + 7) % 7
  {
    var d := i - today;
    var d := if d < 0 then d + 7 else d;
    if d == 0 && time <= now then 7 else d
  }

  /** `totalMinDiff` for day i, when that day takes part. */
  function Until(s: Schedule, i: nat, today: nat, now: int): Option<int>
    requires i < 7 && today < 7
  {
    match TimeOf(s, i)
    case Some(time) => Some(DayDiff(i, today, time, now) * MinutesPerDay + (time - now))
    case None => None
  }

  /** `totalMinDiff` of every day of the week, Sunday first. */
  function Diffs(s: Schedule, today: nat, now: int): (d: seq<Option<int>>)
    requires today < 7
    ensures |d| == 7
  {
    seq(7, i requires 0 <= i < 7 => Until(s, i, today, now))
  }

  /** Entry j passes the `totalMinDiff > 0` test. */
  predicate Positive(d: seq<Option<int>>, j: nat)
    requires j < |d|
  {
    d[j].Some? && d[j].value > 0
  }

  /**
   * The index the scan over the first k entries keeps: a positive entry replaces the
   * kept one only when strictly smaller, so the earliest wins a tie.
   */
  function FirstMin(d: seq<Option<int>>, k: nat): (b: Option<nat>)
    requires k <= |d|
    ensures b.Some? ==> b.value < k && Positive(d, b.value)
  {
    if k == 0 then None
    else
      var b := FirstMin(d, k - 1);
      if Positive(d, k - 1) && (b.None? || d[k - 1].value < d[b.value].value) then Some(k - 1) else b
  }

  /** `nextWatering`: the day, its time text and the day difference. */
  datatype NextWatering = NextWatering(dia: string, time: string, dayDiff: int)

  /** The `nextWatering` object for the kept day, if any. */
  function NextOf(s: Schedule, today: nat, now: int, best: Option<nat>): Option<NextWatering>
    requires today < 7
  {
    match best
    case Some(i) =>
      if i < 7 && Lookup(s, Days[i]).Some? && TimeOf(s, i).Some? then
        Some(NextWatering(Days[i], Lookup(s, Days[i]).value.time, DayDiff(i, today, TimeOf(s, i).value, now)))
      else None
    case None => None
  }

  /**
   * `calculateNextWatering`: scans the week from Sunday and keeps the day with the
   * strictly smallest positive number of minutes until it waters.
   */
  method CalculateNextWatering(s: Schedule, today: nat, now: int) returns (next: Option<NextWatering>)
    requires today < 7
    ensures next == NextOf(s, today, now, FirstMin(Diffs(s, today, now), 7))
  {
    ghost var d := Diffs(s, today, now);
    ghost var best: Option<nat> := None;
    next := None;
    var minDiff: Option<int> := None;
    var index := 0;
    while index < 7
      invariant 0 <= index <= 7
      invariant best == FirstMin(d, index)
      invariant next == NextOf(s, today, now, best)
      invariant minDiff.Some? <==> best.Some?
      invariant minDiff.Some? ==> minDiff.value == d[best.value].value
    {
      var kept;
      minDiff, next, kept := ConsiderDay(s, today, now, index, minDiff, next);
      if kept {
        best := Some(index);
      }
      index := index + 1;
    }
  }

  /**
   * One day of the scan: an enabled day whose time reads, with a positive
   * `totalMinDiff` strictly below the best so far, becomes `nextWatering`.
   */
  method ConsiderDay(s: Schedule, today: nat, now: int, index: nat, minDiff: Option<int>, next: Option<NextWatering>)
    returns (minDiff': Option<int>, next': Option<NextWatering>, kept: bool)
    requires today < 7 && index < 7
    ensures var u := Until(s, index, today, now);
      kept <==> u.Some? && u.value > 0 && (minDiff.None? || u.value < minDiff.value)
    ensures kept ==> minDiff' == Until(s, index, today, now) && next' == NextOf(s, today, now, Some(index))
    ensures !kept ==> minDiff' == minDiff && next' == next
  {
    minDiff', next', kept := minDiff, next, false;
    var dia := Days[index];
    var entry := Lookup(s, dia);
    if entry.Some? && entry.value.enabled {
      var time := ParseTime(entry.value.time);
      if time.Some? {
        var dayDiff := index - today;
        if dayDiff < 0 {
          dayDiff := dayDiff + 7;
        }
        if dayDiff == 0 && time.value <= now {
          dayDiff := 7;
        }
        var totalMinDiff := dayDiff * 24 * 60 + (time.value - now);
        assert Until(s, index, today, now) == Some(totalMinDiff);
        if totalMinDiff > 0 && (minDiff.None? || totalMinDiff < minDiff.value) {
          minDiff' := Some(totalMinDiff);
          next' := Some(NextWatering(dia, entry.value.time, dayDiff));
          kept := true;
        }
      }
    }
  }

  /**
   * The kept index is the first among the positive entries with the smallest value,
   * and nothing is kept exactly when no entry is positive.
   */
  lemma {:induction false} FirstMinIsEarliestMinimum(d: seq<Option<int>>, k: nat)
    requires k <= |d|
    ensures FirstMin(d, k).None? <==> forall j :: 0 <= j < k ==> !Positive(d, j)
    ensures var b := FirstMin(d, k);
      b.Some? ==>
        && (forall j :: 0 <= j < k && Positive(d, j) ==> d[b.value].value <= d[j].value)
        && (forall j :: 0 <= j < b.value && Positive(d, j) ==> d[b.value].value < d[j].value)
  {
    if k > 0 {
      FirstMinIsEarliestMinimum(d, k - 1);
    }
  }

  /** A well-formed time (before 24:00) is between one minute and one week away. */
  lemma UntilWithinWeek(s: Schedule, i: nat, today: nat, now: int)
    requires i < 7 && today < 7 && 0 <= now < MinutesPerDay
    requires TimeOf(s, i).Some? && TimeOf(s, i).value < MinutesPerDay
    ensures 1 <= Until(s, i, today, now).value <= MinutesPerWeek
  {
  }

  /** With well-formed times, every enabled day passes the `> 0` test. */
  lemma EnabledDaysArePositive(s: Schedule, i: nat, today: nat, now: int)
    requires i < 7 && today < 7 && 0 <= now < MinutesPerDay
    requires TimeOf(s, i).Some? && TimeOf(s, i).value < MinutesPerDay
    ensures Positive(Diffs(s, today, now), i)
  {
    UntilWithinWeek(s, i, today, now);
  }

  /** With well-formed times, two different days are never equally far away. */
  lemma NoTies(s: Schedule, i: nat, j: nat, today: nat, now: int)
    requires i < 7 && j < 7 && i != j && today < 7 && 0 <= now < MinutesPerDay
    requires TimeOf(s, i).Some? && TimeOf(s, i).value < MinutesPerDay
    requires TimeOf(s, j).Some? && TimeOf(s, j).value < MinutesPerDay
    ensures Until(s, i, today, now) != Until(s, j, today, now)
  {
    var di := DayDiff(i, today, TimeOf(s, i).value, now);
    var dj := DayDiff(j, today, TimeOf(s, j).value, now);
    assert di != dj;
  }

  /**
   * `calculateNextWatering` with well-formed times: nothing is found exactly when no
   * day is enabled with a readable time; otherwise the day found is enabled and every
   * other enabled day is strictly further away.
   */
  lemma NextWateringIsSoonest(s: Schedule, today: nat, now: int)
    requires today < 7 && 0 <= now < MinutesPerDay
    requires forall i :: 0 <= i < 7 && TimeOf(s, i).Some? ==> TimeOf(s, i).value < MinutesPerDay
    ensures var b := FirstMin(Diffs(s, today, now), 7);
      && (b.None? <==> forall i :: 0 <= i < 7 ==> TimeOf(s, i).None?)
      && (b.Some? ==> TimeOf(s, b.value).Some? && forall i :: 0 <= i < 7 && i != b.value && TimeOf(s, i).Some? ==>
            Until(s, b.value, today, now).value < Until(s, i, today, now).value)
  {
    var d := Diffs(s, today, now);
    FirstMinIsEarliestMinimum(d, 7);
    var b := FirstMin(d, 7);
    forall i | 0 <= i < 7 && TimeOf(s, i).Some?
      ensures Positive(d, i)
    {
      UntilWithinWeek(s, i, today, now);
    }
    if b.Some? {
      forall i | 0 <= i < 7 && i != b.value && TimeOf(s, i).Some?
        ensures Until(s, b.value, today, now).value < Until(s, i, today, now).value
      {
        NoTies(s, b.value, i, today, now);
      }
    }
  }

  // ------------------------------------------------------------ the label

  function UpperChar(c: char): char {
    if 'a' <= c <= 'z' then (c as int - 32) as char else c
  }

  /** `s.charAt(0).toUpperCase() + s.slice(1)` on ASCII text. */
  function Capitalize(s: string): (r: string)
    ensures |r| == |s|
    ensures s != [] ==> r[1..] == s[1..]
    ensures s != [] ==> r[0] == UpperChar(s[0])
  {
    if s == [] then [] else [UpperChar(s[0])] + s[1..]
  }

  /** What the next-watering panel says. */
  datatype Announcement =
    | Today(time: string)
    | Tomorrow(day: string, time: string)
    | OnDay(day: string, time: string)
    | NothingScheduled

  function Announce(next: Option<NextWatering>): (a: Announcement)
    ensures a.NothingScheduled? <==> next.None?
    ensures a.Today? <==> next.Some? && next.value.dayDiff == 0
    ensures a.Tomorrow? <==> next.Some? && next.value.dayDiff == 1
    ensures !a.NothingScheduled? ==> a.time == next.value.time
    ensures a.Tomorrow? || a.OnDay? ==> a.day == Capitalize(next.value.dia)
  {
    match next
    case None => NothingScheduled
    case Some(n) =>
      if n.dayDiff == 0 then Today(n.time)
      else if n.dayDiff == 1 then Tomorrow(Capitalize(n.dia), n.time)
      else OnDay(Capitalize(n.dia), n.time)
  }

  // ------------------------------------------------------------ notification

  /** `checkWateringTime`: today's entry is enabled and its text is exactly the padded clock. */
  function ShouldNotify(s: Schedule, today: nat, hour: nat, minute: nat): bool
    requires today < 7
  {
    match Lookup(s, Days[today])
    case Some(e) => e.enabled && e.time == ClockText(hour, minute)
    case None => false
  }

  /**
   * For a well-formed time, the exact text match fires precisely at the minute the
   * next-watering scan reads from that time.
   */
  lemma NotifyIffDueNow(s: Schedule, today: nat, hour: nat, minute: nat)
    requires today < 7 && hour < 24 && minute < 60
    requires Lookup(s, Days[today]).Some? && IsClockText(Lookup(s, Days[today]).value.time)
    ensures ShouldNotify(s, today, hour, minute) <==> TimeOf(s, today) == Some(hour * 60 + minute)
  {
    var t := Lookup(s, Days[today]).value.time;
    var h := DigitsValue(t[..2]);
    var m := DigitsValue(t[3..]);
    ClockTextOfParts(t);
    ParseClockText(h, m);
    ParseClockText(hour, minute);
    if h * 60 + m == hour * 60 + minute {
      assert h == hour && m == minute;
    }
  }

  /** At the minute a notification fires, the scan already counts that day a full week away. */
  lemma DueNowIsAWeekAway(s: Schedule, today: nat, hour: nat, minute: nat)
    requires today < 7 && hour < 24 && minute < 60
    requires ShouldNotify(s, today, hour, minute)
    ensures Until(s, today, today, hour * 60 + minute) == Some(MinutesPerWeek)
  {
    var now := hour * 60 + minute;
    ParseClockText(hour, minute);
    assert TimeOf(s, today) == Some(now);
    assert DayDiff(today, today, now, now) == 7;
  }

  // ------------------------------------------------------------ the form

  /** One day's controls: the checkbox (missing counts as unchecked) and the time input's value. */
  datatype DayInput = DayInput(checked: bool, time: string)

  predicate Chosen(inputs: seq<DayInput>, i: nat)
    requires i < |inputs|
  {
    inputs[i].checked && inputs[i].time != ""
  }

  /** The schedule the submit handler builds from the first n days of the form. */
  function Selection(inputs: seq<DayInput>, n: nat): (r: Schedule)
    requires |inputs| == 7 && n <= 7
    ensures |r| <= n
  {
    if n == 0 then []
    else Selection(inputs, n - 1) + (if Chosen(inputs, n - 1) then [Slot(Days[n - 1], Entry(true, inputs[n - 1].time))] else [])
  }

  /** The submit handler's loop: the schedule and `diasSeleccionados`. */
  method BuildSchedule(inputs: seq<DayInput>) returns (schedule: Schedule, count: nat)
    requires |inputs| == 7
    ensures schedule == Selection(inputs, 7) && count == |schedule|
  {
    schedule := [];
    count := 0;
    for i := 0 to 7
      invariant schedule == Selection(inputs, i) && count == |schedule|
    {
      if inputs[i].checked && inputs[i].time != "" {
        schedule := schedule + [Slot(Days[i], Entry(true, inputs[i].time))];
        count := count + 1;
      }
    }
  }

  /**
   * The built schedule holds exactly the checked days with a time, each enabled
   * with the time typed, in week order.
   */
  lemma {:induction false} SelectionLookup(inputs: seq<DayInput>, n: nat, i: nat)
    requires |inputs| == 7 && n <= 7 && i < 7
    ensures Lookup(Selection(inputs, n), Days[i]) ==
      (if i < n && Chosen(inputs, i) then Some(Entry(true, inputs[i].time)) else None)
  {
    if n > 0 {
      SelectionLookup(inputs, n - 1, i);
      var r := Selection(inputs, n);
      if Chosen(inputs, n - 1) {
        assert r[..|r| - 1] == Selection(inputs, n - 1);
        if i != n - 1 {
          DaysDistinct(i, n - 1);
        }
      } else {
        assert r == Selection(inputs, n - 1);
      }
    }
  }

  /** Every day of a built schedule is enabled. */
  lemma {:induction false} SelectionEnabled(inputs: seq<DayInput>, n: nat)
    requires |inputs| == 7 && n <= 7
    ensures forall k :: 0 <= k < |Selection(inputs, n)| ==> Selection(inputs, n)[k].entry.enabled
  {
    if n > 0 {
      SelectionEnabled(inputs, n - 1);
    }
  }

  // ------------------------------------------------------------ history entries

  /** One entry of the saved-schedule history. */
  datatype HistoryEntry = HistoryEntry(date: string, dias: nat, horarios: string)

  const MaxHistory := 50

  /** `Object.keys(schedule).filter(dia => schedule[dia].enabled)`, with the entries. */
  function EnabledSlots(s: Schedule): (r: Schedule)
    ensures |r| <= |s|
    ensures forall k :: 0 <= k < |r| ==> r[k] in s && r[k].entry.enabled
    ensures forall k :: 0 <= k < |s| && s[k].entry.enabled ==> s[k] in r
  {
    if s == [] then [] else (if s[0].entry.enabled then [s[0]] else []) + EnabledSlots(s[1..])
  }

  /** The filter keeps key order: filtering a concatenation concatenates the filtered parts. */
  lemma {:induction false} EnabledSlotsAppend(a: Schedule, b: Schedule)
    ensures EnabledSlots(a + b) == EnabledSlots(a) + EnabledSlots(b)
  {
    if a == [] {
      assert a + b == b;
    } else {
      assert (a + b)[0] == a[0] && (a + b)[1..] == a[1..] + b;
      EnabledSlotsAppend(a[1..], b);
    }
  }

  /** The `enabled` flag of each slot, in key order. */
  function EnabledFlags(s: Schedule): (f: seq<bool>)
    ensures |f| == |s| && forall k :: 0 <= k < |s| ==> f[k] == s[k].entry.enabled
  {
    seq(|s|, k requires 0 <= k < |s| => s[k].entry.enabled)
  }

  /** The filter keeps as many slots as there are enabled flags. */
  lemma {:induction false} EnabledSlotsCount(s: Schedule)
    ensures |EnabledSlots(s)| == multiset(EnabledFlags(s))[true]
  {
    if s != [] {
      EnabledSlotsCount(s[1..]);
      assert EnabledFlags(s) == [s[0].entry.enabled] + EnabledFlags(s[1..]);
    }
  }

  /** `${dia}: ${time}` for each slot. */
  function SlotTexts(s: Schedule): (r: seq<string>)
    ensures |r| == |s|
    ensures forall k :: 0 <= k < |s| ==> r[k] == s[k].day + ": " + s[k].entry.time
  {
    if s == [] then [] else [s[0].day + ": " + s[0].entry.time] + SlotTexts(s[1..])
  }

  /** The entry `addToHistory` prepends for a saved schedule. */
  function HistoryEntryOf(s: Schedule, date: string): (e: HistoryEntry)
    ensures e.dias == multiset(EnabledFlags(s))[true] && e.date == date
  {
    EnabledSlotsCount(s);
    var enabled := EnabledSlots(s);
    HistoryEntry(date, |enabled|, Join(SlotTexts(enabled), ", "))
  }

  /** A schedule with every day enabled keeps all its days in the history entry. */
  lemma {:induction false} EnabledSlotsOfEnabled(s: Schedule)
    requires forall k :: 0 <= k < |s| ==> s[k].entry.enabled
    ensures EnabledSlots(s) == s
  {
    if s != [] {
      EnabledSlotsOfEnabled(s[1..]);
    }
  }

  /** The history after one `unshift` and at most one `pop`. */
  function Pushed(history: seq<HistoryEntry>, e: HistoryEntry): seq<HistoryEntry> {
    var h := [e] + history;
    if |h| > MaxHistory then h[..|h| - 1] else h
  }

  /**
   * The new entry comes first, the old ones follow in order, the oldest dropped
   * only when the list was full, and a list within the cap stays within it.
   */
  lemma PushedKeepsCap(history: seq<HistoryEntry>, e: HistoryEntry)
    ensures var r := Pushed(history, e);
      && r[0] == e
      && r[1..] == history[..|r| - 1]
      && |r| == (if |history| >= MaxHistory then |history| else |history| + 1)
      && (|history| <= MaxHistory ==> |r| <= MaxHistory)
  {
    var r := Pushed(history, e);
    assert r[1..] == history[..|r| - 1];
  }

  // ------------------------------------------------------------ the browser's storage

  const ScheduleKey := "orquideas_schedule"
  const HistoryKey := "orquideas_schedule_history"

  /** `JSON.stringify` and `JSON.parse` for the two stored values; None is a parse error. */
  datatype Codec = Codec(
    encodeSchedule: Schedule -> string,
    decodeSchedule: string -> Option<Schedule>,
    encodeHistory: seq<HistoryEntry> -> string,
    decodeHistory: string -> Option<seq<HistoryEntry>>)

  /** `loadSchedule`: a missing or empty item, or one that does not parse, gives `{}`. */
  function LoadSchedule(items: map<string, string>, codec: Codec): (s: Schedule)
    ensures ScheduleKey !in items || items[ScheduleKey] == "" ==> s == []
    ensures ScheduleKey in items && items[ScheduleKey] != "" && codec.decodeSchedule(items[ScheduleKey]).Some? ==>
      s == codec.decodeSchedule(items[ScheduleKey]).value
    ensures ScheduleKey in items && codec.decodeSchedule(items[ScheduleKey]).None? ==> s == []
  {
    if ScheduleKey in items && items[ScheduleKey] != "" then
      match codec.decodeSchedule(items[ScheduleKey])
      case Some(s) => s
      case None => []
    else []
  }

  /** `localStorage.getItem(HISTORY_KEY) || '[]'`: an absent or empty item reads as the empty list. */
  function HistoryText(items: map<string, string>): string {
    if HistoryKey in items && items[HistoryKey] != "" then items[HistoryKey] else "[]"
  }

  /** What `submit` ended with. */
  datatype SubmitOutcome = NoDaysSelected | Saved(count: nat) | HistoryUnreadable(count: nat)

  class LocalStorage {
    var items: map<string, string>

    constructor (items: map<string, string>)
      ensures this.items == items
    {
      this.items := items;
    }

    /** `saveSchedule` */
    method SaveSchedule(s: Schedule, codec: Codec)
      modifies this
      ensures items == old(items)[ScheduleKey := codec.encodeSchedule(s)]
    {
      items := items[ScheduleKey := codec.encodeSchedule(s)];
    }

    /**
     * `removeScheduleDay(dia)`: when the stored schedule has that day, it is saved
     * again without it; otherwise nothing is written.
     */
    method RemoveScheduleDay(dia: string, codec: Codec) returns (removed: bool)
      modifies this
      ensures var s := LoadSchedule(old(items), codec);
        && (removed <==> Lookup(s, dia).Some?)
        && (!removed ==> items == old(items))
        && (removed ==> items == old(items)[ScheduleKey := codec.encodeSchedule(Remove(s, dia))])
    {
      var schedule := LoadSchedule(items, codec);
      removed := Lookup(schedule, dia).Some?;
      if removed {
        schedule := Remove(schedule, dia);
        SaveSchedule(schedule, codec);
      }
    }

    /**
     * `addToHistory`: reads the list (an absent or empty item is `[]`), puts the new
     * entry first, pops the last one when there are more than 50, and stores it. A
     * stored list that does not parse makes the handler throw before any write.
     */
    method AddToHistory(s: Schedule, date: string, codec: Codec) returns (written: bool)
      modifies this
      ensures var text := HistoryText(old(items));
        && (written <==> codec.decodeHistory(text).Some?)
        && (!written ==> items == old(items))
        && (written ==> items == old(items)[HistoryKey := codec.encodeHistory(Pushed(codec.decodeHistory(text).value, HistoryEntryOf(s, date)))])
    {
      var text := HistoryText(items);
      var parsed := codec.decodeHistory(text);
      if parsed.None? {
        return false;
      }
      var history := parsed.value;
      history := [HistoryEntryOf(s, date)] + history;
      if |history| > MaxHistory {
        history := history[..|history| - 1];
      }
      items := items[HistoryKey := codec.encodeHistory(history)];
      written := true;
    }

    /**
     * The form's `submit`: with no chosen day nothing is stored; otherwise the
     * schedule is saved and then recorded in the history. A stored history that
     * does not parse makes `addToHistory` throw after the schedule was saved, so
     * only the schedule key changes then.
     */
    method Submit(inputs: seq<DayInput>, date: string, codec: Codec) returns (outcome: SubmitOutcome)
      requires |inputs| == 7
      modifies this
      ensures outcome.NoDaysSelected? <==> Selection(inputs, 7) == []
      ensures outcome.NoDaysSelected? ==> items == old(items)
      ensures !outcome.NoDaysSelected? ==>
        && outcome.count == |Selection(inputs, 7)|
        && ScheduleKey in items && items[ScheduleKey] == codec.encodeSchedule(Selection(inputs, 7))
      ensures !outcome.NoDaysSelected? ==>
        var saved := old(items)[ScheduleKey := codec.encodeSchedule(Selection(inputs, 7))];
        var history := codec.decodeHistory(HistoryText(saved));
        && (outcome.Saved? <==> history.Some?)
        && (history.Some? ==> items == saved[HistoryKey :=
              codec.encodeHistory(Pushed(history.value, HistoryEntryOf(Selection(inputs, 7), date)))])
        && (history.None? ==> items == saved)
    {
      var schedule, count := BuildSchedule(inputs);
      if count == 0 {
        return NoDaysSelected;
      }
      SaveSchedule(schedule, codec);
      var written := AddToHistory(schedule, date, codec);
      outcome := if written then Saved(count) else HistoryUnreadable(count);
    }
  }

  /** A schedule saved with a faithful codec loads back unchanged. */
  lemma SaveThenLoad(items: map<string, string>, s: Schedule, codec: Codec)
    requires codec.decodeSchedule(codec.encodeSchedule(s)) == Some(s)
    requires codec.encodeSchedule(s) != ""
    ensures LoadSchedule(items[ScheduleKey := codec.encodeSchedule(s)], codec) == s
  {
  }

  /** The history entry of a submitted schedule counts exactly the days chosen. */
  lemma SubmittedEntryCountsChosenDays(inputs: seq<DayInput>, date: string)
    requires |inputs| == 7
    ensures HistoryEntryOf(Selection(inputs, 7), date).dias == |Selection(inputs, 7)|
  {
    SelectionEnabled(inputs, 7);
    EnabledSlotsOfEnabled(Selection(inputs, 7));
  }
}
