/** The week table: one header cell per calendar day of the range, today's column,
    and one row per team of the schedule map, in the map's order. Dates are day
    numbers; `parse` reads a "yyyy-mm-dd" string as the start of that day (None for
    an invalid date) and `format` renders a day as "LL-dd" (month-day). */
module ScheduleTable {
  import opened Wrappers
  import opened OrderedMaps
  import opened ScheduleData
  import opened ScheduleRow
  import opened WeekSelection

  /** Every day from `first` through `last`, inclusive and ascending; empty when
      `last` is before `first` (an invalid interval splits into nothing). */
  function DaysBetween(first: int, last: int): (days: seq<int>)
    ensures |days| == if last < first then 0 else last - first + 1
    ensures forall i :: 0 <= i < |days| ==> days[i] == first + i
    decreases last - first
  {
    if last < first then [] else [first] + DaysBetween(first + 1, last)
  }

  /** A day is listed exactly when it lies in the range. */
  lemma DaysBetweenMembers(first: int, last: int, d: int)
    ensures d in DaysBetween(first, last) <==> first <= d <= last
  {
    var days := DaysBetween(first, last);
    if first <= d <= last {
      assert days[d - first] == d;
    }
  }

  /** The header labels of the range `"start;end"`: one `format(d)` per day from the
      start through the end date; empty when either date is invalid; None when the
      range has no ';' (reading the missing end date throws). */
  function DayLabels(range: string, parse: string -> Option<int>, format: int -> string): (r: Option<seq<string>>)
    ensures r.None? <==> ';' !in range
    ensures r.Some? && (parse(DateRange(range).0).None? || parse(DateRange(range).1.value).None?) ==> r.value == []
    ensures r.Some? && parse(DateRange(range).0).Some? && parse(DateRange(range).1.value).Some? ==>
      var first := parse(DateRange(range).0).value;
      var last := parse(DateRange(range).1.value).value;
      && |r.value| == (if last < first then 0 else last - first + 1)
      && forall i :: 0 <= i < |r.value| ==> r.value[i] == format(first + i)
  {
    var (start, end) := DateRange(range);
    if end.None? then None
    else
      match (parse(start), parse(end.value))
      case (Some(first), Some(last)) =>
        var days := DaysBetween(first, last);
        Some(seq(|days|, i requires 0 <= i < |days| => format(days[i])))
      case _ => Some([])
  }

  /** The label matches today when it reads, with the year 2023 in front, as today's date. */
  predicate IsToday(dayLabel: string, today: int, parse: string -> Option<int>)
  {
    parse("2023-" + dayLabel) == Some(today)
  }

  /** For a label the date formatter wrote for day `d` and the parser reads back, the
      label is today's exactly when `d` is today. */
  lemma IsTodayOfDay(d: int, today: int, parse: string -> Option<int>, format: int -> string)
    requires parse("2023-" + format(d)) == Some(d)
    ensures IsToday(format(d), today, parse) <==> d == today
  {
  }

  /** `days.findIndex(...)`: the first index whose label is today, or -1. */
  function TodayIndex(labels: seq<string>, today: int, parse: string -> Option<int>): (r: int)
    ensures -1 <= r < |labels|
    ensures r == -1 <==> forall i :: 0 <= i < |labels| ==> !IsToday(labels[i], today, parse)
    ensures r >= 0 ==> IsToday(labels[r], today, parse) && forall i :: 0 <= i < r ==> !IsToday(labels[i], today, parse)
    decreases |labels|
  {
    if labels == [] then -1
    else if IsToday(labels[0], today, parse) then 0
    else
      var rest := TodayIndex(labels[1..], today, parse);
      assert forall i :: 1 <= i < |labels| ==> labels[i] == labels[1..][i - 1];
      if rest == -1 then -1 else rest + 1
  }

  /** When every day of the range reads back as itself with the year 2023 (a range
      inside the 2023 season), today's column is today's offset from the start, and
      -1 when today is outside the range. */
  lemma TodayIndexIsOffset(first: int, last: int, today: int, parse: string -> Option<int>, format: int -> string)
    requires forall d :: first <= d <= last ==> parse("2023-" + format(d)) == Some(d)
    ensures var days := DaysBetween(first, last);
      TodayIndex(seq(|days|, i requires 0 <= i < |days| => format(days[i])), today, parse)
        == if first <= today <= last then today - first else -1
  {
    var days := DaysBetween(first, last);
    var labels := seq(|days|, i requires 0 <= i < |days| => format(days[i]));
    forall i | 0 <= i < |labels|
      ensures IsToday(labels[i], today, parse) <==> first + i == today
    {
      assert labels[i] == format(first + i);
      IsTodayOfDay(first + i, today, parse, format);
    }
    var r := TodayIndex(labels, today, parse);
    if first <= today <= last {
      assert IsToday(labels[today - first], today, parse);
      assert r != -1;
      assert r == today - first;
    } else {
      assert r == -1;
    }
  }

  /** The rendered table: a blank corner cell then the day labels, and the rows. */
  datatype TableView = TableView(header: seq<string>, rows: seq<Row>)

  /** Every list of the map holds single games and `null` only. */
  ghost predicate NoPairsIn(data: TeamMap)
  {
    forall k :: k in data.values ==> NoPairs(data.values[k])
  }

  /** One row per key of the map, in the map's order; None when some row throws. */
  function Rows(keys: seq<string>, data: TeamMap, abbrs: OrderedMap<string>): (r: Option<seq<Row>>)
    requires forall i :: 0 <= i < |keys| ==> keys[i] in data.values
    requires NoPairsIn(data)
    ensures r.Some? <==> forall i :: 0 <= i < |keys| ==> RowFor(keys[i], data.values[keys[i]], abbrs).Some?
    ensures r.Some? ==> |r.value| == |keys|
    ensures r.Some? ==> forall i :: 0 <= i < |keys| ==> Some(r.value[i]) == RowFor(keys[i], data.values[keys[i]], abbrs)
    decreases |keys|
  {
    if keys == [] then Some([])
    else
      var last := keys[|keys| - 1];
      match Rows(keys[..|keys| - 1], data, abbrs)
      case None => None
      case Some(front) =>
        match RowFor(last, data.values[last], abbrs)
        case None => None
        case Some(row) => Some(front + [row])
  }

  /** `<ScheduleTable scheduleData={data} dateRange={range} />`. */
  function Table(data: TeamMap, range: string, parse: string -> Option<int>, format: int -> string,
                 abbrs: OrderedMap<string>): (r: Option<TableView>)
    requires Valid(data) && NoPairsIn(data)
    ensures r.Some? <==> DayLabels(range, parse, format).Some? && Rows(data.keys, data, abbrs).Some?
    ensures r.Some? ==>
      && r.value.header == [""] + DayLabels(range, parse, format).value
      && |r.value.rows| == |data.keys|
      && forall i :: 0 <= i < |data.keys| ==>
           r.value.rows[i].abbreviation == Get(abbrs, data.keys[i])
           && |r.value.rows[i].cells| == |data.values[data.keys[i]]|
    ensures r.Some? ==> forall i :: 0 <= i < |data.keys| ==>
      Some(r.value.rows[i]) == RowFor(data.keys[i], data.values[data.keys[i]], abbrs)
  {
    match DayLabels(range, parse, format)
    case None => None
    case Some(labels) =>
      match Rows(data.keys, data, abbrs)
      case None => None
      case Some(rows) => Some(TableView([""] + labels, rows))
  }
}
