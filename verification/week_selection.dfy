/** The date-range strings `"start;end"` and the choice of the week shown first. */
module WeekSelection {
  import opened Wrappers
  import opened Strings

  /** `const [startDate, endDate] = range.split(";")`: the first two pieces; the
      second is `undefined` (None) when the string has no ';'. */
  function DateRange(range: string): (r: (string, Option<string>))
    ensures r.1.Some? <==> ';' in range
    ensures ';' !in r.0
    ensures r.1.Some? ==> ';' !in r.1.value
  {
    var parts := Split(range, ';');
    SplitCount(range, ';');
    OccurrencesInString(range, ';');
    (parts[0], if |parts| >= 2 then Some(parts[1]) else None)
  }

  lemma {:induction false} OccurrencesInString(s: string, c: char)
    ensures Occurrences(s, c) > 0 <==> c in s
    decreases |s|
  {
    if |s| > 0 {
      OccurrencesInString(s[1..], c);
      assert s == [s[0]] + s[1..];
    }
  }

  /** A range written from two ';'-free dates reads back as those two dates. */
  lemma DateRangeRoundTrip(start: string, end: string)
    requires ';' !in start && ';' !in end
    ensures DateRange(start + ";" + end) == (start, Some(end))
  {
    var parts := [start, end];
    assert Join(parts, ';') == start + ";" + end by {
      assert parts[1..] == [end];
    }
    SplitJoin(parts, ';');
  }

  /** The week ends on or after `today`: its end date is a valid date no earlier than
      today; an invalid end date compares false. */
  predicate EndsOnOrAfter(week: string, today: int, parse: string -> Option<int>)
    requires ';' in week
  {
    var end := parse(DateRange(week).1.value);
    end.Some? && today <= end.value
  }

  /** A week written `start;end` ends on or after today exactly when its second date
      parses to a day no earlier than today; the first date plays no part. */
  lemma EndsOnOrAfterRange(start: string, end: string, today: int, parse: string -> Option<int>)
    requires ';' !in start && ';' !in end
    ensures ';' in start + ";" + end
    ensures EndsOnOrAfter(start + ";" + end, today, parse) <==> parse(end).Some? && today <= parse(end).value
  {
    assert (start + ";" + end)[|start|] == ';';
    DateRangeRoundTrip(start, end);
  }

  /** The scan reached index `i`: every earlier week has an end date and ends before today. */
  ghost predicate PassedOver(weeks: seq<string>, i: nat, today: int, parse: string -> Option<int>)
    requires i <= |weeks|
  {
    forall j :: 0 <= j < i ==> ';' in weeks[j] && !EndsOnOrAfter(weeks[j], today, parse)
  }

  /** The week shown first: a week of the table, none (an empty table leaves the
      range `undefined`), or a thrown TypeError (the scan reached a week without ';'). */
  datatype WeekPick = Picked(week: string) | NoWeek | Throws

  /** `mlbWeeks.find(week => today <= end of week) || mlbWeeks[0]`: the first week
      whose end date is on or after today, otherwise the first week. */
  method StartingWeek(weeks: seq<string>, today: int, parse: string -> Option<int>) returns (r: WeekPick)
    ensures r.NoWeek? <==> |weeks| == 0
    ensures r.Throws? <==>
      exists i :: 0 <= i < |weeks| && PassedOver(weeks, i, today, parse) && ';' !in weeks[i]
    ensures r.Picked? ==>
      || (exists i :: 0 <= i < |weeks| && PassedOver(weeks, i, today, parse) && ';' in weeks[i]
                      && EndsOnOrAfter(weeks[i], today, parse) && r.week == weeks[i])
      || (|weeks| > 0 && PassedOver(weeks, |weeks|, today, parse) && r.week == weeks[0])
  {
    var i := 0;
    while i < |weeks|
      invariant 0 <= i <= |weeks|
      invariant PassedOver(weeks, i, today, parse)
    {
      if ';' !in weeks[i] {
        return Throws;
      }
      if EndsOnOrAfter(weeks[i], today, parse) {
        assert forall j :: 0 <= j < |weeks| && PassedOver(weeks, j, today, parse) ==> j <= i;
        return Picked(weeks[i]);
      }
      i := i + 1;
    }
    if |weeks| == 0 {
      return NoWeek;
    }
    return Picked(weeks[0]);
  }
}
