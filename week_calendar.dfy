/** The week strip (src/components/couple/WeekCalendar.tsx): the seven days
    from this week's Monday to its Sunday, and which of them is today. Days
    are day numbers (days since 1970-01-01, a Thursday); a weekday is
    `getDay()`'s number, 0 for Sunday to 6 for Saturday. */
module WeekCalendar {

  /** The weekday of a day number. */
  function Weekday(day: int): (w: int)
    ensures 0 <= w < 7
  {
    (day + 4) % 7
  }

  /** `mondayOffset`: how many days back this week's Monday is (as a
      negative number), Sunday counting as the end of the week. */
  function MondayOffset(currentDay: int): (r: int)
    requires 0 <= currentDay < 7
    ensures -6 <= r <= 0
    ensures currentDay == 0 ==> r == -6
    ensures currentDay == 1 ==> r == 0
  {
    if currentDay == 0 then -6 else 1 - currentDay
  }

  /** The index highlighted as today. */
  function TodayIndex(currentDay: int): (r: int)
    requires 0 <= currentDay < 7
    ensures 0 <= r < 7
    ensures r == -MondayOffset(currentDay)
    ensures currentDay == 0 ==> r == 6
  {
    if currentDay == 0 then 6 else currentDay - 1
  }

  /** `weekDates`: the seven days from this week's Monday on. */
  function WeekDates(today: int): (r: seq<int>)
    ensures |r| == 7
    ensures forall i :: 0 <= i < 7 ==> r[i] == today + MondayOffset(Weekday(today)) + i
  {
    seq(7, (i: int) => today + MondayOffset(Weekday(today)) + i)
  }

  /** The strip runs Monday to Sunday, one day apart, and the entry at the
      today index is today. */
  lemma WeekRunsMondayToSunday(today: int)
    ensures WeekDates(today)[TodayIndex(Weekday(today))] == today
    ensures forall i :: 0 <= i < 7 ==> Weekday(WeekDates(today)[i]) == (i + 1) % 7
  {
    var d := Weekday(today);
    var monday := today + MondayOffset(d);
    assert Weekday(monday) == 1 by {
      assert (today + 4) % 7 == d;
      assert monday + 4 == (today + 4) + MondayOffset(d);
    }
    forall i | 0 <= i < 7 ensures Weekday(WeekDates(today)[i]) == (i + 1) % 7 {
      assert WeekDates(today)[i] + 4 == (monday + 4) + i;
    }
  }

  /** The selected day of the strip. */
  class WeekCalendarState {
    var selectedDay: int

    /** Thursday is selected at first. */
    constructor ()
      ensures selectedDay == 3
    {
      selectedDay := 3;
    }

    /** A click selects that day. */
    method Select(index: int)
      requires 0 <= index < 7
      modifies this
      ensures selectedDay == index
    {
      selectedDay := index;
    }
  }
}
