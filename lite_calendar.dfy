/**
 * The week-paging logic of LiteCalendar.swift: the range gate on selection, the three-way
 * `move(to:)`, the page-before and page-after sources, and the completed-transition handler.
 *
 * The paging host (`UIPageViewController`) is reduced to the page it shows (`center`) and the
 * direction of its last programmatic page change; the delegate is reduced to the list of
 * dates it has been told about.
 */
module LiteCalendar {
  import opened Wrappers
  import opened CalendarExtensions
  import opened DaySelector

  /** `LiteCalendar.Settings`, reduced to the fields the paging logic reads. */
  datatype Settings = Settings(daysInWeek: int, minDate: Option<Date>, maxDate: Option<Date>)

  /** `Settings()`: seven-day weeks, no bounds. */
  const DefaultSettings: Settings := Settings(7, None, None)

  /** The direction argument of `setViewControllers(_:direction:animated:completion:)`. */
  datatype Direction = Forward | Reverse

  // ---------------------------------------------------------------------
  // Swift integer operators
  // ---------------------------------------------------------------------

  /** Swift's `abs` on Int. */
  function Abs(x: int): (r: int)
    ensures r >= 0 && (r == x || r == -x)
  {
    if x < 0 then -x else x
  }

  /** Swift's `%` on Int with a positive divisor: the remainder of truncating division, with
      the sign of the dividend. */
  function SwiftRem(a: int, b: int): (r: int)
    requires b > 0
    ensures -b < r < b
    ensures (a - r) % b == 0
    ensures a >= 0 ==> r >= 0
    ensures a <= 0 ==> r <= 0
  {
    if a >= 0 then
      DivModUnique(a - a % b, b, a / b, 0);
      a % b
    else
      var m := (-a) % b;
      DivModUnique(a + m, b, -((-a) / b), 0);
      -m
  }

  /** Adding whole multiples of the divisor does not change the floored remainder. */
  lemma SameRemainder(x: int, k: int, d: int)
    requires d > 0
    ensures (x + d * k) % d == x % d
  {
    assert x == d * (x / d) + x % d;
    assert x + d * k == d * (x / d + k) + x % d;
    DivModUnique(x + d * k, d, x / d + k, x % d);
  }

  /** The index `move(to:)` computes for a date in an earlier week,
      `abs(daysInWeek + daysFrom % daysInWeek) % daysInWeek`, is the floored modulo. */
  lemma {:induction false} BackwardIndexIsFloorMod(daysFrom: int, daysInWeek: int)
    requires daysFrom < 0 < daysInWeek
    ensures SwiftRem(Abs(daysInWeek + SwiftRem(daysFrom, daysInWeek)), daysInWeek) == daysFrom % daysInWeek
  {
    var r := SwiftRem(daysFrom, daysInWeek);
    var s := daysInWeek + r;
    assert 0 < s <= daysInWeek;
    var q := (daysFrom - r) / daysInWeek;
    assert daysFrom - r == daysInWeek * q + (daysFrom - r) % daysInWeek;
    assert s == daysFrom + daysInWeek * (1 - q);
    SameRemainder(daysFrom, 1 - q, daysInWeek);
  }

  /** The index `move(to:)` computes for a date in a later week, `daysFrom % daysInWeek`, is
      the floored modulo too. */
  lemma ForwardIndexIsFloorMod(daysFrom: int, daysInWeek: int)
    requires 0 <= daysFrom && 0 < daysInWeek
    ensures SwiftRem(daysFrom, daysInWeek) == daysFrom % daysInWeek
  {
  }

  // ---------------------------------------------------------------------
  // Range gates
  // ---------------------------------------------------------------------

  /** `canChange(to:)`: the date is selectable when its end of day is not before the lower
      bound's and not after the upper bound's, so the bounds are inclusive, day by day. */
  function CanChange(settings: Settings, date: Date): (r: bool)
    ensures r <==>
      && (settings.minDate.None? || Day(settings.minDate.value) <= Day(date))
      && (settings.maxDate.None? || Day(date) <= Day(settings.maxDate.value))
  {
    var lower := if settings.minDate.Some? then settings.minDate.value else date;
    var upper := if settings.maxDate.Some? then settings.maxDate.value else date;
    EndOfDayOrder(lower, date);
    EndOfDayOrder(date, upper);
    if
      && (settings.minDate.None? || EndOfDay(settings.minDate.value) <= EndOfDay(date))
      && (settings.maxDate.None? || EndOfDay(settings.maxDate.value) >= EndOfDay(date))
    then true
    else false
  }

  /** The gate of the page-before source: a page starting at `previousDate` exists when there
      is no lower bound or the bound's day is strictly earlier. */
  function CanPageBefore(settings: Settings, previousDate: Date): (r: bool)
    ensures r <==> settings.minDate.None? || Day(settings.minDate.value) < Day(previousDate)
  {
    settings.minDate.None? ||
      (EndOfDayOrder(settings.minDate.value, previousDate);
       EndOfDay(settings.minDate.value) < EndOfDay(previousDate))
  }

  /** The gate of the page-after source: a page starting at `nextDate` exists when there is no
      upper bound or the bound's day is strictly later. */
  function CanPageAfter(settings: Settings, nextDate: Date): (r: bool)
    ensures r <==> settings.maxDate.None? || Day(nextDate) < Day(settings.maxDate.value)
  {
    settings.maxDate.None? ||
      (EndOfDayOrder(nextDate, settings.maxDate.value);
       EndOfDay(settings.maxDate.value) > EndOfDay(nextDate))
  }

  /** Without bounds every date is selectable and every page exists. */
  lemma UnboundedAllowsEverything(settings: Settings, date: Date)
    requires settings.minDate.None? && settings.maxDate.None?
    ensures CanChange(settings, date) && CanPageBefore(settings, date) && CanPageAfter(settings, date)
  {
  }

  /** A date on the lower bound's own day can be selected, but no page starting on that day is
      made by the page-before source; likewise for the upper bound and the page-after source. */
  lemma BoundaryDayAsymmetry(settings: Settings, date: Date)
    requires settings.minDate.None? || Day(settings.minDate.value) <= Day(date)
    requires settings.maxDate.None? || Day(date) <= Day(settings.maxDate.value)
    ensures CanChange(settings, date)
    ensures settings.minDate.Some? && Day(date) == Day(settings.minDate.value) ==> !CanPageBefore(settings, date)
    ensures settings.maxDate.Some? && Day(date) == Day(settings.maxDate.value) ==> !CanPageAfter(settings, date)
  {
  }

  /** Swiping back never reaches the week that holds the lower bound, although the bound
      itself is selectable: the page-before source compares the bound with the first day of
      the week before, strictly. */
  lemma LowerBoundWeekNotPagedTo(settings: Settings, calendar: Calendar, pageStart: Date)
    requires calendar.Valid() && settings.minDate.Some?
    requires settings.maxDate.None? || Day(settings.minDate.value) <= Day(settings.maxDate.value)
    requires BeginningOfWeek(calendar, settings.minDate.value) == AddingWeeks(pageStart, -1)
    ensures CanChange(settings, settings.minDate.value)
    ensures !CanPageBefore(settings, AddingWeeks(pageStart, -1))
  {
    var b := BeginningOfWeek(calendar, settings.minDate.value);
    assert Day(b) <= Day(settings.minDate.value);
  }

  /** With the lower bound at midnight of Monday 1 January 2024 (day 19723): Sunday 31 December
      2023 cannot be selected, any time on 1 January can; from the page of 8 January no earlier
      page is made, from the page of 15 January the page of 8 January is. */
  lemma RangeGateExamples()
    ensures var settings := DefaultSettings.(minDate := Some(Midnight(19723)));
      && !CanChange(settings, Midnight(19722))
      && CanChange(settings, Midnight(19723) + 12 * 3600)
      && !CanPageBefore(settings, AddingWeeks(Midnight(19730), -1))
      && CanPageBefore(settings, AddingWeeks(Midnight(19737), -1))
  {
  }

  /** With seven-day weeks and the centre page on a week start, the index `move(to:)` stores
      (the floored modulo of the day count) is the date's offset in its own week, and the page
      it leaves in the centre (the same page for a day count within it, else a new page at the
      date's week) is the date's own week. */
  lemma {:induction false} MoveIndexIsWeekOffset(calendar: Calendar, start: Date, date: Date)
    requires calendar.Valid() && IsWeekStart(calendar, start)
    ensures var daysFrom := Days(DateOnly(date, calendar), DateOnly(start, calendar));
      var pageStart := if 0 <= daysFrom < 7 then start else BeginningOfWeek(calendar, DateOnly(date, calendar));
      && pageStart == BeginningOfWeek(calendar, date)
      && daysFrom % 7 == Day(date) - Day(pageStart)
  {
    var newDate := DateOnly(date, calendar);
    DateOnlyIsStartOfDay(start, calendar);
    assert DateOnly(start, calendar) == start;
    DaysBetweenDayStarts(newDate, start);
    OffsetFromAnyWeekStart(calendar, start, date);
    SameDaySameWeek(calendar, newDate, date);
    var daysFrom := Days(newDate, start);
    if 0 <= daysFrom < 7 {
      BeginningOfWeekUnique(calendar, date, start);
    }
  }

  // ---------------------------------------------------------------------
  // The widget
  // ---------------------------------------------------------------------

  /** One call of `delegate?.change(to:)`: the date passed, and what the delegate can read from
      the widget at that moment (the selection, the start of the page shown, the highlighted
      index), which fixes where the call falls among the handler's steps. */
  datatype Notice = Notice(date: Date, selection: Date, pageStart: Date, index: int)

  class LiteCalendar {
    const settings: Settings
    const calendar: Calendar
    var selectedDate: Date
    var currentWeekdayIndex: int
    /** `pagingViewController.viewControllers![0]`: the page the host shows. */
    var center: DaySelectorController
    /** The direction of the host's last programmatic page change. */
    var lastDirection: Option<Direction>
    /** The calls of `delegate?.change(to:)`, oldest first. */
    var notified: seq<Notice>

    ghost predicate Valid()
      reads this
    {
      settings.daysInWeek > 0 && calendar.Valid() && 0 <= currentWeekdayIndex
    }

    /** The centre page is the week of the date and highlights the date's offset in it, which is
        the stored index. */
    ghost predicate PageShows(date: Date)
      reads this, center
      requires Valid()
    {
      && center.startDate == BeginningOfWeek(calendar, date)
      && currentWeekdayIndex == Day(date) - Day(center.startDate)
      && center.selectedIndex == currentWeekdayIndex
    }

    /** The page/index consistency the widget relies on: the centre page shows the selection. */
    ghost predicate Consistent()
      reads this, center
      requires Valid()
    {
      PageShows(selectedDate)
    }

    /** `init(settings:calendar:)` with `configurePagingViewController()`: the first page is the
        week of the initial selection (the clock's `now`) and highlights it. */
    constructor (settings: Settings, calendar: Calendar, now: Date)
      requires settings.daysInWeek > 0 && calendar.Valid()
      ensures Valid() && Consistent()
      ensures this.settings == settings && this.calendar == calendar
      ensures selectedDate == now && notified == [] && lastDirection == Some(Forward)
      ensures fresh(center)
      ensures 0 <= currentWeekdayIndex < 7
    {
      this.settings := settings;
      this.calendar := calendar;
      selectedDate := now;
      notified := [];
      var vc := new DaySelectorController(BeginningOfWeek(calendar, now));
      vc.SetSelectedDate(now);
      var start := vc.startDate;
      assert now - start == (Day(now) - Day(start)) * SecondsPerDay + now % SecondsPerDay;
      currentWeekdayIndex := vc.selectedIndex;
      center := vc;
      lastDirection := Some(Forward);
    }

    /** `dateSelectorDidSelectDate(_:)`: a date outside the range changes nothing; otherwise the
        delegate is told, the pages move, and the date becomes the selection. */
    method DateSelectorDidSelectDate(date: Date)
      requires Valid()
      modifies this, center
      ensures Valid()
      ensures !CanChange(settings, date) ==> unchanged(this) && unchanged(old(center))
      ensures center != old(center) ==> unchanged(old(center))
      ensures CanChange(settings, date) ==>
        && notified == old(notified) +
             [Notice(date, old(selectedDate), old(center.startDate), old(currentWeekdayIndex))]
        && selectedDate == date
        && MovedTo(date)
      ensures (CanChange(settings, date) && settings.daysInWeek == 7
               && IsWeekStart(calendar, old(center.startDate))) ==> Consistent()
    {
      if CanChange(settings, date) {
        notified := notified + [Notice(date, selectedDate, center.startDate, currentWeekdayIndex)];
        Move(date);
        selectedDate := date;
      }
    }

    /** What `move(to:)` leaves: with `daysFrom` the day count from the centre page's start to
        the date, the stored index is `daysFrom` modulo the week length in every branch and the
        centre page highlights it; a date within the page updates that page in place, any other
        date replaces it by a new page at the date's week, paged backward or forward. */
    twostate predicate MovedTo(date: Date)
      reads this, center
      requires Valid()
    {
      var newDate := DateOnly(date, calendar);
      var daysFrom := Days(newDate, DateOnly(old(center.startDate), calendar));
      var d := settings.daysInWeek;
      && currentWeekdayIndex == daysFrom % d
      && center.selectedIndex == currentWeekdayIndex
      && if 0 <= daysFrom < d then
           && center == old(center)
           && center.startDate == old(center.startDate)
           && lastDirection == old(lastDirection)
         else
           && fresh(center)
           && center.startDate == BeginningOfWeek(calendar, newDate)
           && lastDirection == Some(if daysFrom < 0 then Reverse else Forward)
    }

    /** `move(to:)`. */
    method Move(date: Date)
      requires Valid()
      modifies this, center
      ensures Valid() && MovedTo(date)
      ensures center != old(center) ==> unchanged(old(center))
      ensures currentWeekdayIndex < settings.daysInWeek
      ensures selectedDate == old(selectedDate) && notified == old(notified)
      ensures IsDayStart(old(center.startDate)) && center == old(center) ==>
        center.SelectedDate() == Some(DateOnly(date, calendar))
      ensures settings.daysInWeek == 7 && IsWeekStart(calendar, old(center.startDate)) ==>
        PageShows(date)
    {
      var newDate := DateOnly(date, calendar);
      var centerView := center;
      var startDate := DateOnly(centerView.startDate, calendar);
      var daysFrom := Days(newDate, startDate);
      var newStartDate := BeginningOfWeek(calendar, newDate);
      var page := new DaySelectorController(newStartDate);
      var daysInWeek := settings.daysInWeek;
      if daysFrom < 0 {
        currentWeekdayIndex := SwiftRem(Abs(daysInWeek + SwiftRem(daysFrom, daysInWeek)), daysInWeek);
        BackwardIndexIsFloorMod(daysFrom, daysInWeek);
        page.selectedIndex := currentWeekdayIndex;
        SetViewControllers(page, Reverse);
        assert center == page && fresh(page) && page.startDate == newStartDate;
      } else if daysFrom > daysInWeek - 1 {
        currentWeekdayIndex := SwiftRem(daysFrom, daysInWeek);
        ForwardIndexIsFloorMod(daysFrom, daysInWeek);
        page.selectedIndex := currentWeekdayIndex;
        SetViewControllers(page, Forward);
        assert center == page && fresh(page) && page.startDate == newStartDate;
      } else {
        currentWeekdayIndex := daysFrom;
        centerView.SetSelectedDate(newDate);
        centerView.selectedIndex := currentWeekdayIndex;
        DivModUnique(daysFrom, daysInWeek, 0, daysFrom);
        if IsDayStart(centerView.startDate) {
          DateOnlyIsStartOfDay(centerView.startDate, calendar);
          DaysBetweenDayStarts(newDate, startDate);
          assert centerView.SelectedDate() == Some(newDate);
        }
      }
      assert currentWeekdayIndex == daysFrom % daysInWeek && center.selectedIndex == currentWeekdayIndex;
      assert MovedTo(date);
      if daysInWeek == 7 && IsWeekStart(calendar, old(centerView.startDate)) {
        ghost var pageStart := center.startDate;
        assert pageStart == if 0 <= daysFrom < 7 then old(centerView.startDate) else newStartDate;
        MoveIndexIsWeekOffset(calendar, old(centerView.startDate), date);
        assert pageStart == BeginningOfWeek(calendar, date) && daysFrom % 7 == Day(date) - Day(pageStart);
      }
    }

    /** `setViewControllers([page], direction:animated:completion:)` on the host. */
    method SetViewControllers(page: DaySelectorController, direction: Direction)
      modifies this
      ensures center == page && lastDirection == Some(direction)
      ensures selectedDate == old(selectedDate) && currentWeekdayIndex == old(currentWeekdayIndex)
      ensures notified == old(notified)
    {
      center := page;
      lastDirection := Some(direction);
    }

    /** The page-before source: a new page one week before `page`, unless that week starts on or
        before the lower bound's day. */
    method ViewControllerBefore(page: DaySelectorController) returns (r: DaySelectorController?)
      ensures var previousDate := AddingWeeks(page.startDate, -1);
        && (r != null <==> CanPageBefore(settings, previousDate))
        && (r != null ==> fresh(r) && r.startDate == previousDate && r.selectedIndex == -1)
    {
      var previousDate := AddingWeeks(page.startDate, -1);
      if CanPageBefore(settings, previousDate) {
        r := new DaySelectorController(previousDate);
      } else {
        r := null;
      }
    }

    /** The page-after source: a new page one week after `page`, unless that week starts on or
        after the upper bound's day. */
    method ViewControllerAfter(page: DaySelectorController) returns (r: DaySelectorController?)
      ensures var nextDate := AddingWeeks(page.startDate, 1);
        && (r != null <==> CanPageAfter(settings, nextDate))
        && (r != null ==> fresh(r) && r.startDate == nextDate && r.selectedIndex == -1)
    {
      var nextDate := AddingWeeks(page.startDate, 1);
      if CanPageAfter(settings, nextDate) {
        r := new DaySelectorController(nextDate);
      } else {
        r := null;
      }
    }

    /** The host's `didFinishAnimating` callback, after it has made `shown` its page. A completed
        transition highlights the stored index on the new page, selects that page's date again
        (re-entering `dateSelectorDidSelectDate`), and clears the highlight of every previous
        page; an abandoned one changes nothing. */
    method DidFinishAnimating(shown: DaySelectorController, previous: seq<DaySelectorController>,
                              completed: bool)
      requires Valid()
      requires completed ==> shown !in previous
      modifies this, shown, set p | p in previous
      ensures Valid()
      ensures !completed ==>
        unchanged(this) && unchanged(shown) && unchanged(set p | p in previous)
      ensures completed ==> forall p :: p in previous ==> p.selectedIndex == -1
      ensures forall p :: p in previous ==> p.startDate == old(p.startDate)
      ensures (completed && IsDayStart(old(shown.startDate))
               && old(currentWeekdayIndex) < settings.daysInWeek) ==>
        var pageDate := AddingDays(old(shown.startDate), old(currentWeekdayIndex));
        && center == shown && shown.startDate == old(shown.startDate)
        && shown.selectedIndex == old(currentWeekdayIndex)
        && currentWeekdayIndex == old(currentWeekdayIndex)
        && lastDirection == old(lastDirection)
        && if CanChange(settings, pageDate) then
             && selectedDate == pageDate
             && notified == old(notified) + [Notice(pageDate, old(selectedDate), old(shown.startDate),
                                                    old(currentWeekdayIndex))]
           else
             selectedDate == old(selectedDate) && notified == old(notified)
      ensures (completed && settings.daysInWeek == 7 && IsWeekStart(calendar, old(shown.startDate))
               && old(currentWeekdayIndex) < 7
               && CanChange(settings, AddingDays(old(shown.startDate), old(currentWeekdayIndex)))) ==>
        Consistent()
    {
      if !completed {
        return;
      }
      center := shown;
      shown.selectedIndex := currentWeekdayIndex;
      var selected := shown.SelectedDate();
      if selected.Some? {
        ghost var index := currentWeekdayIndex;
        ghost var settled := IsDayStart(shown.startDate) && index < settings.daysInWeek;
        if settled {
          DateOnlyIsStartOfDay(shown.startDate, calendar);
          DateOnlyIsStartOfDay(selected.value, calendar);
          DaysBetweenDayStarts(selected.value, shown.startDate);
          DivModUnique(index, settings.daysInWeek, 0, index);
          assert Days(DateOnly(selected.value, calendar), DateOnly(shown.startDate, calendar)) == index;
        }
        DateSelectorDidSelectDate(selected.value);
        if settled {
          assert center == shown && shown.selectedIndex == index && currentWeekdayIndex == index;
        }
      }
      var i := 0;
      while i < |previous|
        invariant 0 <= i <= |previous|
        invariant forall j :: 0 <= j < i ==> previous[j].selectedIndex == -1
        invariant forall p :: p in previous ==> p.startDate == old(p.startDate)
        modifies set p | p in previous
      {
        previous[i].selectedIndex := -1;
        i := i + 1;
      }
    }
  }

  // Selection on a Monday-first calendar with seven-day weeks around Monday 2024-01-01.

  /** A date within the page updates that page in place. */
  method SelectWithinPageScenario(symbols: seq<string>)
    requires |symbols| == 7
  {
    var monday := Calendar(2, symbols);
    var jan1 := Midnight(19723);
    var widget := new LiteCalendar(DefaultSettings, monday, jan1 + 9 * 3600);
    assert widget.center.startDate == jan1 && widget.currentWeekdayIndex == 0;
    var page := widget.center;
    widget.DateSelectorDidSelectDate(AddingDays(jan1, 3));
    assert widget.currentWeekdayIndex == 3 && widget.center == page && page.startDate == jan1;
    assert widget.lastDirection == Some(Forward) && widget.notified == [Notice(AddingDays(jan1, 3), jan1 + 9 * 3600, jan1, 0)];
  }

  /** A date in a later week pages forward to the date's week, at the same weekday offset. */
  method SelectLaterWeekScenario(symbols: seq<string>)
    requires |symbols| == 7
  {
    var monday := Calendar(2, symbols);
    var jan1 := Midnight(19723);
    var widget := new LiteCalendar(DefaultSettings, monday, jan1 + 9 * 3600);
    assert widget.center.startDate == jan1;
    widget.DateSelectorDidSelectDate(AddingDays(jan1, 9));
    assert widget.currentWeekdayIndex == 2 && widget.center.startDate == AddingDays(jan1, 7);
    assert widget.lastDirection == Some(Forward) && widget.selectedDate == AddingDays(jan1, 9);
  }

  /** A date in an earlier week pages backward to the date's week. */
  method SelectEarlierWeekScenario(symbols: seq<string>)
    requires |symbols| == 7
  {
    var monday := Calendar(2, symbols);
    var jan1 := Midnight(19723);
    var widget := new LiteCalendar(DefaultSettings, monday, AddingDays(jan1, 9));
    assert widget.center.startDate == AddingDays(jan1, 7);
    widget.DateSelectorDidSelectDate(AddingDays(jan1, 1));
    assert widget.currentWeekdayIndex == 1 && widget.center.startDate == jan1;
    assert widget.lastDirection == Some(Reverse);
  }

  /** A swipe to the next week on a Monday-first calendar selects the same weekday there and
      clears the highlight on the page swiped away. */
  method SwipeScenario(symbols: seq<string>)
    requires |symbols| == 7
  {
    var monday := Calendar(2, symbols);
    var jan1 := Midnight(19723);
    var widget := new LiteCalendar(DefaultSettings, monday, AddingDays(jan1, 1));
    assert widget.center.startDate == jan1 && widget.currentWeekdayIndex == 1;

    var firstPage := widget.center;
    var next := widget.ViewControllerAfter(firstPage);
    assert next != null && next.startDate == AddingDays(jan1, 7);
    widget.DidFinishAnimating(next, [firstPage], true);
    assert widget.center == next && next.selectedIndex == 1 && firstPage.selectedIndex == -1;
    assert firstPage.startDate == jan1;
    assert widget.selectedDate == AddingDays(jan1, 8);
  }

  /** With the upper bound on Wednesday 10 January 2024 and Saturday 6 January selected, the
      page of 8 January is still offered; a swipe to it highlights Saturday 13 January, which is
      past the bound, so the selection stays on 6 January in the week no longer shown. */
  method SwipePastUpperBoundScenario(symbols: seq<string>)
    requires |symbols| == 7
  {
    var monday := Calendar(2, symbols);
    var jan1 := Midnight(19723);
    var settings := DefaultSettings.(maxDate := Some(AddingDays(jan1, 9)));
    var widget := new LiteCalendar(settings, monday, AddingDays(jan1, 5));
    assert widget.center.startDate == jan1 && widget.currentWeekdayIndex == 5;

    var firstPage := widget.center;
    var next := widget.ViewControllerAfter(firstPage);
    assert next != null && next.startDate == AddingDays(jan1, 7);
    assert !CanChange(settings, AddingDays(jan1, 12));
    widget.DidFinishAnimating(next, [firstPage], true);
    assert widget.center == next && next.selectedIndex == 5 && firstPage.selectedIndex == -1;
    assert widget.selectedDate == AddingDays(jan1, 5) && widget.notified == [];
    assert BeginningOfWeek(monday, widget.selectedDate) == jan1;
    assert !widget.Consistent();
  }
}
