/**
 * The day cells and week pages of the week strip: the weekend and day-label rules of
 * DaySelector/DayDateCell.swift, and the page object the paging logic creates and updates.
 */
module DaySelector {
  import opened Wrappers
  import opened CalendarExtensions

  /** A `UIColor`, known only by name. */
  datatype Color = Color(name: string)

  /** The two text colours of `CalendarStyle.DaySelector` that the day label uses. */
  datatype DaySelectorStyle = DaySelectorStyle(weekendTextColor: Color, inactiveTextColor: Color)

  /** The defaults: gray for weekends, black otherwise. */
  const DefaultDaySelectorStyle: DaySelectorStyle := DaySelectorStyle(Color("gray"), Color("black"))

  /** The point size of the day label's system font. */
  const RegularSizeClassFontSize: int := 16

  /** Which of the seven Sunday-first weekday positions are weekend days. */
  const WeekendMask: seq<bool> := [true] + [false, false, false, false, false] + [true]

  /** Weekends are Saturday (weekday 7) and Sunday (weekday 1), whatever day the calendar
      starts its weeks on: day 2 after the Thursday epoch is a Saturday, day 3 a Sunday. */
  function IsAWeekend(calendar: Calendar, date: Date): (r: bool)
    ensures r <==> Day(date) % 7 == 2 || Day(date) % 7 == 3
  {
    var weekday := Weekday(date);
    weekday == 7 || weekday == 1
  }

  /** A weekend day is the first or the last day of its week in a calendar whose weeks
      begin on Sunday. */
  lemma {:induction false} WeekendIsEdgeOfSundayWeek(calendar: Calendar, date: Date)
    requires calendar.Valid()
    ensures var sundayFirst := calendar.(firstWeekday := 1);
      IsAWeekend(calendar, date) <==>
        StartOfDay(date) == BeginningOfWeek(sundayFirst, date) ||
        StartOfDay(date) == EndOfWeek(sundayFirst, date)
  {
    var sundayFirst := calendar.(firstWeekday := 1);
    var b := BeginningOfWeek(sundayFirst, date);
    var e := EndOfWeek(sundayFirst, date);
    DayBoundsAndIdempotence(date);
    var offset := Day(date) - Day(b);
    assert StartOfDay(date) == b <==> offset == 0;
    assert StartOfDay(date) == e <==> offset == 6;
    OffsetFromAnyWeekStart(sundayFirst, b, date);
    assert Weekday(date) == (Weekday(b) - 1 + offset) % 7 + 1 by {
      assert Weekday(b) == 1;
      SameWeekdayIffWholeWeeks(b, date);
      WeekdayStep(Day(b), offset);
    }
  }

  /** Walking `k` days forward from day n walks `k` weekdays forward, modulo 7. */
  lemma WeekdayStep(n: int, k: int)
    requires 0 <= k < 7
    ensures (n + k + 4) % 7 + 1 == ((n + 4) % 7 + k) % 7 + 1
  {
    var q := (n + 4) / 7;
    assert n + 4 == 7 * q + (n + 4) % 7;
    assert n + k + 4 == 7 * q + ((n + 4) % 7 + k);
  }

  /** The mask has seven entries and marks exactly the first and the last; indexed by the
      weekday it agrees with `IsAWeekend`. */
  lemma WeekendMaskAgrees(calendar: Calendar, date: Date)
    ensures |WeekendMask| == 7
    ensures forall i :: 0 <= i < 7 ==> (WeekendMask[i] <==> i == 0 || i == 6)
    ensures WeekendMask[Weekday(date) - 1] == IsAWeekend(calendar, date)
  {
  }

  /** Swift's `zip`: pairs up the elements of two sequences, as far as the shorter goes. */
  function Zip<A, B>(a: seq<A>, b: seq<B>): (r: seq<(A, B)>)
    ensures |r| == if |a| <= |b| then |a| else |b|
    ensures forall i :: 0 <= i < |r| ==> r[i] == (a[i], b[i])
  {
    if a == [] || b == [] then [] else [(a[0], b[0])] + Zip(a[1..], b[1..])
  }

  /** The symbol and weekend flag table of `updateDayLabel`, rotated so that it starts at the
      calendar's first weekday. */
  function RotatedWeekDays(calendar: Calendar): (r: seq<(string, bool)>)
    ensures |calendar.shortWeekdaySymbols| == 7 ==> |r| == 7
    ensures multiset(r) == multiset(Zip(calendar.shortWeekdaySymbols, WeekendMask))
  {
    var zipped := Zip(calendar.shortWeekdaySymbols, WeekendMask);
    ShiftedIsPermutation(zipped, calendar.firstWeekday - 1);
    Shifted(zipped, calendar.firstWeekday - 1)
  }

  /** A weekday's offset from the first weekday, added back to the first weekday, is that
      weekday again (all numbered from 1). */
  lemma OffsetFromFirst(w: int, first: int)
    requires 1 <= w <= 7 && 1 <= first <= 7
    ensures ((w - first) % 7 + (first - 1)) % 7 == w - 1
  {
    if w >= first {
      DivModUnique(w - first, 7, 0, w - first);
      DivModUnique(w - 1, 7, 0, w - 1);
    } else {
      DivModUnique(w - first, 7, -1, w - first + 7);
      DivModUnique(w - 1 + 7, 7, 1, w - 1);
    }
  }

  /** The rotation is within range, keeps all seven pairs and starts at the first weekday. */
  lemma RotatedWeekDaysShape(calendar: Calendar)
    requires calendar.Valid()
    ensures -7 <= calendar.firstWeekday - 1 <= 7
    ensures |RotatedWeekDays(calendar)| == 7
    ensures multiset(RotatedWeekDays(calendar)) == multiset(Zip(calendar.shortWeekdaySymbols, WeekendMask))
    ensures RotatedWeekDays(calendar)[0] == Zip(calendar.shortWeekdaySymbols, WeekendMask)[calendar.firstWeekday - 1]
  {
    var zipped := Zip(calendar.shortWeekdaySymbols, WeekendMask);
    var k := calendar.firstWeekday - 1;
    ShiftedIsPermutation(zipped, k);
    ShiftedAt(zipped, k, 0);
    DivModUnique(k, 7, 0, k);
  }

  /** Weekday `w` sits in the rotated table at its offset from the first weekday. */
  lemma RotatedWeekDaysAt(calendar: Calendar, w: int)
    requires calendar.Valid() && 1 <= w <= 7
    ensures |RotatedWeekDays(calendar)| == 7
    ensures RotatedWeekDays(calendar)[(w - calendar.firstWeekday) % 7] ==
      (calendar.shortWeekdaySymbols[w - 1], WeekendMask[w - 1])
  {
    var zipped := Zip(calendar.shortWeekdaySymbols, WeekendMask);
    var k := calendar.firstWeekday - 1;
    assert |WeekendMask| == 7 && |zipped| == 7;
    var pos := (w - calendar.firstWeekday) % 7;
    OffsetFromFirst(w, calendar.firstWeekday);
    assert (pos + k) % |zipped| == w - 1;
    ShiftedAt(zipped, k, pos);
    assert RotatedWeekDays(calendar) == Shifted(zipped, k);
  }

  /** At the date's position in its week the rotated table holds the date's own symbol and
      weekend flag: the label, read from the unrotated symbols, is the one the rotated table
      would give. */
  lemma RotatedWeekDaysAgree(calendar: Calendar, date: Date)
    requires calendar.Valid()
    ensures |RotatedWeekDays(calendar)| == 7
    ensures RotatedWeekDays(calendar)[WeekOffset(calendar, date)] ==
      (calendar.shortWeekdaySymbols[Weekday(date) - 1], IsAWeekend(calendar, date))
  {
    RotatedWeekDaysAt(calendar, Weekday(date));
    WeekendMaskAgrees(calendar, date);
  }

  /** A day cell of the week strip (`DayDateCell`), reduced to the day label it maintains. */
  class DayDateCell {
    var date: Date
    var calendar: Calendar
    var style: DaySelectorStyle
    /** The label's text, colour and font size; `None` until first assigned. */
    var dayLabelText: Option<string>
    var dayLabelTextColor: Option<Color>
    var dayLabelFontSize: Option<int>

    ghost predicate Valid()
      reads this
    {
      calendar.Valid()
    }

    constructor (date: Date, calendar: Calendar)
      requires calendar.Valid()
      ensures Valid()
      ensures this.date == date && this.calendar == calendar && style == DefaultDaySelectorStyle
      ensures dayLabelText == None && dayLabelTextColor == None && dayLabelFontSize == None
    {
      this.date := date;
      this.calendar := calendar;
      style := DefaultDaySelectorStyle;
      dayLabelText, dayLabelTextColor, dayLabelFontSize := None, None, None;
    }

    /** Assigning `date` refreshes the label. */
    method SetDate(newDate: Date)
      requires Valid()
      modifies this
      ensures Valid() && date == newDate && calendar == old(calendar) && style == old(style)
      ensures LabelShowsDate()
    {
      date := newDate;
      UpdateState();
    }

    /** Assigning `calendar` refreshes the label. */
    method SetCalendar(newCalendar: Calendar)
      requires newCalendar.Valid()
      modifies this
      ensures Valid() && date == old(date) && calendar == newCalendar && style == old(style)
      ensures LabelShowsDate()
    {
      calendar := newCalendar;
      UpdateState();
    }

    /** `updateStyle(_:)`: a new style refreshes the label. */
    method UpdateStyle(newStyle: DaySelectorStyle)
      requires Valid()
      modifies this
      ensures Valid() && date == old(date) && calendar == old(calendar) && style == newStyle
      ensures LabelShowsDate()
    {
      style := newStyle;
      UpdateState();
    }

    /** The label shows the weekday symbol of the date, in the weekend colour exactly on
        weekends, in the regular font size. */
    ghost predicate LabelShowsDate()
      reads this
      requires Valid()
    {
      && dayLabelText == Some(calendar.shortWeekdaySymbols[Weekday(date) - 1])
      && dayLabelTextColor ==
           Some(if IsAWeekend(calendar, date) then style.weekendTextColor else style.inactiveTextColor)
      && dayLabelFontSize == Some(RegularSizeClassFontSize)
    }

    /** `updateState()`: font and colour of the day label, then its text. */
    method UpdateState()
      requires Valid()
      modifies this
      ensures Valid() && date == old(date) && calendar == old(calendar) && style == old(style)
      ensures LabelShowsDate()
    {
      var isWeekend := IsAWeekend(calendar, date);
      dayLabelFontSize := Some(RegularSizeClassFontSize);
      dayLabelTextColor := Some(if isWeekend then style.weekendTextColor else style.inactiveTextColor);
      UpdateDayLabel();
    }

    /** `updateDayLabel()`: builds the rotated symbol table, then labels the day from the
        unrotated symbols. */
    method UpdateDayLabel()
      requires Valid()
      modifies this
      ensures date == old(date) && calendar == old(calendar) && style == old(style)
      ensures dayLabelTextColor == old(dayLabelTextColor) && dayLabelFontSize == old(dayLabelFontSize)
      ensures dayLabelText == Some(calendar.shortWeekdaySymbols[Weekday(date) - 1])
    {
      var daySymbols := calendar.shortWeekdaySymbols;
      var pairs := Zip(daySymbols, WeekendMask);
      var weekDays := new (string, bool)[|pairs|](i requires 0 <= i < |pairs| => pairs[i]);
      assert weekDays[..] == pairs;
      Shift(weekDays, calendar.firstWeekday - 1);
      var weekDay := Weekday(date);
      dayLabelText := Some(daySymbols[weekDay - 1]);
    }
  }

  /**
   * One page of the week strip (`DaySelectorController`). Its source is not part of this
   * model: the page is modelled after its uses in LiteCalendar.swift, as the first day it
   * shows and the index of its highlighted day (-1 for none); its `selectedDate` is read
   * from and written through that index.
   */
  class DaySelectorController {
    var startDate: Date
    var selectedIndex: int

    constructor (startDate: Date)
      ensures this.startDate == startDate && selectedIndex == -1
    {
      this.startDate := startDate;
      selectedIndex := -1;
    }

    /** The date of the highlighted day, if one is highlighted. */
    function SelectedDate(): (r: Option<Date>)
      reads this
      ensures r.Some? <==> selectedIndex >= 0
      ensures r.Some? ==> Days(r.value, startDate) == selectedIndex
      ensures r.Some? && IsDayStart(startDate) ==> IsDayStart(r.value)
    {
      if selectedIndex < 0 then None else Some(AddingDays(startDate, selectedIndex))
    }

    /** Assigning `selectedDate` highlights the day that many days after the start. */
    method SetSelectedDate(date: Date)
      modifies this
      ensures startDate == old(startDate)
      ensures selectedIndex == Days(date, startDate)
    {
      selectedIndex := Days(date, startDate);
    }
  }
}
