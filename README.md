# LiteCalendar week strip, modelled in Dafny

LiteCalendar is an iOS widget that shows a strip of one week of days. Swiping moves to the
previous or next week; tapping a day selects it. This project models the logic behind the
strip and proves properties of it:

- **The paging state machine** (`lite_calendar.dfy`, class `LiteCalendar.LiteCalendar`):
  - `canChange(to:)` is the inclusive min/max range gate on selection.
  - `dateSelectorDidSelectDate(_:)` tells the delegate, moves the pages and stores the selection.
  - `move(to:)` has three branches: page backward, page forward, or update the centre page in
    place. Each stores the highlighted weekday index.
  - The page-before and page-after sources make the neighbouring weeks. Their bound checks are
    strict.
  - The completed-transition handler highlights the index on the new page, selects its date
    again and clears the previous pages.
- **The date helpers and the array rotation** (`calendar_extensions.dfy`):
  - the rotation is `Array.shift`
  - the date helpers are `startOfDay`, `endOfDay`, `isLater`, `dateOnly`, `days(from:)`,
    `earlierDate`, `beginningOfWeek` and `endOfWeek`
- **The day cell** (`day_selector.dfy`, class `DaySelector.DayDateCell`):
  - the weekend rule
  - the rotated weekday/weekend table of `updateDayLabel`
  - the label text, colour and font that `updateState` assigns
- **The week page** `DaySelectorController` (`DaySelector.DaySelectorController`). The paging
  logic creates and updates it.

Dates and calendars are integers:
- A date is a whole number of seconds since midnight, Thursday 1 January 1970, in the calendar's
  own time zone.
- Every day has 86400 seconds. The day of a date is `date / 86400`.
- Weekdays are numbered 1 (Sunday) to 7 (Saturday), as Foundation numbers them.
- A calendar is its first weekday (1 to 7) and its seven short weekday symbols.

Swift's truncating `%` is written out as `SwiftRem`, so the index arithmetic of `move(to:)` is
the source's own.

Five scenario methods walk through concrete cases on a Monday-first calendar around Monday
1 January 2024:
- `SelectWithinPageScenario`: a selection within the page updates it in place.
- `SelectLaterWeekScenario`: a selection in a later week pages forward.
- `SelectEarlierWeekScenario`: a selection in an earlier week pages backward.
- `SwipeScenario`: a completed swipe to the next week selects the same weekday there.
- `SwipePastUpperBoundScenario`: a swipe that is offered lands on a day past the upper bound.

Behaviours the proofs make explicit:
- **Selection bounds are inclusive; paging bounds are strict** (`BoundaryDayAsymmetry`,
  `LowerBoundWeekNotPagedTo`). A date on the lower bound's day can be selected. But the
  page-before source compares the bound with the *first* day of the previous week. So swiping
  back never reaches the week that holds the lower bound.
- **A swipe can land on an out-of-range day** (`DidFinishAnimating`,
  `SwipePastUpperBoundScenario`). The new page highlights the stored weekday index. If that
  day is out of range, the selection stays at the old date in the old week, while the new page
  highlights a day that is not selected.
- **`updateDayLabel` builds a rotated table it never uses** (`RotatedWeekDaysAgree`). It rotates
  a seven-entry symbol/weekend table, then labels the day from the unrotated symbols. The
  rotated table, read at the date's offset in its week, holds the same symbol, so the label
  would be the same either way.

## Model

| member | source | states |
|---|---|---|
| CalendarExtensions.StartOfDay | Sources/LiteCalendar/CalendarExtensions.swift:31-33 | the result is a midnight no later than the date and less than one day before it |
| CalendarExtensions.EndOfDay | Sources/LiteCalendar/CalendarExtensions.swift:34-39 | the result is on the date's own day, one second before the next midnight |
| CalendarExtensions.DayBoundsAndIdempotence | Sources/LiteCalendar/CalendarExtensions.swift:31-39 | startOfDay <= d <= endOfDay; both are idempotent; the start of day is the day's midnight |
| CalendarExtensions.EndOfDayOrder | Sources/LiteCalendar/CalendarExtensions.swift:34-39 | comparing two endOfDay values with <= or < compares their day numbers, in both directions |
| CalendarExtensions.IsLater | Sources/LiteCalendar/CalendarExtensions.swift:41-43 | a date is later than another exactly when the other is the earlier of the two and they differ; `IsLaterAgreesWithEarlierDate` is its partner |
| CalendarExtensions.IsLaterAgreesWithEarlierDate | Sources/LiteCalendar/CalendarExtensions.swift:41-43 | isLater(than:) holds exactly when the other date is the earlier of the two and the dates differ; of two distinct dates exactly one is later, and no date is later than itself |
| CalendarExtensions.DateOnly | Sources/LiteCalendar/CalendarExtensions.swift:45-57 | the result is a midnight on the same day as the date |
| CalendarExtensions.DateOnlyIsStartOfDay | Sources/LiteCalendar/CalendarExtensions.swift:45-57 | dateOnly is idempotent and equals startOfDay |
| CalendarExtensions.EarlierDate | Sources/LiteCalendar/CalendarExtensions.swift:72-74 | the result is one of the two dates, no later than either, and the receiver on a tie |
| CalendarExtensions.WholeDays | Sources/LiteCalendar/CalendarExtensions.swift:68 | the day component from the earlier to the later date is the whole days elapsed: r days fit, r + 1 do not |
| CalendarExtensions.Days | Sources/LiteCalendar/CalendarExtensions.swift:59-70 | a positive count means the date is later, a negative one that it is earlier; the magnitude is the whole days between them |
| CalendarExtensions.DaysAntisymmetric | Sources/LiteCalendar/CalendarExtensions.swift:59-70 | a.days(from: b) == -b.days(from: a), and 0 for the same instant |
| CalendarExtensions.DaysBetweenDayStarts | Sources/LiteCalendar/CalendarExtensions.swift:59-70 | between two midnights the count is the difference of day numbers, positive exactly when the first is later |
| CalendarExtensions.AddingWeeks | Sources/LiteCalendar/LiteCalendar.swift:192 | adding n weeks moves the day number by 7n and keeps a midnight a midnight |
| CalendarExtensions.Weekday | Sources/LiteCalendar/DaySelector/DayDateCell.swift:77 | the weekday component is in 1...7 |
| CalendarExtensions.WeekdayProgression | Sources/LiteCalendar/DaySelector/DayDateCell.swift:77 | the weekday advances by one each day, Saturday (7) wrapping to Sunday (1), and 1 January 1970 is a Thursday (5), so 4 January 1970 is a Sunday |
| CalendarExtensions.SameWeekdayIffWholeWeeks | Sources/LiteCalendar/DaySelector/DayDateCell.swift:77 | two dates share a weekday exactly when their days differ by whole weeks |
| CalendarExtensions.DateInWeek | Sources/LiteCalendar/CalendarExtensions.swift:81-84 | the date built from a weekday and the date's week is a midnight within the seven days of that week, and its weekday is the requested one (wrapped into 1...7) |
| CalendarExtensions.BeginningOfWeek | Sources/LiteCalendar/CalendarExtensions.swift:76-85 | the result is a midnight whose weekday is the calendar's first, and r <= d < r + 1 week |
| CalendarExtensions.BeginningOfWeekUnique | Sources/LiteCalendar/CalendarExtensions.swift:76-85 | beginningOfWeek is the only week start among the seven days up to the date |
| CalendarExtensions.OffsetFromAnyWeekStart | Sources/LiteCalendar/CalendarExtensions.swift:76-85 | from any week start, the day count to d modulo 7 is d's offset from its own beginningOfWeek |
| CalendarExtensions.SameDaySameWeek | Sources/LiteCalendar/CalendarExtensions.swift:76-85 | beginningOfWeek depends only on the day of the date |
| CalendarExtensions.EndOfWeek | Sources/LiteCalendar/CalendarExtensions.swift:87-97 | the result is the midnight six days after beginningOfWeek, has weekday firstWeekday + 6 wrapped into 1...7, and lies in the same week |
| CalendarExtensions.Shifted | Sources/LiteCalendar/CalendarExtensions.swift:20-27 | a shift keeps the length |
| CalendarExtensions.Shift | Sources/LiteCalendar/CalendarExtensions.swift:20-27 | the array, shifted in place, holds exactly the shifted contents of the old array |
| CalendarExtensions.ShiftedOutOfRange | Sources/LiteCalendar/CalendarExtensions.swift:22 | an amount outside -count...count leaves the elements unchanged |
| CalendarExtensions.ShiftedAt | Sources/LiteCalendar/CalendarExtensions.swift:23-26 | for 0 <= k <= count, element i of the result is old element (i + k) % count |
| CalendarExtensions.ShiftedIsPermutation | Sources/LiteCalendar/CalendarExtensions.swift:20-27 | every shift keeps the multiset of elements |
| CalendarExtensions.ShiftedNegative | Sources/LiteCalendar/CalendarExtensions.swift:23-25 | for -count <= k < 0, shift(k) equals shift(k + count) |
| CalendarExtensions.ShiftedIdentity | Sources/LiteCalendar/CalendarExtensions.swift:20-27 | shifting by 0 or by count is the identity |
| DaySelector.IsAWeekend | Sources/LiteCalendar/DaySelector/DayDateCell.swift:81-87 | a date is a weekend day exactly when it is a Saturday or a Sunday, whatever the first weekday |
| DaySelector.WeekendIsEdgeOfSundayWeek | Sources/LiteCalendar/DaySelector/DayDateCell.swift:81-87 | a date is a weekend day exactly when its day is the first or the last day of its Sunday-first week |
| DaySelector.WeekendMaskAgrees | Sources/LiteCalendar/DaySelector/DayDateCell.swift:74 | the mask has seven entries, true exactly at 0 and 6, and at weekday - 1 it agrees with isAWeekend |
| DaySelector.Zip | Sources/LiteCalendar/DaySelector/DayDateCell.swift:75 | zip is as long as the shorter input and pairs equal positions |
| DaySelector.RotatedWeekDays | Sources/LiteCalendar/DaySelector/DayDateCell.swift:73-76 | the symbols zipped with the weekend mask and shifted by firstWeekday - 1: seven pairs for seven symbols, the same pairs as before the shift |
| DaySelector.RotatedWeekDaysShape | Sources/LiteCalendar/DaySelector/DayDateCell.swift:75-76 | the shift amount is in range; the rotated table keeps all seven pairs and starts with the first weekday's pair |
| DaySelector.RotatedWeekDaysAt | Sources/LiteCalendar/DaySelector/DayDateCell.swift:75-76 | weekday w sits in the rotated table at its offset from the first weekday |
| DaySelector.RotatedWeekDaysAgree | Sources/LiteCalendar/DaySelector/DayDateCell.swift:72-79 | at the date's offset in its week, the rotated table holds the symbol the label shows and the date's weekend flag |
| DaySelector.DayDateCell.constructor | Sources/LiteCalendar/DaySelector/DayDateCell.swift:12-35 | a new cell holds its date, calendar and default style, and its label is unset |
| DaySelector.DayDateCell.SetDate | Sources/LiteCalendar/DaySelector/DayDateCell.swift:12-17 | a new date is stored and the label shows it |
| DaySelector.DayDateCell.SetCalendar | Sources/LiteCalendar/DaySelector/DayDateCell.swift:19-24 | a new calendar is stored and the label shows the date in it |
| DaySelector.DayDateCell.UpdateStyle | Sources/LiteCalendar/DaySelector/DayDateCell.swift:57-61 | a new style is stored and the label is redrawn with it |
| DaySelector.DayDateCell.UpdateState | Sources/LiteCalendar/DaySelector/DayDateCell.swift:63-70 | the label gets the regular font size, the weekend colour exactly on weekends (else the inactive colour), and the date's weekday symbol |
| DaySelector.DayDateCell.UpdateDayLabel | Sources/LiteCalendar/DaySelector/DayDateCell.swift:72-79 | the label text is the unrotated symbol at weekday - 1; nothing else of the cell changes |
| DaySelector.DaySelectorController.constructor | Sources/LiteCalendar/LiteCalendar.swift:97-106 | a new page starts at the given date with no day highlighted |
| DaySelector.DaySelectorController.SelectedDate | Sources/LiteCalendar/LiteCalendar.swift:219 | a page has a selected date exactly when it highlights an index, and that date is index days after its start |
| DaySelector.DaySelectorController.SetSelectedDate | Sources/LiteCalendar/LiteCalendar.swift:88-90 | selecting a date highlights its day count from the page's start, and the start is kept |
| LiteCalendar.Abs | Sources/LiteCalendar/LiteCalendar.swift:174 | abs is non-negative and is x or -x |
| LiteCalendar.SwiftRem | Sources/LiteCalendar/LiteCalendar.swift:174-178 | the truncating remainder is below the divisor in magnitude, differs from the dividend by a multiple of it, and has the dividend's sign |
| LiteCalendar.BackwardIndexIsFloorMod | Sources/LiteCalendar/LiteCalendar.swift:173-174 | for daysFrom < 0, abs(d + daysFrom % d) % d is the floored modulo, in 0..<d |
| LiteCalendar.ForwardIndexIsFloorMod | Sources/LiteCalendar/LiteCalendar.swift:177-178 | for daysFrom >= 0, daysFrom % d is the floored modulo |
| LiteCalendar.CanChange | Sources/LiteCalendar/LiteCalendar.swift:150-158 | a date is selectable exactly when its day is within the bounds' days, both inclusive, each bound optional |
| LiteCalendar.CanPageBefore | Sources/LiteCalendar/LiteCalendar.swift:189-198 | the page before exists exactly when there is no lower bound or the bound's day is strictly before the page's first day |
| LiteCalendar.CanPageAfter | Sources/LiteCalendar/LiteCalendar.swift:200-209 | the page after exists exactly when there is no upper bound or the page's first day is strictly before the bound's day |
| LiteCalendar.UnboundedAllowsEverything | Sources/LiteCalendar/LiteCalendar.swift:150-158 | with neither bound every date is selectable and every neighbouring page exists |
| LiteCalendar.BoundaryDayAsymmetry | Sources/LiteCalendar/LiteCalendar.swift:150-209 | a date on a bound's own day is selectable, but no page starting on that day comes from the page source on that side |
| LiteCalendar.LowerBoundWeekNotPagedTo | Sources/LiteCalendar/LiteCalendar.swift:189-198 | the lower bound is selectable, yet the week holding it is never offered as the page before |
| LiteCalendar.RangeGateExamples | Sources/LiteCalendar/LiteCalendar.swift:150-198 | with the lower bound at 2024-01-01: the day before is refused, midday is accepted, and the page of 1 January is not offered from the page of 8 January but the page of 8 January is offered from 15 January |
| LiteCalendar.MoveIndexIsWeekOffset | Sources/LiteCalendar/LiteCalendar.swift:161-185 | with seven-day weeks and the centre page on a week start, the page move leaves in the centre is the date's week and the stored index is the date's offset in it |
| LiteCalendar.LiteCalendar.constructor | Sources/LiteCalendar/LiteCalendar.swift:87-95 | the first page is the week of the initial selection, it highlights that day, and the stored index is the same |
| LiteCalendar.LiteCalendar.DateSelectorDidSelectDate | Sources/LiteCalendar/LiteCalendar.swift:141-148 | an out-of-range date changes nothing; otherwise the delegate is told the date first, while the old selection, page and index are still in place, then the pages move to it and it becomes the selection; a replaced centre page is left untouched; with seven-day weeks and the old centre page on a week start, the centre page then shows it |
| LiteCalendar.LiteCalendar.Move | Sources/LiteCalendar/LiteCalendar.swift:161-186 | the stored index is the day count modulo the week length in every branch; a date within the centre page updates that page in place, any other date puts up a new page at its week, backward or forward; with seven-day weeks and the old centre page on a week start, the centre page shows the date |
| LiteCalendar.LiteCalendar.SetViewControllers | Sources/LiteCalendar/LiteCalendar.swift:176-180 | the host shows the given page and remembers the direction; the widget's own fields are unchanged |
| LiteCalendar.LiteCalendar.ViewControllerBefore | Sources/LiteCalendar/LiteCalendar.swift:189-198 | a fresh page one week earlier, with nothing highlighted, exactly when the lower-bound gate allows it |
| LiteCalendar.LiteCalendar.ViewControllerAfter | Sources/LiteCalendar/LiteCalendar.swift:200-209 | a fresh page one week later, with nothing highlighted, exactly when the upper-bound gate allows it |
| LiteCalendar.LiteCalendar.DidFinishAnimating | Sources/LiteCalendar/LiteCalendar.swift:212-226 | an abandoned transition changes nothing; a completed one clears the highlight of every previous page and keeps its start date, highlights the stored index on the new page and selects that day if it is in range (leaving the selection as it was otherwise); with seven-day weeks, the shown page starting on a week start, the stored index below seven and the highlighted day in range, the centre page then shows the selection |

## Left out

- Layout and view life cycle are not modelled. This covers the SnapKit constraints, subview
  set-up, the size-class handling that hides the weekday symbols, `willTransitionTo` style
  refreshes and `tintColorDidChange`. They are UIKit plumbing with nothing to compute.
- The date label and the swipe label (`showDateLabel`, `swipeLabelView.selectedDate`) are left
  out. Their views are not part of this model.
- `CalendarStyle` is reduced to the two colours the day label uses. The other colours, fonts and
  `Package.swift` carry no logic.
- `DaySelectorController` is not part of this model. The page is modelled from its uses in
  LiteCalendar.swift:
  - a start date and a highlighted index, where -1 means none
  - `selectedDate` reads as the start plus that many days
  - assigning `selectedDate` sets the index to the day count from the start

  `makeSelectorController` also sets the calendar, size class, style and delegate. These are
  not modelled.
- Swift's `Date` holds a `Double` count of seconds. The model uses whole seconds; every result of
  the core is day-granular, so sub-second parts and floating-point rounding are not modelled.
- Foundation's calendar arithmetic is reduced to fixed 86400-second days in one time zone, with
  no daylight saving. `weekOfYear`/`yearForWeekOfYear` bucketing is replaced by the week that
  begins on the calendar's first weekday.
- CalendarExtensions.DateOnly: the year/month/day decomposition is modelled as the midnight of
  the same day, which is what it yields with fixed-length days.
- CalendarExtensions.Days: the calendar argument has no effect, because every calendar has the
  same fixed-length days. The nil-calendar fallback to `Calendar.autoupdatingCurrent` is left
  out for the same reason.
- CalendarExtensions.EndOfDay: the source uses `Calendar.current` rather than the widget's
  calendar. With one time zone the two agree, so the difference is not modelled.
- CalendarExtensions.EndOfWeek: the weekday `firstWeekday + 6` can exceed 7. It is taken as the
  day six days after the week's first day, which is how the components resolve without
  week-of-year boundary effects.
- The model uses unbounded integers. Swift `Int` overflow traps are not modelled; dates and day
  counts stay far from the 64-bit limits.
- LiteCalendar.LiteCalendar.constructor: requires `daysInWeek > 0`, because Swift's `%` traps
  on a zero divisor and a negative week length is not meaningful.
- The host page view controller is reduced to the page it shows and the direction of its last
  programmatic change. Animation, the completion handler, gesture-driven paging and
  `willTransitionTo` are left out. `DidFinishAnimating` stands for the host switching to
  `shown` and then calling back, so its body makes `shown` the centre page.
- The delegate (`CalendarChangeDate`) is modelled as the list of its calls, each with the date
  passed and the selection, page start and index it could read at that moment. The unused
  `DayViewStateUpdating` protocol is not modelled.
- LiteCalendar.LiteCalendar.DidFinishAnimating: its contract states the re-entrant selection
  only when the page's start is a midnight and the stored index lies within the week. For other
  pages it promises only that the previous pages are cleared.
- LiteCalendar.LiteCalendar.Move: page and index consistency (`PageShows`) is proved only for
  seven-day weeks with the centre page on a week start. For other week lengths the stored index
  can disagree with the page's own layout, and the contract states only the index arithmetic.
