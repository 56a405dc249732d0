# Leantime time table, modelled in Dafny

This project models the two controllers of the Leantime "TimeTable" plugin.

- **TimeTable controller**
  - `get` builds the weekly time table. It shifts the reference day by a whole number of weeks. It rotates the locale's day names so the week starts on Monday. It generates one date per day name. It then asks the time-table service which tickets have time logged in the week. For each of those tickets it fetches the entries of every week date under an optional search term. Rows are keyed by ticket and then by date, and each row also carries display fields (title, link, project name, ticket id).
  - The same action answers "active ticket ids between two dates".
  - `post` sends a submitted time entry either to update or to create.
- **Settings controller**: reads and saves one integer, the number of seconds the front end may cache ticket data. The default is 1200.

## Files and modules

- `wrappers.dfy`, module `Wrappers`: `Option`, which stands for PHP's `null` next to a value.
- `php.dfy`, module `Php`: the PHP runtime behaviour the controllers rely on. This covers `explode(',')`, `implode(',')`, the `(int)` cast of a request string, writing an integer into a string, and truthiness.
- `settings.dfy`, module `Settings`: the default-to-1200 read rule and the save. The class `SettingsController` holds the settings store that `post` writes to.
- `timetable.dfy`, module `TimeTable`: the week offset, the day-name rotation, the week dates, the ticket × day matrix, the active-ids endpoint, the post dispatch, and `Get`, which puts them together.

## How the model represents the program

- Dates are whole day numbers in the user's timezone.
- The date library is a value `Clock` made of uninterpreted functions: start and end of week, conversion to the database timezone, and parsing a local date string.
- The repository queries are a value `Repository` made of uninterpreted functions. `uniqueTicketIds` returns the ticket-id column, possibly null. `timesheets` returns the entries of a ticket on a date under a search filter.
- Request parameters (`$_GET`, `$_POST`, the settings form) are `map<string, string>`.
- A row's date keys (`format('Y-m-d')`) are the day numbers themselves.
- Ticket ids are integers. A null id is `None`. An id is falsy when it is null or 0.

The code overwrites a row's display fields (title, link, project name, ticket id) on every day that has entries, so a row shows the **last** such day (`RowSummaryFromLastDay`, `LaterDayOverwritesSummary`).

The two controllers read the cache setting differently. The settings store is taken to answer null for a key that was never saved. `TimeTable::get` uses `getSetting(...) ?? 1200`, so a stored 0 is shown as 0. `Settings::get` uses `(int) (getSetting(...) ?: 1200)`, so a stored 0 is shown as 1200. `CacheReadsDisagreeOnZero` states that the two reads differ exactly when the stored value is 0.

## Model

| member | source | states |
|---|---|---|
| `TimeTable.ShiftNow` | Controllers/TimeTable.php:140-147 | the add branch (positive offset) and the subtract-magnitude branch both give `now + 7 * offset`; a missing offset leaves the day unchanged |
| `TimeTable.SearchFilter` | Controllers/TimeTable.php:148-150 | the filter is null exactly when the term is absent or empty; otherwise it is the term unchanged |
| `TimeTable.RotateToMonday` | Controllers/TimeTable.php:160 | `$days[] = array_shift($days)` keeps the number of day names (the order is stated by `RotationKeepsNames`) |
| `Php.Explode` | Controllers/TimeTable.php:158 | `explode(',', …)` always yields at least one piece, so the rotation always has a first name to move |
| `Php.ExplodeHasNoComma` | Controllers/TimeTable.php:158 | no day name produced by the split contains the separator |
| `Php.ImplodeExplode` | Controllers/TimeTable.php:158 | joining the split day names with ',' gives the locale string back |
| `TimeTable.RotationKeepsNames` | Controllers/TimeTable.php:158-160 | the rotated list has the same multiset of names; `rotated[i] = days[i+1]` below the last slot and the last slot holds `days[0]`: only the first name moves, to the end, and the others keep their order |
| `TimeTable.WeekDates` | Controllers/TimeTable.php:161-164 | one date per day name; `weekDates[k] = weekStart + k` |
| `TimeTable.ConsecutiveDays` | Controllers/TimeTable.php:161-164 | dates that count up from the week start are consecutive days |
| `TimeTable.KeptIds` | Controllers/TimeTable.php:169-173 | no kept id is 0; an id is kept iff it is non-zero and was discovered non-null; never more ids than discovered |
| `TimeTable.KeptIdsAppend` | Controllers/TimeTable.php:169-173 | keeping commutes with concatenation, so kept ids stay in discovery order |
| `TimeTable.FillRow` | Controllers/TimeTable.php:174-185 | the inner loop over week dates produces exactly the row `RowOf` specifies |
| `TimeTable.RowOf` | Controllers/TimeTable.php:174-185 | the row built from a list of dates has at most one key per date, and has display fields only when at least one date was queried |
| `TimeTable.RowKeys` | Controllers/TimeTable.php:175-178 | a row has one key per week date and no other key |
| `TimeTable.SummaryOf` | Controllers/TimeTable.php:179-183 | the display fields carry the first entry's headline, project name and ticket id, and the link is the ticket link of that same id |
| `TimeTable.TicketLink` | Controllers/TimeTable.php:181 | the link starts with `?showTicketModal=` and is exactly as long as the two fixed parts plus two copies of the id's decimal text (`TicketLinkNamesTicket` states the rest) |
| `TimeTable.TicketLinkNamesTicket` | Controllers/TimeTable.php:181 | in `?showTicketModal=<id>#/tickets/showTicket/<id>`, the text `#/tickets/showTicket/` sits right after the first id, and both id slots read back as the entry's ticket id under `(int)` |
| `TimeTable.RowValues` | Controllers/TimeTable.php:175-178 | each week date's key holds exactly the fetch result for (ticket, date, filter), an empty list included |
| `TimeTable.RowSummaryPresent` | Controllers/TimeTable.php:179-184 | the display fields are present iff at least one week date's fetch is non-empty |
| `TimeTable.RowSummaryFromLastDay` | Controllers/TimeTable.php:179-184 | when present, the display fields come from the first entry of the last non-empty date |
| `TimeTable.LaterDayOverwritesSummary` | Controllers/TimeTable.php:175-184 | for every week in which a day `i` and a later day `j` have entries and `j` is the last day with entries, the row shows day `j`'s display fields, overwriting day `i`'s |
| `TimeTable.BuildMatrix` | Controllers/TimeTable.php:165-188 | `ticketIds` is the kept ids in discovery order; the row keys are exactly the kept ids; each row is the specified row for that ticket |
| `TimeTable.WeekRowsCoverTheWeek` | Controllers/TimeTable.php:161-187 | on the week page, each ticket with a row is a listed ticket id; its row's keys are exactly the days `weekStart … weekStart + n - 1`; the key of week date `k` is `weekStart + k` and holds the repository's answer for the ticket on that day under the page's filter |
| `Php.DecimalListRoundTrip` | Controllers/TimeTable.php:190 | the comma-joined `ticketIds` text, split with `explode(',')` and cast back with `(int)`, gives the kept ids again (for a non-empty list) |
| `Php.Implode` | Controllers/TimeTable.php:190 | `implode(',', …)` starts with the first piece |
| `Php.ImplodeSeparators` | Controllers/TimeTable.php:190 | comma-free pieces are separated by exactly one comma each: `n - 1` commas for `n` pieces |
| `Php.ExplodeImplode` | Controllers/TimeTable.php:190 | splitting a comma-join of comma-free pieces gives the pieces back |
| `TimeTable.ActiveIds` | Controllers/TimeTable.php:111-128 | an empty list when `start` or `end` is missing or falsy; otherwise the unfiltered ticket-id column for the two parsed dates, nulls included |
| `TimeTable.WeekCacheExpiration` | Controllers/TimeTable.php:134 | the stored value when there is one (0 included), 1200 only when unset |
| `TimeTable.CacheReadsDisagreeOnZero` | Controllers/TimeTable.php:134 | the week page's read and the settings page's read differ exactly when the stored value is 0 |
| `TimeTable.WeekPage` | Controllers/TimeTable.php:152-194 | every template value of the week page for a reference day and filter: the filter, the rotated names, the counting-up dates, the kept ids and their comma-joined text, one specified row per kept id, and the cache lifetime |
| `TimeTable.Get` | Controllers/TimeTable.php:109-197 | the active-ids answer when `getActiveTicketIdsOfPeriod` is set; otherwise the week page for `today + 7 * offset` under the request's search filter |
| `TimeTable.PostAction` | Controllers/TimeTable.php:69-91 | update iff `timesheet-id` is set and non-empty, carrying that id, date, hours and description; otherwise log time for the session user with kind `GENERAL_BILLABLE` and the submitted ticket id |
| `Settings.CacheExpiration` | Controllers/Settings.php:44 | a truthy stored value is shown as is; an unset or zero value gives 1200; the result is never 0 |
| `Settings.SettingsController.TicketCacheExpiration` | Controllers/Settings.php:41-51 | the page value is never 0 and equals a non-zero stored value |
| `Settings.SubmittedExpiration` | Controllers/Settings.php:61 | the `(int)` cast of the submitted field, or 0 when it is missing |
| `Settings.SaveExpiration` | Controllers/Settings.php:61 | only the cache key is written, to the submitted value; every other setting keeps its value |
| `Settings.SettingsController.Post` | Controllers/Settings.php:58-69 | on success the store becomes the saved map and the notice is success; on a thrown save nothing changes and the notice is error; both redirect to `/TimeTable/settings` |
| `Settings.SettingsController.constructor` | Controllers/Settings.php:29-33 | the controller starts with the given settings store |
| `Settings.SaveThenRead` | Controllers/Settings.php:44-61 | after saving the decimal text of `v`, the page shows `v` if `v ≠ 0` and 1200 if `v = 0`; negative values are kept |
| `Settings.SaveMissingThenRead` | Controllers/Settings.php:61 | saving without the field stores 0, which reads back as 1200 |
| `Php.CastOfDecimal` | Controllers/Settings.php:61 | `(int)` of an integer's decimal text is that integer |
| `Php.IntCast` | Controllers/TimeTable.php:142-145 | the `(int)` cast (also used at Controllers/Settings.php:61) gives 0 for a string with no decimal digit at all; `CastOfDecimal` states that it reads integers back |

## Left out

- The JSON delete path of `post` (Controllers/TimeTable.php:57-68). It exits the request, so there is no data to shape. One consequence is not modelled: a delete request with a falsy id falls through to the update/create dispatch.
- The authorization check `AuthService::userIsAtLeast`. It is a call into code outside the plugin.
- Redirects, JSON encoding, `echo`/`exit`, template `assign`/`display` and notifications on the TimeTable page. The values the week page assigns are modelled as the `WeekView` result. The redirect after `post` of the TimeTable controller is left out.
- Carbon behaviour. `now()`, `startOfWeek`, `endOfWeek`, `setToDbTimezone`, `setToUserTimezone` and date parsing are uninterpreted functions. Time of day is not modelled, and neither is daylight saving.
- Repository internals: `getUniqueTicketIds`, `getTimesheetByTicketIdAndWorkDate`, `updateTime`, `logTimeOnTicket`, `getSetting` and `saveSetting`. How the search filter matches text lives there. `post` is modelled as the action it hands to the service, not as the write itself.
- `Php.IntCast` covers decimal integers with leading white space and one sign. It does not cover exponent forms (`"1e3"`), saturation at the platform integer bounds, or non-string inputs.
- `FILTER_SANITIZE_STRING` on `start` and `end` is treated as the identity.
- `Settings::get` catching an exception from the settings store. The store is modelled as a map that always answers.
- Ticket ids are integers, so non-numeric id strings are not modelled.
- `TimeTable.PostAction` and `TimeTable.ActiveIds` always answer, because `Clock.parseLocal` is a total function. In the code, `new CarbonImmutable($s, $tz)` (Controllers/TimeTable.php:70, 80, 119-120) throws on a date string it cannot parse. `post` then makes no service call, and the active-ids branch gives no answer.
- `TimeTable.WeekView` keeps the order of the rows only through `ticketIds`. In the code, `$timesheetsByTicket` (Controllers/TimeTable.php:187) is an ordered array with rows in order of first discovery. The model holds the rows in a `map<int, Row>`, which has no order.
- `TimeTable.WeekCacheExpiration`, `TimeTable.CacheReadsDisagreeOnZero` and `Settings.CacheExpiration` assume that the settings store answers null for a key that was never saved. The store is modelled as a map read through `Lookup`. The store's `getSetting` is not part of this model. If it answered `false` for an unset key, `?? 1200` would pass `false` through, while `?: 1200` would still give 1200, so the two reads would also differ for an unset key.
- Key order inside a PHP row array (date keys, then display keys inserted on the first non-empty day) is not modelled. A row is a date map plus an optional summary.
- `TimeTable.RotationKeepsNames` and `TimeTable.RotateToMonday` require a non-empty list of names. That always holds for the result of `explode`. `array_shift` on an empty array would append `null`, which is not modelled.
