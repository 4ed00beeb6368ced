# Fortune viewer core, modelled in Dafny

The system is a LINE mini-app that shows a user's fortune. It has a home page of
today's five elements (木 wood, 火 fire, 土 earth, 金 metal, 水 water) with a 7-day
trend, a daily fortune with text sections, a day calendar, a month view with
month and year fortunes, and a profile page with a simplified BaZi (four
pillars) chart. Under the React views sits a core of sequential logic. This
project models that core and proves properties of the model:

- **Per-view fetch caches.** Module-level maps keyed by subject and period. The
  daily view's cache also keeps a pending set that blocks a second in-flight
  request for the same key. The calendar caches adapted months. The month view
  has a month cache and a year cache.
- **Tier-gated paging.** With no member, paging opens the login sheet. An
  unpaid member sees the paywall. A paid member moves the cursor by one month.
- **Month arithmetic and the calendar grid.** `addMonths` and the `cells` grid
  are modelled, with the weekday given by a day-count formula.
- **The session state machine.** Sign-in through the LINE SDK and the member
  API, logout, the plan, and the login-sheet flag.
- **Payload adapters.** The day list, month, year, profile and home-feed
  adapters. Each is total over optional fields and fails over missing required
  ones, in the way the JavaScript would throw.
- **The BaZi engine.** The four pillars, the element tally, and the dominant
  element with its tie-break.
- **Text-section extraction.** Cutting marker-delimited sections out of the
  server's text.
- **Small tables.** Tones, colours, labels, arrows, element names, and the tab
  list.

JavaScript values are a `Js` datatype: undefined, null, booleans, numbers,
strings, arrays, and objects as ordered key/value lists. `?.`, `??`, truthiness
and the TypeError on reading a property of null or undefined are spelled out in
`JsValues`. `atob`/`JSON.parse` of the token segment, `JSON.parse` and
`String(number)` are functions of an `Engine` record that callers pass in. HTTP
responses, SDK states and today's date are parameters. Imperative parts are
classes with `modifies` clauses: the caches, the views, the session provider and
the home feed. Each loop of the source is a `while` or `for` loop with
invariants: `calcWuxing`'s tally, `adaptDailyList`'s `for...of`, the grid's
three push loops, and the nested `forEach` that fills the seven-day series. The
tally, the day list and the series are proved against specification functions.
The grid's loops are pinned by their `ensures`: the cells they push, in order,
and the padding rule.

Modules:

| module | file |
|---|---|
| Wrappers | wrappers.dfy |
| JsValues | js_values.dfy |
| Text | text.dfy |
| Dates | dates.dfy |
| BaZi | bazi.dfy |
| Auth | auth.dfy |
| CalendarData | calendar_data.dfy |
| CalendarPage | calendar_page.dfy |
| MonthData | month_data.dfy |
| YearData | year_data.dfy |
| MonthPage | month_page.dfy |
| ProfileData | profile_data.dfy |
| DailyFortuneData | daily_fortune_data.dfy |
| DailyFortunePage | daily_fortune_page.dfy |
| HomeData | home_data.dfy |
| HomePageView | home_page.dfy |
| AppPage | app_page.dfy |
| TopNav | top_nav.dfy |

## Model

| member | source | states |
|---|---|---|
| JsValues.Access | components/data/MonthView.ts:54-58 | `v.k` throws exactly when `v` is null or undefined; otherwise it is the property, undefined when absent |
| JsValues.Coalesce | components/data/CalendarView.ts:36-41 | `v ?? d` is `d` exactly when `v` is null or undefined, otherwise `v` |
| JsValues.Iterate | components/data/CalendarView.ts:51 | `for...of` visits an array's elements or a string's characters, and anything else is not iterable |
| JsValues.Truthy | components/data/MonthView.ts:74 | `Boolean(v)`: undefined, null, false, 0 and "" are falsy; any other number or string, and every array and object, is truthy |
| JsValues.ToStr | components/pages/CalendarView.tsx:100 | `String(v)`: an integral number below 10^21 in size prints as its decimal digits, a string is itself, null and undefined print as their names, an array joins its elements with commas (null and undefined as "") and an object is "[object Object]" |
| Text.IndexOfFrom | components/pages/DailyFortune.tsx:170 | `indexOf(pat, from)` is the least occurrence at or after `from`, and -1 exactly when there is none |
| Text.IndexOf | components/pages/DailyFortune.tsx:165-166 | `indexOf(pat)` is the first occurrence, and -1 exactly when there is none |
| Text.IncludesChar | components/pages/MonthView.tsx:67-74 | for a one-character pattern, `includes` is character membership |
| Text.Split | components/data/profile.ts:135-136 | `split` with a one-character separator gives at least one piece, and no piece holds the separator |
| Text.JoinSplit | components/data/profile.ts:135-136 | joining the pieces of `split` with the separator gives back the string |
| Text.SplitNoSep | contexts/AuthContext.tsx:74 | a string without the separator splits into itself alone |
| Text.SplitAppend | components/pages/DailyFortune.tsx:31 | splitting `a + sep + b`, with `a` separator-free, gives `a` and then the pieces of `b` |
| Text.SplitJoin | components/data/profile.ts:146-157 | splitting a join of separator-free pieces gives the pieces back |
| Text.SplitChars | components/data/DailyFortune.ts:33 | every piece is made of characters of the string |
| Text.SplitPrefixTail | components/data/DailyFortune.ts:33-34 | a separator-free prefix changes only the first piece, so dropping it leaves the same lines |
| Text.Trim | components/data/DailyFortune.ts:35 | `trim()` leaves a string that is empty or starts and ends with a non-space |
| Text.TrimIsInfix | components/pages/DailyFortune.tsx:175 | `trim()` removes only white space from the two ends: the result is the infix between them |
| Text.TrimIdempotent | components/data/DailyFortune.ts:35 | trimming twice is trimming once |
| Text.LexLeTotal | components/data/HomePage.ts:77 | the default `sort()` order on strings is total |
| Text.LexLeTransitive | components/data/HomePage.ts:77 | the default `sort()` order is transitive |
| Text.LexLeAntisymmetric | components/data/HomePage.ts:77 | the default `sort()` order is antisymmetric |
| Text.LexLeReflexive | components/data/HomePage.ts:77 | the default `sort()` order is reflexive |
| Text.MaxKey | components/data/HomePage.ts:77-78 | the last key after `sort()` is one of the keys, and every key sorts no later than it |
| Text.NatToString | components/pages/DailyFortune.tsx:28 | `String(n)` of a natural number is a non-empty run of digits without a leading zero |
| Text.IntToString | components/pages/CalendarView.tsx:121 | `String(i)` is non-empty, and all digits for i >= 0 |
| Text.Pad2 | components/pages/CalendarView.tsx:15 | `padStart(2, "0")` gives at least two characters |
| Text.Pad2RoundTrip | components/pages/CalendarView.tsx:15 | for 0..99, `pad2` is exactly two digits that read back as the number |
| Dates.FullYear | components/pages/CalendarView.tsx:19-21 | `new Date(y, m, 1)` reads years 0..99 as 1900..1999 and keeps every other year |
| Dates.FirstOfMonth | components/pages/CalendarView.tsx:19 | `startOfMonth` is a valid cursor whose month index is `FullYear(y)*12 + m`, so the month carries into the year |
| Dates.AddMonths | components/pages/CalendarView.tsx:20-21 | `addMonths(d, n)` is the first of the month n months after the cursor's month |
| Dates.AddMonthsShift | components/pages/CalendarView.tsx:20-21 | outside the two-digit years, moving n months moves the month index by exactly n |
| Dates.MonthIndexInjective | components/pages/CalendarView.tsx:20-21 | a valid cursor is determined by its month index |
| Dates.NextThenPrev | components/pages/CalendarView.tsx:20-21 | next month then previous month gives back the cursor, from year 100 on |
| Dates.PrevThenNext | components/pages/CalendarView.tsx:20-21 | previous month then next month gives back the cursor, from year 101 on |
| Dates.PrevThenNextAtYear100 | components/pages/CalendarView.tsx:20-21 | at January of year 100 the round trip fails: back lands in year 99, which `new Date` reads as 1999, and forward lands in 2000 |
| Dates.DaysInMonth | components/pages/CalendarView.tsx:147 | `new Date(y, m+1, 0).getDate()` is 28..31: 29 exactly for February of a Gregorian leap year, 28 exactly for February otherwise, 30 exactly for April, June, September and November, and 31 exactly for the other seven months |
| Dates.IsLeap | components/pages/CalendarView.tsx:147 | the Gregorian rule `Date` applies: every fourth year, except centuries not divisible by 400 |
| Dates.YearDaysStep | components/pages/CalendarView.tsx:147 | a year adds 366 days exactly when the next one is a leap year, and 365 otherwise |
| Dates.MonthDaysStep | components/pages/CalendarView.tsx:146-147 | the first of the next month comes exactly the month's length after the first of this one, across the year end too |
| Dates.NextMonthStart | components/pages/CalendarView.tsx:19-21 | the same step for the cursor `startOfMonth` gives the next month |
| Dates.DayNumber | components/pages/CalendarView.tsx:146 | the day count from 1970-01-01 in the proleptic Gregorian calendar of `Date`; its properties are the three lemmas above and Dates.WeekdayExamples |
| Dates.Weekday | components/pages/CalendarView.tsx:146 | `getDay()` is in 0..6 |
| Dates.WeekdayExamples | components/pages/CalendarView.tsx:146 | 1970-01-01 is a Thursday (day 0 of the count), 2000-01-01 is a Saturday, 2026-10-14 is a Wednesday |
| Dates.WeekdayOfDay | components/pages/CalendarView.tsx:150-155 | the days of one month fall on consecutive weekdays |
| Dates.ToISO | components/pages/DailyFortune.tsx:10-15 | `toISO` and `formatDateYMD` split at '-' into the year, the 1-based month padded to two digits, and the day padded to two digits |
| Dates.ISOParts | components/pages/CalendarView.tsx:16-17 | the three parts of an ISO date text split back apart at '-' |
| Dates.YearMonth | components/pages/CalendarView.tsx:121 | `ym` splits at '-' into the year and the 1-based month padded to two digits |
| Dates.YearMonthParts | components/pages/CalendarView.tsx:121 | the two parts of `ym` split back apart at '-' |
| Dates.YearMonthInjective | components/pages/CalendarView.tsx:121 | different cursors (years from 0 on) never share a `ym` text |
| Dates.ToISOInjective | components/pages/CalendarView.tsx:16-17 | different dates (years from 0 on) never share an ISO text |
| Dates.LeadingBlanks | components/pages/CalendarView.tsx:146 | `firstWeekday` is in 0..6 |
| Dates.MonthLength | components/pages/CalendarView.tsx:147 | `daysInMonth` is in 28..31 |
| Dates.Cells | components/pages/CalendarView.tsx:144-157 | the grid has `firstWeekday` blanks, then days 1..n in order with their ISO texts, then blank padding; its length is a multiple of 7 and below `firstWeekday + n + 7` |
| Dates.DatedRun | components/pages/CalendarView.tsx:151-154 | one dated cell per day 1..n of the month, in order, each with its ISO text and day number |
| Dates.PadToWeek | components/pages/CalendarView.tsx:155 | blanks are appended, and nothing else is changed, until the length is a multiple of 7; fewer than 7 are added |
| Dates.GridColumnIsWeekday | components/pages/CalendarView.tsx:144-157 | in the grid, day d sits in the column of its own weekday |
| BaZi.CalcBaZi | components/pages/ProfileView.tsx:44-68 | for years from 4 on, the year pillar is `STEMS[(y-4)%10]`/`BRANCHES[(y-4)%12]`, the month uses `m+2`, the day `d+5`, the hour `floor(h/2)`, and every pillar is a valid sexagenary pair (stem and branch indices of equal parity) |
| BaZi.YearPillarPeriodic | components/pages/ProfileView.tsx:51-54 | y and y+60 give the same year pillar |
| BaZi.HourPillarPairs | components/pages/ProfileView.tsx:63-66 | hours 2k and 2k+1 give the same hour pillar |
| BaZi.TallyOf | components/pages/ProfileView.tsx:71-78 | the tally has exactly the five elements as keys |
| BaZi.CountsSum | components/pages/ProfileView.tsx:75-78 | each pillar adds one to its stem's element, so the counts over a list of pillars sum to its length |
| BaZi.TallySumsToFour | components/pages/ProfileView.tsx:71-78 | the tally of a chart sums to 4 |
| BaZi.FirstMaxIndex | components/pages/ProfileView.tsx:80-83 | the index picked has the greatest count, and every earlier element has a strictly smaller one |
| BaZi.Dominant | components/pages/ProfileView.tsx:80-83 | `main` has the greatest count, and a tie goes to the earliest element in the order 木, 火, 土, 金, 水 (a stable sort over insertion-ordered entries) |
| BaZi.DominantUnique | components/pages/ProfileView.tsx:80-83 | the greatest count with the earliest tie-break determines `main` |
| BaZi.CalcWuxing | components/pages/ProfileView.tsx:70-85 | the `forEach` loop builds exactly the tally, and `main` has the greatest count with the earliest tie-break |
| BaZi.DefaultBirthPillars | components/pages/ProfileView.tsx:92-104 | the default 1993-08-10 09:30 gives the pillars 癸酉, 癸酉, 己卯, 戊辰 |
| BaZi.DefaultChartTally | components/pages/ProfileView.tsx:92-104 | the default chart tallies 土=2, 水=2, all others 0, and the tie resolves to 土 |
| Auth.MemberOf | contexts/AuthContext.tsx:105-114 | the member record is the eight response fields, undefined where absent |
| Auth.TokenSegment | contexts/AuthContext.tsx:74 | `idToken.split(".")[1]` holds no dot; with one segment `atob` receives the text "undefined" |
| Auth.LineIdOf | contexts/AuthContext.tsx:73-76 | the LINE id is the decoded payload's `sub`; a decoding failure throws |
| Auth.SignedInExactly | contexts/AuthContext.tsx:52-127 | `initAuth` signs in exactly when the SDK is logged in, the token is present and decodes, and the login API answers with status "success" |
| Auth.ShortTokenSegment | contexts/AuthContext.tsx:74 | a token without a dot has "undefined" as its second segment |
| Auth.TokenSegmentIsPayload | contexts/AuthContext.tsx:73-76 | of a token `header.payload.signature` with dot-free parts, the segment `atob` receives is the payload |
| Auth.InitExit | contexts/AuthContext.tsx:52-127 | `liff.login()` happens exactly when the SDK is not logged in; a rejection exactly when the token decodes and the response is a value whose `status` is not "success"; an SDK failure, a missing or empty token, or a null response throws |
| Auth.AuthProvider.IsPaid | contexts/AuthContext.tsx:150 | `isPaid` holds exactly when the plan is the string "paid"; any other subscription value, missing included, is unpaid |
| Auth.AuthProvider.constructor | contexts/AuthContext.tsx:45-50 | the initial state is not logged in, loading, no member, plan "free", login sheet closed, no LINE uid |
| Auth.AuthProvider.OpenLogin | contexts/AuthContext.tsx:140 | `openLogin` opens the sheet and changes nothing else |
| Auth.AuthProvider.CloseLogin | contexts/AuthContext.tsx:141 | `closeLogin` closes the sheet and changes nothing else |
| Auth.AuthProvider.Logout | contexts/AuthContext.tsx:133-138 | `logout` removes the stored record, clears the member, logs out and sets the plan to "free", so the member is not paid |
| Auth.AuthProvider.InitAuth | contexts/AuthContext.tsx:51-131 | one run of `initAuth`: every exit ends loading; `liff.login()` changes nothing else; a throw logs out and keeps the member; a rejection clears the member and the plan; success stores the eight fields, the plan from `subscription`, and the persisted record; `lineUid` is set as soon as the token decodes |
| Auth.ViewUid | components/pages/CalendarView.tsx:100 | the views' `uid` is "guest" without a member and `String(member_id)` with one |
| Auth.NumericUidIsDigits | components/pages/DailyFortune.tsx:27-29 | a numeric member id prints as digits: never "guest", and never containing a vertical bar or a dash |
| Auth.GateFor | components/pages/MonthView.tsx:195-205 | the guard goes ahead exactly for a paid member, and to login exactly when there is no member |
| CalendarData.ScoreOr0 | components/data/CalendarView.ts:36-41 | `cn[k] ?? 0` is 0 exactly when the key's value is missing, otherwise that value |
| CalendarData.MapScores | components/data/CalendarView.ts:34-43 | `mapScores` throws only when the scores object is null or undefined; otherwise each of the six fields is its Chinese key's value or 0 |
| CalendarData.MapScoresRoundTrip | components/data/CalendarView.ts:34-43 | numbers under the six Chinese keys come back under the English fields |
| CalendarData.MapScoresEmpty | components/data/CalendarView.ts:34-43 | an empty scores object maps to all zeros |
| CalendarData.DayEntry | components/data/CalendarView.ts:52-57 | one day's record: `uid` defaults to "", `date` and `meta` pass through, scores are `mapScores`; it throws when the element or its scores are missing |
| CalendarData.AdaptDailyList | components/data/CalendarView.ts:48-61 | the `for...of` loop computes the specification `AdaptedDailyList`: `api.days` must be iterable, and each element is filed under its date |
| CalendarData.AdaptedDailyList | components/data/CalendarView.ts:48-61 | the specification of the loop: reading `days` of a null or undefined payload throws, a `days` that is neither an array nor a string throws a TypeError, and otherwise each element is filed under its date key |
| CalendarData.FailureSticks | components/data/CalendarView.ts:51-58 | once one element throws, the whole adapter throws |
| CalendarData.FailuresAreTypeErrors | components/data/CalendarView.ts:51-58 | every failure of the loop is a TypeError |
| CalendarData.DailyListStepOk | components/data/CalendarView.ts:51-58 | one more element succeeds exactly when the earlier ones did and the new one has its scores |
| CalendarData.DailyListStepValue | components/data/CalendarView.ts:52-57 | one more element writes its record under its date, over any earlier one |
| CalendarData.DailyListSucceeds | components/data/CalendarView.ts:51-58 | the loop succeeds exactly when every element has its scores |
| CalendarData.DailyListHasDates | components/data/CalendarView.ts:51-58 | every element's date is a key of the result |
| CalendarData.DailyListOnlyDates | components/data/CalendarView.ts:51-58 | every key of the result is some element's date |
| CalendarData.DailyListLastWins | components/data/CalendarView.ts:51-58 | each key holds the record of the last element with that date |
| CalendarData.StringDateKey | components/data/CalendarView.ts:52-54 | a string date is its own key, and the record's `date` equals its key |
| CalendarData.NonEmptyStringDaysFail | components/data/CalendarView.ts:51 | a non-empty string as `days` is iterated by character and throws on the missing scores |
| CalendarPage.SubjectKey | components/pages/CalendarView.tsx:126 | the key `${uid}-${period}` splits back to its uid when the uid has no dash |
| CalendarPage.SubjectKeySeparatesSubjects | components/pages/CalendarView.tsx:100-126 | guest and member keys (or any two different dash-free uids) never collide |
| CalendarPage.SubjectKeySeparatesMonths | components/pages/CalendarView.tsx:121-126 | one subject's different months have different keys |
| CalendarPage.CalendarStore.constructor | components/pages/CalendarView.tsx:14 | the calendar's cache starts empty |
| CalendarPage.Band | components/pages/CalendarView.tsx:31-43 | scores fall into four bands at the thresholds 8, 6 and 4 |
| CalendarPage.ScoreTone | components/pages/CalendarView.tsx:31-36 | `scoreTone` is the band's text class |
| CalendarPage.DotTone | components/pages/CalendarView.tsx:38-43 | `dotTone` is the band's dot class |
| CalendarPage.TonesAgree | components/pages/CalendarView.tsx:31-43 | two scores get the same text tone exactly when they get the same dot tone, exactly when they are in the same band |
| CalendarPage.CalendarView.constructor | components/pages/CalendarView.tsx:102-117 | the view starts at the first of today's month with today selected, no data, loading, no error and no paywall |
| CalendarPage.CalendarView.RunEffect | components/pages/CalendarView.tsx:123-135 | the effect waits for the session and a uid; a cached month is shown at once with no request; otherwise loading starts and exactly one request goes out under `${uid}-${ym}` |
| CalendarPage.CalendarView.Settle | components/pages/CalendarView.tsx:135-140 | only a successfully adapted month is shown and cached under its key; a failure writes nothing; loading stops either way |
| CalendarPage.CalendarView.Page | components/pages/CalendarView.tsx:162-172 | paging: no member opens the login sheet, an unpaid member gets the paywall, and a paid member moves the cursor by `delta` months; nothing else changes |
| CalendarPage.CalendarView.OnPrevMonth | components/pages/CalendarView.tsx:162-166 | the cursor moves only for a paid member, and then back by one month |
| CalendarPage.CalendarView.OnNextMonth | components/pages/CalendarView.tsx:168-172 | the cursor moves only for a paid member, and then forward by one month |
| CalendarPage.CalendarView.OnSelectDate | components/pages/CalendarView.tsx:174-178 | a blank cell does nothing, a guest gets the login sheet, and a member selects the date |
| MonthData.ScoresOf | components/data/MonthView.ts:53-59 | the five scores are copied as they are, and a missing scores object throws |
| MonthData.AiOf | components/data/MonthView.ts:61-67 | each of the five AI texts is the payload's `ai` entry when that is neither null nor undefined, and "" exactly when it is, so an absent `ai` gives "" throughout |
| MonthData.LuckyOf | components/data/MonthView.ts:69-73 | each of colour, stone and direction is the payload's `lucky` entry when that is neither null nor undefined, and the placeholder exactly when it is |
| MonthData.KeyDescOf | components/data/MonthView.ts:76-84 | `key` and `desc` are each the payload's part when it is neither null nor undefined, and "" exactly when it is |
| MonthData.ShishenOf | components/data/MonthView.ts:74-87 | `month_shishen` is absent exactly when the payload's is falsy; otherwise `main` is the key/desc pair of its `main`, and `sub` is absent exactly when its `sub` is falsy and is that key/desc pair otherwise |
| MonthData.AdaptMonthFortune | components/data/MonthView.ts:48-89 | the adapter succeeds exactly when the payload and its scores are present; `month` and `monthType` come from `month` and `month_type`; the scores, AI texts, lucky items (placeholder "") and shishen block are the parts above, field by field |
| MonthData.AdaptMonthComplete | components/data/MonthView.ts:48-89 | every adapted record has all its texts present |
| MonthData.ScoresRoundTrip | components/data/MonthView.ts:53-59 | scores encoded as a payload come back unchanged |
| MonthData.AiRoundTrip | components/data/MonthView.ts:61-67 | complete AI texts come back unchanged |
| MonthData.LuckyRoundTrip | components/data/MonthView.ts:69-73 | complete lucky items come back unchanged |
| MonthData.KeyDescRoundTrip | components/data/MonthView.ts:76-84 | a complete key/desc pair comes back unchanged |
| MonthData.ShishenRoundTrip | components/data/MonthView.ts:74-87 | a complete shishen block, with or without `sub`, comes back unchanged |
| MonthData.MonthRoundTrip | components/data/MonthView.ts:48-89 | every record the adapter can produce comes back unchanged from its own payload |
| MonthData.MonthDefaults | components/data/MonthView.ts:48-89 | a payload holding only an empty scores object shows every default |
| MonthData.PartialAiDefaults | components/data/MonthView.ts:61-67 | an `ai` object holding only `overall` keeps that text and gives "" for the other four |
| YearData.AdaptYearFortune | components/data/YearView.ts:35-60 | the adapter succeeds exactly when the payload and its scores are present; `year` and `yearType` come from `year` and `year_type`; the scores, AI texts (default "") and lucky items (placeholder "—") are the month adapter's parts, field by field |
| YearData.AdaptYearComplete | components/data/YearView.ts:35-60 | every adapted year record has all its texts present |
| YearData.YearRoundTrip | components/data/YearView.ts:35-60 | every record the adapter can produce comes back unchanged from its own payload |
| YearData.LuckyPlaceholders | components/data/YearView.ts:54-58 | without lucky items the month shows "" and the year "—", with the same scores and AI texts |
| YearData.PartialLuckyDash | components/data/YearView.ts:54-58 | a `lucky` object holding only `color` keeps that colour and shows "—" for the stone and the direction |
| MonthPage.MonthStore.constructor | components/pages/MonthView.tsx:13-17 | both caches start empty |
| MonthPage.MonthSlot | components/pages/MonthView.tsx:177-181 | a cached month is null in the round; a fetched one is the adapted record, or the rejection |
| MonthPage.YearSlot | components/pages/MonthView.tsx:177-181 | a cached year is null in the round; a fetched one is the adapted record, or the rejection |
| MonthPage.MonthView.constructor | components/pages/MonthView.tsx:133-152 | the view starts at the first of today's month with today selected, no fortunes, loading, no error and no paywall |
| MonthPage.MonthView.RunEffect | components/pages/MonthView.tsx:158-180 | the effect waits only for the session, with no access check; with both keys cached it shows them and stops loading; otherwise loading starts and a round fetches just the missing ones |
| MonthPage.MonthView.Settle | components/pages/MonthView.tsx:181-192 | if either slot rejects, the error is shown and nothing is cached; otherwise each fetched record is shown and cached, the month with an empty per-day record; loading stops either way |
| MonthPage.MonthView.GuardedChangeMonth | components/pages/MonthView.tsx:195-205 | no member opens the login sheet, an unpaid member gets the paywall, and a paid member moves the cursor |
| MonthPage.MonthView.OnPrevMonth | components/pages/MonthView.tsx:207-210 | the cursor moves only for a paid member, and then back by one month |
| MonthPage.MonthView.OnNextMonth | components/pages/MonthView.tsx:212-215 | the cursor moves only for a paid member, and then forward by one month |
| MonthPage.MonthAndYearKeysDiffer | components/pages/MonthView.tsx:161-162 | a subject's month key and year key never collide |
| MonthPage.FirstRuleColor | components/pages/MonthView.tsx:66-77 | the first-match rule over the priority table: the first listed word present wins, and "text-white" when none is |
| MonthPage.ColorByTextIsFirstRule | components/pages/MonthView.tsx:66-77 | `colorByText`'s if-chain is the first-match rule over 紅, 黃, 金, 白, 綠, 藍, 紫, 黑 |
| MonthPage.ColorPriority | components/pages/MonthView.tsx:66-77 | a word earlier in the priority wins over every later one in the same text |
| MonthPage.ColorExamples | components/pages/MonthView.tsx:66-77 | "金色" is gold, "紅白" is red, and "灰" falls back to white |
| MonthPage.ColorByText | components/pages/MonthView.tsx:66-77 | `colorByText`: the class of the first of 紅, 黃, 金, 白, 綠, 藍, 紫, 黑 found in the text, "text-white" for none (MonthPage.ColorByTextIsFirstRule) |
| ProfileData.EmptyProfile | components/data/profile.ts:62-113 | the empty profile has empty birth texts, gender 男, every schedule and notify flag false, the five element counts and the ten gods each listed once and all 0, an empty day master, support, drain and ratio 0, and the result 一般 |
| ProfileData.EmptyStrength | components/data/profile.ts:84-90 | the empty strength block: day master "", support, drain and ratio 0, result 一般 |
| ProfileData.EmptyWuxing | components/data/profile.ts:92-98 | the empty element tally lists 木, 火, 土, 金, 水 once each, all 0 |
| ProfileData.EmptyTenGod | components/data/profile.ts:100-111 | the empty ten-god tally lists the ten gods once each, all 0 |
| ProfileData.SafeParse | components/data/profile.ts:119-126 | a falsy input or an unparsable one gives the fallback; otherwise the parsed value |
| ProfileData.TokensOf | components/data/profile.ts:135-136 | `(v ?? "").split(",")` succeeds exactly on a missing value (one empty token) or a string |
| ProfileData.BirthTimeOf | components/data/profile.ts:141 | a falsy birth time gives ""; a truthy one keeps its first five elements, and throws unless it is a string or an array |
| ProfileData.MapApiToProfile | components/data/profile.ts:132-174 | the mapping throws exactly when the payload is missing or the schedule/section/birth time has the wrong type; otherwise birth, flags and the three parsed blocks are as the source builds them |
| ProfileData.GetProfile | components/data/profile.ts:195-207 | no mid gives the empty profile without a request; any error on the request path also gives it; otherwise the mapped profile |
| ProfileData.EmptyPayloadIsEmptyProfile | components/data/profile.ts:132-174 | a payload with no fields maps to exactly the empty profile |
| ProfileData.ScheduleTokens | components/data/profile.ts:135-148 | a schedule flag is set exactly when its label is one of the comma-separated tokens |
| ProfileData.SectionTokens | components/data/profile.ts:136-157 | a notify flag is set exactly when its label is one of the comma-separated tokens |
| ProfileData.BirthTimeText | components/data/profile.ts:141 | a textual birth time keeps a prefix of at most five characters, all of it when it is no longer |
| ProfileData.GenderExact | components/data/profile.ts:142 | the gender is 女 exactly when the payload's gender is the text "女" |
| DailyFortuneData.SearchPictograph | components/data/DailyFortune.ts:23-25 | the search gives the first character in U+1F300..U+1FAFF, or -1 exactly when there is none |
| DailyFortuneData.SectionText | components/data/DailyFortune.ts:27-30 | the section is a slice of the text from the marker, at least as long as the marker |
| DailyFortuneData.ExtractSection | components/data/DailyFortune.ts:19-37 | no marker gives []; otherwise the cleaned lines of the section after its first line |
| DailyFortuneData.TrimAll | components/data/DailyFortune.ts:35 | as many lines come out as went in, each the trimmed form of the line at its position |
| DailyFortuneData.CleanLinesFrom | components/data/DailyFortune.ts:35-36 | every output line is the non-empty trimmed form of an input line at or after its own position |
| DailyFortuneData.CleanLinesKeeps | components/data/DailyFortune.ts:35-36 | every non-blank input line comes out trimmed |
| DailyFortuneData.CleanLinesTrimmed | components/data/DailyFortune.ts:35-36 | every output line is non-empty and already trimmed |
| DailyFortuneData.CleanLinesLength | components/data/DailyFortune.ts:35-36 | no more lines come out than went in, and as many when none is blank |
| DailyFortuneData.CleanLinesChars | components/data/DailyFortune.ts:35-36 | output lines hold only characters of input lines |
| DailyFortuneData.NoPictographInLines | components/data/DailyFortune.ts:23-36 | no returned line holds a character in U+1F300..U+1FAFF |
| DailyFortuneData.SectionToEnd | components/data/DailyFortune.ts:27-29 | without a later pictograph the section runs to the end of the text |
| DailyFortuneData.SectionStopsAtPictograph | components/data/DailyFortune.ts:27-30 | with one, the section ends just before the first pictograph after the marker |
| DailyFortuneData.CleanLinesAppend | components/data/DailyFortune.ts:35-36 | lines keep their order: cleaning a concatenation cleans each part in turn |
| DailyFortuneData.ExtractSectionExample | components/data/DailyFortune.ts:19-37 | "🌟\n 順利 \n💰" with marker 🌟 gives ["順利"]: the marker's line is dropped and the next emoji ends the section |
| DailyFortunePage.CacheKey | components/pages/DailyFortune.tsx:31 | the key `${uid}`, a vertical bar, `${date}` splits back to its uid when the uid has no vertical bar |
| DailyFortunePage.CacheKeyInjective | components/pages/DailyFortune.tsx:27-31 | with no vertical bar in the uids, a key determines the uid and the date |
| DailyFortunePage.GuestKeySeparate | components/pages/DailyFortune.tsx:27-31 | a guest and a member with a numeric id never share an entry |
| DailyFortunePage.DailyStore.constructor | components/pages/DailyFortune.tsx:6-7 | the cache and the pending set start empty |
| DailyFortunePage.DailyStore.Hit | components/pages/DailyFortune.tsx:33 | a cache hit needs the key present and its entry truthy, so a cached falsy value is fetched again |
| DailyFortunePage.DailyView.constructor | components/pages/DailyFortune.tsx:19-20 | a view starts with no data and loading |
| DailyFortunePage.DailyView.RunEffect | components/pages/DailyFortune.tsx:24-45 | while the session loads nothing happens; a truthy hit shows the cached response and touches nothing else; a pending key returns at once and the caller gets nothing; otherwise the key is marked pending and one request starts; the cache is never written here |
| DailyFortunePage.DailyView.Settle | components/pages/DailyFortune.tsx:45-53 | a response is cached under its key and shown; a rejection writes nothing, so a later run retries; the key leaves the pending set and loading stops either way |
| DailyFortunePage.AtMostOneOutstanding | components/pages/DailyFortune.tsx:39-41 | at most one request per key is outstanding, and one is outstanding exactly when the key is pending |
| DailyFortunePage.Emoji | components/pages/DailyFortune.tsx:151-162 | each section's marker is one of the six markers, one character long and not white space |
| DailyFortunePage.EmojiInjective | components/pages/DailyFortune.tsx:151-158 | distinct sections have distinct markers |
| DailyFortunePage.NearestMarker | components/pages/DailyFortune.tsx:169-173 | the least index from `start + 1` (the same as `start + 2` for one-character markers) where any marker occurs, or the text's length when none does |
| DailyFortunePage.ExtractBlock | components/pages/DailyFortune.tsx:145-176 | "" for no text, an empty text, or no key, and when the key's marker does not occur; otherwise the trimmed slice from the marker to the nearest later marker or the end |
| DailyFortunePage.MarkerAtChar | components/pages/DailyFortune.tsx:160 | a marker occurs exactly where a marker character stands |
| DailyFortunePage.TrimKeepsHead | components/pages/DailyFortune.tsx:175 | trimming a block that starts with a non-space keeps its start and cuts only the end |
| DailyFortunePage.NoMarkerBefore | components/pages/DailyFortune.tsx:169-175 | no marker character stands between a search position and the nearest marker found from it |
| DailyFortunePage.BlockShape | components/pages/DailyFortune.tsx:165-175 | the block a found marker opens starts with that marker and holds no other |
| DailyFortunePage.ExtractBlockShape | components/pages/DailyFortune.tsx:145-176 | a found section's text begins with its own marker and holds no other marker |
| DailyFortunePage.ScoreColor | components/pages/DailyFortune.tsx:178-186 | green exactly from 8, yellow exactly from 5 below 8, red below 5 or when `Number(score)` is not a number |
| DailyFortunePage.ScoreColorMonotone | components/pages/DailyFortune.tsx:178-182 | a higher score never gets a lower colour |
| HomeData.Normalize | components/data/HomePage.ts:32-34 | `min(5, round(v))`: at most 5, at least 0 for v >= 0, exactly 5 from 4.5, and the nearest integer below 4.5 |
| HomeData.ElementOf | components/data/HomePage.ts:81-91 | the element a wuxing key names, and then its name is the key |
| HomeData.ElementOfName | components/data/HomePage.ts:81-87 | every element's name is recognised as that element |
| HomeData.Lookup | components/data/HomePage.ts:73-74 | `json.data[k]` is absent exactly when no entry has the key, and otherwise it is an entry filed under it |
| HomeData.Keys | components/data/HomePage.ts:77 | `Object.keys` lists every entry's key in order |
| HomeData.Values | components/data/HomePage.ts:71 | `Object.values` lists every entry's day in order |
| HomeData.PickToday | components/data/HomePage.ts:73-79 | `today` is the entry at today's date if present; otherwise the entry under the key that sorts last; an empty table throws |
| HomeData.PickTodayLatest | components/data/HomePage.ts:76-79 | without an entry for today, a non-empty table gives one of its own days |
| HomeData.TrendMap | components/data/HomePage.ts:81-93 | the series map has all five elements, each with its specification series |
| HomeData.BuildTrend | components/data/HomePage.ts:81-93 | the nested `forEach` loops succeed exactly when every day's keys name elements, then give the specification series; otherwise `push` meets an undefined series and throws a TypeError |
| HomeData.PushDay | components/data/HomePage.ts:90-92 | the inner loop appends this day's normalized values to the series of the elements they name, and throws on an unknown key |
| HomeData.DayValuesSingle | components/data/HomePage.ts:90-92 | a day that names an element once contributes its one normalized value |
| HomeData.DayValuesNone | components/data/HomePage.ts:90-92 | a day without the element contributes nothing to its series |
| HomeData.TrendOneValuePerDay | components/data/HomePage.ts:81-93 | when every day names the element once, its series has one value per day in day order, each that day's normalized value |
| HomeData.TrendAppend | components/data/HomePage.ts:89-93 | each series is the series of the earlier days followed by that of the later ones |
| HomeData.TrendBounded | components/data/HomePage.ts:81-93 | every series value is at most 5, and at least 0 when the server's values are |
| HomeData.DayValuesBounded | components/data/HomePage.ts:90-92 | a day's values are at most 5, and at least 0 when the server's are |
| HomeData.GanzhiText | components/data/HomePage.ts:98 | the ganzhi text splits at '｜' into the year and the day; the month is omitted |
| HomeData.WuxingItems | components/data/HomePage.ts:102-105 | one `{key, value}` item per key of today's wuxing, in order, with the value normalized |
| HomeData.Receive | components/data/HomePage.ts:70-108 | the handler computes the specification `TodayOf`: today's pick, the series from the loops, and the record |
| HomeData.TodayOf | components/data/HomePage.ts:70-108 | the specification of the handler: today's pick with its ganzhi text, trend direction ("flat" for null), normalized items and seven-day series, or a TypeError for an empty table or an unknown element key (HomeData.TodayOfFields) |
| HomeData.TodayOfFields | components/data/HomePage.ts:70-108 | the handler succeeds exactly when a day can be picked and all keys name elements, fails only with a TypeError, and a null trend direction becomes "flat" |
| HomeData.FortuneFeed.constructor | components/data/HomePage.ts:60-62 | the hook starts with no data, loading, and no error |
| HomeData.FortuneFeed.Settle | components/data/HomePage.ts:68-111 | a request or handler error is kept and the data left alone; a record is stored; loading stops either way |
| HomePageView.TrendArrow | components/pages/HomePage.tsx:34-36 | up gives ↑, down gives ↓, and anything else → |
| HomePageView.StatusLabel | components/pages/HomePage.tsx:38-43 | 4 and up is 偏旺/good, 3 is 平衡/neutral, 2 is 偏低/warn, anything else 弱/danger |
| HomePageView.StatusMonotone | components/pages/HomePage.tsx:38-43 | a larger value never gets a weaker label |
| HomePageView.ToneClass | components/pages/HomePage.tsx:45-52 | each tone's text class |
| HomePageView.ToneClassInjective | components/pages/HomePage.tsx:45-52 | distinct tones get distinct classes |
| HomePageView.BarWidth | components/pages/HomePage.tsx:192 | the bar width is value × 20 percent: 0..100 for values 0..5, and 100 exactly at 5 |
| HomePageView.RoundedBarFits | components/pages/HomePage.tsx:192 | the bar of a normalized non-negative value fits the row, full from 4.5 |
| HomePageView.ToggleLabel | components/pages/HomePage.tsx:134 | the toggle reads "收合 7 日趨勢" when expanded and "查看 7 日趨勢 →" otherwise |
| HomePageView.SeriesFor | components/pages/HomePage.tsx:158 | the bar's series is `trend7ByWuxing[active]`, absent when `active` names no element |
| HomePageView.Render | components/pages/HomePage.tsx:70-165 | the session check first, then loading, then missing data, then content; no member gives the login hint with the session's `lineUid ?? ""`; `user_fortune_id === -1` gives the toggle alone; any other member gets the toggle and, exactly when expanded, the chart for the selected element |
| HomePageView.ChartOnlyForCharted | components/pages/HomePage.tsx:126-165 | a series shows exactly for a member with a chart who has expanded the trend |
| HomePageView.HomeView.constructor | components/pages/HomePage.tsx:61-62 | the trend starts collapsed, on 木 |
| HomePageView.HomeView.OnData | components/pages/HomePage.tsx:64-68 | a present dominant element becomes the selection; otherwise it stays |
| HomePageView.HomeView.ToggleTrend | components/pages/HomePage.tsx:131 | the toggle flips the expansion and nothing else |
| HomePageView.HomeView.SelectWuxing | components/pages/HomePage.tsx:148-151 | the selector sets the selection and nothing else |
| AppPage.MapDominantToElement | app/page.tsx:77-88 | the table maps exactly the five element names, each to its English name |
| AppPage.DominantNames | app/page.tsx:80-87 | 木→wood, 火→fire, 土→earth, 金→metal, 水→water |
| AppPage.MapDominantInjective | app/page.tsx:80-87 | distinct names give distinct elements |
| AppPage.FindValue | app/page.tsx:94-98 | `find(...)?.value` is absent exactly when no item has the key |
| AppPage.FindValueFirst | app/page.tsx:94-98 | `find` answers with the first item that has the key |
| AppPage.ToWuxingCount | app/page.tsx:90-100 | each count is the first matching item's value, or 0 |
| AppPage.CountOfFirstItem | app/page.tsx:94 | the wood count is the first 木 item's value, so list order settles duplicates |
| AppPage.MissingCountsZero | app/page.tsx:98 | an element missing from the list counts 0 |
| AppPage.CountsOfTodayItems | app/page.tsx:97 | the count built from today's items is the normalized server value |
| AppPage.ViewFor | app/page.tsx:63-68 | exactly one view for each of wuxing, fortune, calendar and profile, and none for any other tab |
| AppPage.MonthTabRendersNothing | app/page.tsx:63-68 | the month tab renders no view |
| AppPage.PanelFor | app/page.tsx:63-68 | the corrected panel: the month tab shows the month view, and every other tab is as written |
| AppPage.Page | app/page.tsx:29-70 | as written: loading first, then missing data, then the sphere (date, ganzhi, English element, counts) with the view the tab selects, and no view for the month tab |
| AppPage.WiredPage | app/page.tsx:29-70 | the corrected page: as written, with the panel the corrected `PanelFor` gives, so the month tab shows the month view |
| AppPage.WiredPageDiffersOnlyOnMonth | app/page.tsx:63-68 | the two pages agree on every tab but month, where the page as written shows an empty panel and the corrected one the month view |
| TopNav.LoginState | components/layout/TopNav.tsx:17-18 | `loginState` equals `isLogin`, because the development switch is off |
| TopNav.Tabs | components/layout/TopNav.tsx:20-30 | signed in: the five tabs in order; signed out: only wuxing |
| TopNav.TabsShape | components/layout/TopNav.tsx:20-30 | the guest list is a prefix of the member list, of lengths 1 and 5, with distinct keys |
| TopNav.OfferedTabsHaveViews | components/layout/TopNav.tsx:20-30 | with the month tab wired, every offered tab has a view |
| TopNav.MonthTabOfferedButBlank | components/layout/TopNav.tsx:25 | as written, a member is offered a tab that shows nothing |

## Left out

- Network and SDK calls are left out: `fetch*` bodies, URLs, `res.ok`/`res.json()`, `getProfileAPI`'s HTTP part, lib/liff.ts and `liff.login()`. Their outcomes are parameters: a parsed payload, or the error thrown.
- `atob` plus `JSON.parse` of the token segment, the profile's `JSON.parse`, and `String(number)` are fields of an `Engine` record. Their behaviour is an input, not modelled.
- localStorage is the field `stored` of the session provider. Storage quota errors are not modelled.
- React is left out: rendering, hook scheduling, effect dependencies, and JSX layout. Effects are methods the caller runs, and settles are methods that take the response.
- Stale responses are not modelled. A response that settles after the cursor or subject has moved writes its original key and turns loading off, as the source does. The model does not relate it to later effect runs.
- Waiters are not served. A daily view that finds its key pending gets nothing, as in the source. The model has no queue of waiters.
- Duplicate requests in the calendar and month views are not deduplicated. Those views have no pending set, so two runs before a settle both request.
- Numbers are reals. `normalize` rounds with `Floor(v + 0.5)`; IEEE details are not modelled. No payload number is NaN, because JSON cannot produce one.
- DailyFortunePage.ScoreColor takes `Number(score)` as an option: a non-numeric text is None and colours red, as NaN does.
- Today's date is a parameter: the UTC `toISOString` date in the home feed, and the local date in the views. Time zones and `getRange` are not modelled.
- `getDay()` is a day-count formula over the proleptic Gregorian calendar, with 1970-01-01 a Thursday.
- Dates.AddMonths models `new Date(y, m, 1)` for every year, including the two-digit years 0..99 that JavaScript reads as 1900..1999. The round-trip lemmas state the years they hold for, and Dates.PrevThenNextAtYear100 exhibits the boundary.
- BaZi.CalcBaZi requires year 4 or later, so that JavaScript's `%` agrees with Dafny's. Month, day and hour are the ranges `Date` reports.
- BaZi.Dominant models the sort by its first element: a stable descending sort over entries in the order 木, 火, 土, 金, 水. The sorted array itself is not built.
- Text.MaxKey models `keys.sort()` by its last element. It compares strings by code points. JavaScript compares UTF-16 units, which agree for the date keys the server sends.
- Strings are sequences of code points. UTF-16 lengths are not modelled, so "start + 2" in `extractBlock` becomes "start + 1" for the one-code-point markers, which is the same position.
- Objects are ordered key/value lists. Property order is the server's key order. Integer-like keys, which JavaScript lists first, are not modelled.
- The home feed takes each day to have the declared field types (`date`, `ganzhi`, `wuxing` and the rest). A day record with a missing `ganzhi` or a null `json.data` is not modelled.
- DailyFortunePage.ExtractBlock keys are a datatype, so the source's `!emoji` branch for an unknown key cannot happen here. The `!key` case is the option None.
- DailyFortuneData.NoPictographInLines requires the marker to hold no line break, which every section marker satisfies.
- The top navigation's `DEV_FORCE_LOGIN` is the constant false, and the provider's own `DEV_FORCE_LOGIN` branch is never taken, so it is not modelled.
- The `SevenDayBar` heights, the `WuxingSegmented` offsets, CosmicSphere and its particles, and the section toggles are visuals, and are left out.
- The month view's `cells` grid is the same construction as the calendar's and is modelled once, by Dates.Cells.
- `console.log` and `console.error` (components/data/profile.ts:182, 196 and 204, contexts/AuthContext.tsx:123) only write to the browser console, and are left out.
- BaZi.CalcBaZi takes the year, month, day and hour as integers. ProfileView's `new Date(`${birthDate}T${birthTime}:00`)` gives an Invalid Date when the birth input is cleared, and the NaN indices that follow are not modelled.
- The `selected` lookups (`monthData[selectedISO]`) and the `isSameDay` highlight are render-time reads, and are left out.

## Findings

| source | as written | input that shows it | evidently intended | confidence | as-written member | corrected member |
|---|---|---|---|---|---|---|
| app/page.tsx:63-68 | the page renders a view for wuxing, fortune, calendar and profile only, while the navigation offers members a fifth tab, month (月曆, components/layout/TopNav.tsx:25) | a signed-in member selects the tab "month": the content panel is empty | the month tab shows the month view | not executed | AppPage.ViewFor (with AppPage.MonthTabRendersNothing and TopNav.MonthTabOfferedButBlank; AppPage.Page uses it) | AppPage.PanelFor (with TopNav.OfferedTabsHaveViews; AppPage.WiredPage uses it, and AppPage.WiredPageDiffersOnlyOnMonth relates it to AppPage.Page) |
