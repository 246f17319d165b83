# Lichess dashboard: tournament feed and player profile, in Dafny

This project models the logic inside the Lichess dashboard, a React front end
over the public Lichess API. It covers three parts.

- **The tournament feed** (`getTournaments` in the service layer). Given the
  list from the tournament endpoint and the current instant, it sorts each
  tournament into *created* (not started), *started* (running, both ends
  inclusive) or *finished*. It orders created and started by start
  ascending and finished by start descending, using a stable sort like
  `Array.prototype.sort`. Then it keeps the ten finished tournaments that
  started most recently.
- **The tournaments page**:
  - the "Starts in 1d 2h 5m" countdown;
  - the Upcoming / In Progress / Completed badge;
  - the page state that one fetch updates (bucket contents, loading flag,
    error text, active tab).
- **The player profile page**:
  - the account-age text ("2 years, 3 months") and the last-seen text
    ("Last seen 5 minutes ago");
  - the card value built from the last-seen text;
  - the display form of the social links;
  - the rating badge's label fallback and progress arrow;
  - the page state that `fetchProfile`, a search submit and a refresh
    update: profile, error, loading and refreshing flags, and the route's
    username.

Instants are integer milliseconds. The current instant, the result of each
HTTP request, and the locale's date rendering are all passed in as
parameters.

Modules:

- `Wrappers`: the Option and Result datatypes.
- `Text`: the JavaScript string built-ins the code relies on. These are
  decimal rendering in template literals, `split` and `join` with a
  one-character separator, and `trim` with the ECMAScript whitespace set.
  Decimal rendering and the "N unit[s]" phrases come with a reader, and
  `split` and `join` are proved inverse to each other. For `trim`, the model
  states which characters each end drops and when the result is "".
- `TournamentFeed`: `getTournaments`.
- `TournamentsPage`: the countdown, the badge, and a `TournamentsView` class
  for the page state.
- `UserProfile`: the profile texts, the links, the badge, and a
  `ProfileView` class for the page state.

Four rendered texts have a reader beside them: the countdown, the account
age, the last-seen text and the progress arrow. For each, a lemma proves
that reading the text gives back the quantity it encodes: whole minutes;
years and months; whole minutes, hours or days; a signed progress. The
thresholds and the plural choices are stated against the reader. The other
texts (the badge, the card value, the link display) are stated directly.

### Where the documentation and the code differ

One might expect a tournament whose finish lies in the past to count as
finished. The code tests `now < start` first. So a malformed
record with `finishesAt < now < startsAt` is *created*. The model follows
the code: `Classify` is *finished* exactly when `startsAt <= now` and
`finishesAt < now`.

### Behaviour worth knowing

- An account 360 to 364 days old reads "12 months". This follows from 30-day
  months inside a 365-day year (`TwelveMonths`).
- A seen-time in the future reads "Online now", because the difference is
  negative (`LastSeenOnline`).
- A refresh of a profile whose username is blank raises the refreshing flag,
  and it stays raised until the next fetch that passes the guard. The fetch's guard returns before its cleanup runs
  (`HandleRefresh`). The API is expected to return a username with every
  profile, so this should not happen in practice.

## Model

| member | source | states |
|---|---|---|
| TournamentFeed.Classify | lichess-dashboard/src/services/lichess.js:68-77 | created iff `now < startsAt`; started iff `startsAt <= now <= finishesAt`; finished iff `startsAt <= now` and `finishesAt < now` |
| TournamentFeed.GetTournaments | lichess-dashboard/src/services/lichess.js:58-89 | the pushing loop, the three sorts and the slice give exactly `Categorize(now, data)`; the finished bucket has at most 10 entries |
| TournamentFeed.Bucket | lichess-dashboard/src/services/lichess.js:67-79 | the tournaments one status selects, in input order, never more than the input; its contents are stated by BucketMembership, BucketsPartition and BucketsDisjoint |
| TournamentFeed.StableSort | lichess-dashboard/src/services/lichess.js:82-84 | a stable sort by start in either direction, of the input's length; permutation, order and stability are StableSortPermutation, StableSortOrdered and StableSortStable |
| TournamentFeed.Categorize | lichess-dashboard/src/services/lichess.js:58-89 | the value `getTournaments` returns; its properties are CategorizeMembership, CategorizePermutation, CategorizeOrdered, CategorizeStable, FinishedTruncation and FinishedBounded |
| TournamentFeed.BucketMembership | lichess-dashboard/src/services/lichess.js:67-79 | a tournament is in a bucket iff it is in the input and its times select that bucket |
| TournamentFeed.BucketsPartition | lichess-dashboard/src/services/lichess.js:67-79 | the three buckets together are a permutation of the input |
| TournamentFeed.InsertPermutation | lichess-dashboard/src/services/lichess.js:82-84 | inserting an element into a sequence adds exactly that element to its multiset |
| TournamentFeed.InsertOrdered | lichess-dashboard/src/services/lichess.js:82-84 | inserting into an ordered sequence keeps it ordered |
| TournamentFeed.StableSortPermutation | lichess-dashboard/src/services/lichess.js:82-84 | the sort is a permutation of its input |
| TournamentFeed.StableSortOrdered | lichess-dashboard/src/services/lichess.js:82-84 | the sort's output is ordered by start, ascending or descending as asked |
| TournamentFeed.StableSortStable | lichess-dashboard/src/services/lichess.js:82-84 | tournaments with equal starts keep their input order |
| TournamentFeed.CategorizeMembership | lichess-dashboard/src/services/lichess.js:67-87 | created and started hold exactly the input tournaments their times select; every finished entry is an input tournament that is over |
| TournamentFeed.BucketsDisjoint | lichess-dashboard/src/services/lichess.js:71-77 | no tournament is in two buckets |
| TournamentFeed.CategorizePermutation | lichess-dashboard/src/services/lichess.js:67-84 | before the cut, the buckets hold the input exactly, multiplicities included, and their lengths add up to the input's |
| TournamentFeed.CreatedStartedComplete | lichess-dashboard/src/services/lichess.js:82-87 | the created and started buckets are never shortened |
| TournamentFeed.CategorizeOrdered | lichess-dashboard/src/services/lichess.js:82-84 | created and started are in start order ascending, finished in start order descending |
| TournamentFeed.CategorizeStable | lichess-dashboard/src/services/lichess.js:82-84 | within each bucket, tournaments with equal starts appear in input order |
| TournamentFeed.FinishedTruncation | lichess-dashboard/src/services/lichess.js:84-87 | finished is the first min(10, n) of the sorted finished tournaments; no dropped one started later than a kept one |
| TournamentFeed.FinishedBounded | lichess-dashboard/src/services/lichess.js:87 | at most 10 finished are kept, and exactly 10 when at least 10 are over |
| TournamentFeed.ExampleOneOfEach | lichess-dashboard/src/services/lichess.js:71-77 | one past, one running and one future tournament land in finished, started and created |
| TournamentsPage.BadgeText | lichess-dashboard/src/pages/Tournaments.jsx:69-81 | the captions "Upcoming", "In Progress" and "Completed"; BadgeTextInjective states they tell the badges apart |
| TournamentsPage.BadgeTextInjective | lichess-dashboard/src/pages/Tournaments.jsx:66-84 | two badges have the same caption iff they are the same badge |
| TournamentsPage.StatusBadge | lichess-dashboard/src/pages/Tournaments.jsx:61-85 | the badge for a tournament at an instant, tested in the source's order; BadgeAgreesWithBucket and BadgeOfListed tie it to the feed |
| TournamentsPage.CountdownParts | lichess-dashboard/src/pages/Tournaments.jsx:53-56 | the pushed "Nd", "Nh", "Nm" pieces; CountdownPartsComponents ties each piece to its own component of the split, and CountdownPartsMinutes, CountdownPartsOrder, CountdownPartsZero, CountdownPartsPositive and CountdownPartsNoSpace state their sum, order and shape |
| TournamentsPage.StartsInText | lichess-dashboard/src/pages/Tournaments.jsx:58 | "Starts in " followed by the pieces joined by spaces; ReadStartsInRoundTrip and StartsInIsNotStartingNow state its meaning |
| TournamentsPage.BadgeAgreesWithBucket | lichess-dashboard/src/pages/Tournaments.jsx:61-85 | the badge is the one for the feed's classification of the same tournament at the same instant |
| TournamentsPage.BadgeOfListed | lichess-dashboard/src/pages/Tournaments.jsx:61-85 | a tournament in the created, started or finished list shows Upcoming, In Progress or Completed |
| TournamentsPage.SplitMinutes | lichess-dashboard/src/pages/Tournaments.jsx:47-51 | the days, hours and minutes add up to the total minutes, with hours < 24 and minutes < 60 |
| TournamentsPage.SplitMinutesUnique | lichess-dashboard/src/pages/Tournaments.jsx:47-51 | that decomposition is the only one with hours < 24 and minutes < 60 |
| TournamentsPage.FormatTimeLeft | lichess-dashboard/src/pages/Tournaments.jsx:40-59 | "Starting now" iff the start is not in the future; otherwise the text reads back to the whole minutes left, and is "Starts in 0m" under one minute |
| TournamentsPage.ReadStartsInRoundTrip | lichess-dashboard/src/pages/Tournaments.jsx:53-58 | "Starts in ..." for any countdown reads back to its total minutes |
| TournamentsPage.CountdownPartsComponents | lichess-dashboard/src/pages/Tournaments.jsx:54-56 | a days piece appears iff days > 0, an hours piece iff hours > 0, a minutes piece iff minutes > 0 or neither came before; every piece is its own component's count followed by its unit letter |
| TournamentsPage.CountdownPartsMinutes | lichess-dashboard/src/pages/Tournaments.jsx:53-56 | the pushed pieces together stand for the countdown's total minutes |
| TournamentsPage.CountdownPartsOrder | lichess-dashboard/src/pages/Tournaments.jsx:53-56 | there are one to three pieces, in strictly decreasing units (d, h, m) |
| TournamentsPage.CountdownPartsZero | lichess-dashboard/src/pages/Tournaments.jsx:56 | the pieces are just "0m" iff the countdown is zero |
| TournamentsPage.CountdownPartsPositive | lichess-dashboard/src/pages/Tournaments.jsx:54-56 | for a nonzero countdown, no piece stands for zero |
| TournamentsPage.CountdownPartsNoSpace | lichess-dashboard/src/pages/Tournaments.jsx:54-58 | no piece contains the space `join` puts between them |
| TournamentsPage.StartsInIsNotStartingNow | lichess-dashboard/src/pages/Tournaments.jsx:45-58 | a countdown text is never "Starting now" |
| TournamentsPage.TournamentsView.constructor | lichess-dashboard/src/pages/Tournaments.jsx:5-12 | empty buckets, loading, no error, the started tab |
| TournamentsPage.TournamentsView.FetchTournaments | lichess-dashboard/src/pages/Tournaments.jsx:15-27 | on success the buckets are the feed's result and the error is cleared; on failure the buckets stay and the error text is set; loading is off either way; the tab is unchanged |
| TournamentsPage.TournamentsView.SelectTab | lichess-dashboard/src/pages/Tournaments.jsx:158-188 | sets the active tab and nothing else |
| UserProfile.AgeText | lichess-dashboard/src/pages/UserProfile.jsx:122-125 | the text for an age in years and months: the years phrase only for a positive year count, the months phrase when there are months or no years; AgeTextRoundTrip, YearsMonthsRoundTrip, YearsRoundTrip, MonthsRoundTrip and ReadAgeZeroYears state it |
| UserProfile.AccountAge | lichess-dashboard/src/pages/UserProfile.jsx:114-126 | `getAccountAge`: days from AgeDays, years and months from AgeOf, text from AgeText; AccountAgeRoundTrip, AccountAgeNew and TwelveMonths state it, and with no whole year the text is the months phrase alone |
| UserProfile.FormatLastSeen | lichess-dashboard/src/pages/UserProfile.jsx:129-142 | `formatLastSeen` on the millisecond difference with the source's floors and thresholds; LastSeenLadder, LastSeenOnline and LastSeenPrefix state it |
| UserProfile.ReplaceFirst | lichess-dashboard/src/pages/UserProfile.jsx:311 | `replace` with a string pattern and an empty replacement: a text that starts with the pattern loses exactly that prefix; a text in which the pattern never occurs, shorter texts included, is unchanged; the result is never longer |
| UserProfile.LastSeenStat | lichess-dashboard/src/pages/UserProfile.jsx:311 | the card value: "Now" when the first word is "Online", else the text with its first "Last seen " removed; LastSeenStatValue states it for every last-seen text |
| UserProfile.DisplayLink | lichess-dashboard/src/pages/UserProfile.jsx:371 | the link with one leading http(s):// and one trailing "/" removed; DisplayLinkReassembles, SchemePrefixCases and DisplayLinkPlain state it |
| UserProfile.SocialLinks | lichess-dashboard/src/pages/UserProfile.jsx:359-371 | the links section: nothing for an empty field, otherwise one link per space-separated piece; SocialLinksCover states it |
| UserProfile.VariantStyle | lichess-dashboard/src/pages/UserProfile.jsx:24-33 | the colour and label lookup with its grey, raw-key fallback; KnownVariantLabel and OtherVariantLabel state both branches |
| UserProfile.ProgressIndicator | lichess-dashboard/src/pages/UserProfile.jsx:46-49 | the arrow for a progress: none at zero, green up or red down with the absolute value; ProgressRoundTrip states it |
| UserProfile.ProgressOf | lichess-dashboard/src/pages/UserProfile.jsx:325 | the progress passed to the badge, zero when the server omits it; RatingBadgeProgress states it |
| UserProfile.AgeDays | lichess-dashboard/src/pages/UserProfile.jsx:117-118 | the smallest number of whole days covering the absolute gap between the two instants |
| UserProfile.AgeOf | lichess-dashboard/src/pages/UserProfile.jsx:119-120 | the years are the whole 365-day years in the days, the months the whole 30-day months left over, at most 12 |
| UserProfile.AccountAgeRoundTrip | lichess-dashboard/src/pages/UserProfile.jsx:114-126 | the account-age text reads back to exactly those years and months, each noun plural iff its count is not 1; with no whole year it is "M month[s]" alone |
| UserProfile.AgeTextRoundTrip | lichess-dashboard/src/pages/UserProfile.jsx:122-125 | the text of any age in years and months reads back to that age; with no years it is the months phrase alone, with no "0 years" part |
| UserProfile.ReadAgeZeroYears | lichess-dashboard/src/pages/UserProfile.jsx:122-125 | no text opening with "0 years" reads as an age: the years phrase is only written for a positive count |
| UserProfile.YearsMonthsRoundTrip | lichess-dashboard/src/pages/UserProfile.jsx:122-123 | with years and months, the text is "Y year[s], M month[s]" and reads back |
| UserProfile.YearsRoundTrip | lichess-dashboard/src/pages/UserProfile.jsx:122-123 | with years and no months, the text is "Y year[s]" alone |
| UserProfile.MonthsRoundTrip | lichess-dashboard/src/pages/UserProfile.jsx:125 | with no years, the text is exactly "M month[s]", "0 months" included, and reads back |
| UserProfile.AccountAgeNew | lichess-dashboard/src/pages/UserProfile.jsx:114-126 | an account created at the current instant is "0 months" old |
| UserProfile.TwelveMonths | lichess-dashboard/src/pages/UserProfile.jsx:119-120 | 360 days give 0 years and 12 months |
| UserProfile.LastSeenLadder | lichess-dashboard/src/pages/UserProfile.jsx:129-142 | the text reads back to: online under a minute; whole minutes under an hour; whole hours under a day; whole days under a week; the locale date beyond; singular iff the count is 1 |
| UserProfile.LastSeenOnline | lichess-dashboard/src/pages/UserProfile.jsx:133-137 | "Online now" iff less than a minute has passed |
| UserProfile.FloorMinutes | lichess-dashboard/src/pages/UserProfile.jsx:133-135 | flooring to minutes, then to hours, then to days equals flooring the milliseconds to hours or days directly |
| UserProfile.LastSeenPrefix | lichess-dashboard/src/pages/UserProfile.jsx:138-141 | every text but "Online now" starts with "Last seen " |
| UserProfile.LastSeenStatValue | lichess-dashboard/src/pages/UserProfile.jsx:311 | the card shows "Now" under a minute, otherwise the last-seen text minus its leading "Last seen " |
| UserProfile.DisplayLinkReassembles | lichess-dashboard/src/pages/UserProfile.jsx:371 | scheme, then display text, then trailing slash give back the link: only one leading http(s):// and one trailing "/" are removed |
| UserProfile.SchemePrefixCases | lichess-dashboard/src/pages/UserProfile.jsx:371 | the dropped scheme is "https://" or "http://" exactly when the link starts with it, and nothing otherwise |
| UserProfile.DisplayLinkPlain | lichess-dashboard/src/pages/UserProfile.jsx:371 | a link with no scheme and no trailing slash is shown as is |
| UserProfile.SocialLinksCover | lichess-dashboard/src/pages/UserProfile.jsx:359-371 | one link per space-separated piece, in order, pointing at the piece and showing its display form; the pieces joined by spaces are the field |
| UserProfile.KnownVariantLabel | lichess-dashboard/src/pages/UserProfile.jsx:24-31 | the six known categories are labelled by their capitalised key, in a colour other than grey |
| UserProfile.OtherVariantLabel | lichess-dashboard/src/pages/UserProfile.jsx:33 | any other category is labelled by its own key, in grey |
| UserProfile.ProgressRoundTrip | lichess-dashboard/src/pages/UserProfile.jsx:46-49 | the arrow shows iff the progress is nonzero; green iff positive, red iff negative; its text reads back to the signed progress |
| UserProfile.RatingBadgeProgress | lichess-dashboard/src/pages/UserProfile.jsx:320-325 | a missing progress counts as zero, so the arrow appears iff the server reported a nonzero progress |
| UserProfile.ProfileView.constructor | lichess-dashboard/src/pages/UserProfile.jsx:61-67 | the search box and route hold the route's username; no profile or error; loading iff the route names a user |
| UserProfile.ProfileView.EditUsername | lichess-dashboard/src/pages/UserProfile.jsx:163 | only the search box changes |
| UserProfile.ProfileView.FetchProfile | lichess-dashboard/src/pages/UserProfile.jsx:69-92 | a name that trims to "" changes nothing; success stores the profile, clears the error and moves the route to the name; failure clears the profile and sets the error text; both clear loading and refreshing |
| UserProfile.ProfileView.Request | lichess-dashboard/src/pages/UserProfile.jsx:72-91 | past the guard: success stores the profile, clears the error and sets the route to the name; failure clears the profile and sets the error text; loading and refreshing end off |
| UserProfile.ProfileView.HandleSubmit | lichess-dashboard/src/pages/UserProfile.jsx:94-97 | fetches the search box's name: a name that trims to "" changes nothing and is skipped; otherwise loading and refreshing end off, the search box is unchanged, success stores the profile, clears the error and moves the route to the name, failure clears the profile, sets the error text and keeps the route |
| UserProfile.ProfileView.HandleRefresh | lichess-dashboard/src/pages/UserProfile.jsx:99-103 | without a profile, nothing changes and the call is skipped; when the shown username trims to "", only refreshing changes, to on, and the call is skipped; otherwise loading and refreshing end off, the search box is unchanged, success stores the new profile, clears the error and moves the route to the shown username, failure clears the profile, sets the error text and keeps the route |
| Text.Show | lichess-dashboard/src/pages/Tournaments.jsx:54-56 | the decimal rendering of a count in a template literal: nonempty, all digits, no leading zero; ShowValue and ShowInjective state what it denotes |
| Text.Join | lichess-dashboard/src/pages/Tournaments.jsx:58 | `Array.prototype.join` with a one-character separator; JoinSplit and SplitJoin make it the inverse of Split |
| Text.Trim | lichess-dashboard/src/pages/UserProfile.jsx:70 | `String.prototype.trim` with the ECMAScript whitespace set; TrimEmptyIffBlank states when it is empty |
| Text.ShowInjective | lichess-dashboard/src/pages/Tournaments.jsx:54-56 | different counts render as different digit strings |
| Text.ShowValue | lichess-dashboard/src/pages/Tournaments.jsx:54-56 | the decimal rendering of a count denotes that count |
| Text.ReadCountRoundTrip | lichess-dashboard/src/pages/UserProfile.jsx:138-140 | "N unit" / "N units" reads back to N, with the plural form fixed by N |
| Text.JoinSplit | lichess-dashboard/src/pages/UserProfile.jsx:363 | joining the pieces of a split gives back the string |
| Text.SplitJoin | lichess-dashboard/src/pages/Tournaments.jsx:58 | splitting a join of pieces without the separator gives back the pieces |
| Text.Split | lichess-dashboard/src/pages/UserProfile.jsx:363 | one more piece than separators, and no piece contains the separator |
| Text.TrimEmptyIffBlank | lichess-dashboard/src/pages/UserProfile.jsx:70 | a name trims to "" iff every character is ECMAScript whitespace |

## Left out

- HTTP: axios, the API client and its error handling are outside the model. A request's outcome is a `Result` parameter.
- Time: `new Date()` is a parameter `now`. Invalid dates, which JavaScript turns into NaN, are not modelled.
- The 60-second refresh timer in the tournaments page (`setInterval`) is not modelled. Each firing is one more `FetchTournaments` call.
- Concurrency: React's batched updates, the states between an `await` and its resumption, and overlapping fetches are not modelled. Each fetch is one atomic transition.
- The route effect that fetches again after `navigate` changes the route parameter is not modelled. `FetchProfile` records only the new route username.
- Routing: the model assumes a `/profile/:username` route, as `useParams` and `navigate` in the profile page do. The app's router (`lichess-dashboard/src/App.jsx:13`) declares only `/profile`, so in the shipped app the route parameter is always absent and a navigation to `/profile/<name>` matches no route. `urlUsername` records the route the component asks for, not a route the router resolves.
- The rejection `fetchProfile` rethrows after it sets the error text is not modelled. It appears only as the `Rejected` outcome.
- Logging: the `console.error` calls in the catch blocks of the service layer and of both pages write to the console only. They are not modelled.
- Locale data: `toLocaleString`, `toLocaleDateString` and every count rendered with thousands separators are outside the model. The last-seen date text is a parameter.
- Floating point: the rating percentile (`Math.max(1, 100 - rating / 3000 * 100).toFixed(1)`) and the time-control minutes (`clock.limit / 60`) are not modelled.
- UserProfile.VariantStyle: JavaScript property lookup also finds keys inherited from `Object.prototype` (such as "constructor" or "toString"). For those keys the real badge has an undefined label. The model treats them as unknown categories; Lichess rating categories never use those names.
- Rendering (JSX markup, icons, CSS classes other than the badge and arrow colours) is not modelled, and neither are the other pages: home, leaderboards, navigation bar, routing, styling configuration.
- `getApiStatus`, `getUserProfile`, `getLeaderboards` and the other service calls are HTTP wrappers without logic of their own. They are not part of this model.
