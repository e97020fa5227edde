# Foca.Aí dashboard core in Dafny

This project models the logic behind the Foca.Aí personal dashboard, a React app. The model covers:

- **Authentication context** (`Auth`). When the provider mounts, it captures an access token from the address. The token is meant for a single login, but nothing in the code marks its record used, so it keeps working until it expires. Later it picks a token from three sources: the captured one, the current address, or the `auth_token_temp` entry in `localStorage`. It looks the token up in `access_tokens` (the record must be unused and unexpired), then loads the user row from `users`. By outcome, it sets `user`, clears the stored token, and always ends `loading`. It also models `signIn`, `signOut` and `useAuth`.
- **Routing** (`App`): the `ProtectedRoute` guard and the `AppRoutes` path table. `LoadPage` joins the guard and the provider into one page load.
- **Finances page** (`Finances`, with the generic group-by of `Grouping`). It covers:
  - the `finances` query;
  - total income, total expenses and the balance;
  - the expense sum per category and the income/expense pair per date, both built with a JavaScript `Map` in first-insertion order;
  - the `fetchData` state update.
- **Schedule page** (`Schedule`). It covers:
  - the inclusive day window of the `agendamento` query;
  - the events of the selected day and the upcoming events;
  - the synced and pending counts, and the calendar dates;
  - the `fetchEvents` state update.
- **Dashboard home** (`Dashboard`): the greeting chosen by the hour, and the summary state that `loadEmptyData` resets.

`Common` holds the `Option`/`Result` types, JavaScript truthiness of a `string | null`, and the reply of a store query. It also holds `Filter`, the model of `Array.prototype.filter`, with its order-preserving subsequence lemmas, and `FirstWhere`, the first element that satisfies a predicate, which models every `LIMIT 1` lookup and the route match.

Modelling conventions:

- **The store.** Each database table is a sequence of records in table order. A query with `LIMIT 1` and no `ORDER BY` returns the first matching record. A query with `order(..., { ascending: true })` reads a table assumed already sorted, and the model proves that filtering keeps that order.
- **Thrown errors.** A query that throws is a `Fault` parameter in the auth model. In the pages it is the `Failed` reply.
- **Browser APIs.** The address's `token` parameter is an `Option<string>`, `localStorage` is a `map<string, string>`, and the clock is a parameter.
- **Values.**
  - Amounts are integer cents.
  - Finance dates are day numbers.
  - Event times are whole seconds; day `d` spans `d * 86400 .. d * 86400 + 86399`.
  - User ids are natural numbers. `String(id)` is their canonical decimal rendering: digits only, with no leading zero. Round trips are proved in both directions.
- **State.** Stateful pieces are classes whose fields are the React state (`user`, `loading`, storage, `data`, `events`, `summary`). Each fetch or validation is one atomic method.
- **`access_tokens` schema.** The schema in `src/integrations/supabase/types.ts` lists `access_tokens` without a `used` column. The model follows the statement in `src/contexts/AuthContext.tsx`, which filters on `used = false`.

## Model

| member | source | states |
|---|---|---|
| Common.Filter | src/pages/SchedulePage.tsx:64-72 | `filter` keeps at most the input's elements, only those that pass, and every element that passes |
| Common.FilterPicks | src/pages/SchedulePage.tsx:64-70 | the filtered list is the subsequence of exactly the passing positions, in increasing order |
| Common.FirstWhere | src/contexts/AuthContext.tsx:73-84 | a `LIMIT 1` lookup finds something exactly when some element matches, and it finds the first match in table order |
| Auth.DecimalString | src/contexts/AuthContext.tsx:90 | `String(id)` gives a non-empty string of decimal digits that starts with `0` exactly when the id is 0, and that string is then "0" |
| Auth.DecimalRoundTrip | src/contexts/AuthContext.tsx:90 | the decimal string of a user id reads back as that id, so `String(id)` loses nothing |
| Auth.CanonicalRoundTrip | src/contexts/AuthContext.tsx:90 | every canonical decimal string is the `String` of the number it denotes, so `String` maps ids one to one onto canonical strings |
| Auth.SessionUser | src/contexts/AuthContext.tsx:89-93 | the session user is the row with its id written as a canonical decimal string that denotes the row's id, and with the same name and phone |
| Auth.FindToken | src/contexts/AuthContext.tsx:73-79 | a user id is found exactly when some record has the token, is unused and expires after now, and the id found is that of the first such record in table order |
| Auth.FindUser | src/contexts/AuthContext.tsx:84 | a row is found exactly when some row has the id, and the row found is the first row with it |
| Auth.CapturedToken | src/contexts/AuthContext.tsx:33-43 | the mount captures the address token exactly when it is truthy, and then it is that token |
| Auth.MountStorage | src/contexts/AuthContext.tsx:37-41 | a truthy address token is written under `auth_token_temp`; otherwise storage is untouched; other keys never change |
| Auth.StoredToken | src/contexts/AuthContext.tsx:66 | the stored token is present exactly when the key is in storage, and is its value |
| Auth.ChooseToken | src/contexts/AuthContext.tsx:57-67 | precedence: the captured token if truthy, else the current address token if truthy, else the stored one |
| Auth.Resolve | src/contexts/AuthContext.tsx:69-105 | the outcome is "no token" exactly when the token is falsy; "rejected" exactly when the token query runs and answers with no row; a store error only when a query threw; a login only on a fault-free run whose token query found a record |
| Auth.Lookups | src/contexts/AuthContext.tsx:69-84 | a validation run sends at most two statements; none exactly when the token is falsy; two exactly when the token query runs and finds a record |
| Auth.StorageAfter | src/contexts/AuthContext.tsx:86-101 | the key is removed exactly after success or a rejected token, kept when the user row is missing, after a store error or with no token; no other key changes |
| Auth.NoTokenNoLookup | src/contexts/AuthContext.tsx:69-105 | no statement is sent exactly when there is no truthy token, and the outcome is then "no token" |
| Auth.MountedTokenWins | src/contexts/AuthContext.tsx:57-67 | a token captured at mount is validated whatever the address and storage hold later; without one the address is tried before storage |
| Auth.AuthenticatedOnlyIfValid | src/contexts/AuthContext.tsx:73-93 | success implies no store error, a truthy token, a redeemable record for it and an existing user row for its id, and the session user is that row |
| Auth.ValidTokenAuthenticates | src/contexts/AuthContext.tsx:73-93 | conversely, with unique keys, a redeemable token whose user row exists authenticates that user |
| Auth.UnusableTokenRejected | src/contexts/AuthContext.tsx:97-101 | a token that is absent, used or expired is rejected, unless the token query throws |
| Auth.MissingUserKeepsToken | src/contexts/AuthContext.tsx:81-96 | a redeemable token whose user row is missing authenticates nobody and the stored token is kept |
| Auth.TokenReusableUntilExpiry | src/contexts/AuthContext.tsx:73-96 | the record is never marked used, so with unique keys a token that logged a user in logs the same user in again on any later run before the record expires |
| Auth.ExampleSession | src/contexts/AuthContext.tsx:73-93 | a fresh record for "abc123" pointing at user 42 logs in user "42" with that row's name and phone |
| Auth.AuthProvider.constructor | src/contexts/AuthContext.tsx:26-43 | mounting starts with no user and loading, captures the address token and writes it to storage |
| Auth.AuthProvider.ValidateAccess | src/contexts/AuthContext.tsx:52-113 | `validarAcesso`: the user is set exactly on success and to the session user, storage becomes `StorageAfter` of the outcome, loading ends false on every path including a store error |
| Auth.AuthProvider.SignIn | src/contexts/AuthContext.tsx:118 | `signIn` changes nothing |
| Auth.AuthProvider.SignOut | src/contexts/AuthContext.tsx:119-123 | `signOut` clears the user and the stored token and leaves loading as it was |
| Auth.UseAuth | src/contexts/AuthContext.tsx:132-135 | fails, with the provider's message, exactly when there is no enclosing provider; otherwise returns its value |
| App.ProtectedRoute | src/App.tsx:23-35 | loading screen exactly while loading; a replacing redirect to `/auth` exactly when not loading and no user; the children exactly when not loading with a user |
| App.Lookup | src/App.tsx:40-88 | a route is matched exactly when some route has the path, and it is a route of the table with that path |
| App.MatchIsRouteOf | src/App.tsx:38-90 | matching against the route table agrees with the case split over the seven paths and the catch-all |
| App.RouteTable | src/App.tsx:41-87 | `/` and `/auth` are open; exactly the five dashboard paths are guarded and all start with `/dashboard`; every other path is NotFound |
| App.Render | src/App.tsx:45-84 | a guarded path shows the loading screen exactly while loading; once loading ends, it shows its page with a user and the replacing redirect to `/auth` without one; an open path always shows its page |
| App.LoadPage | src/App.tsx:45-84 | a guarded page first shows the loading screen, then its page exactly when validation authenticated and otherwise the replacing redirect to `/auth`, and after `signOut` the redirect whatever validation did; an open page shows throughout |
| Grouping.KeyOrderDistinct | src/pages/FinancesPage.tsx:63-69 | the keys of a `Map` built by `set` are distinct |
| Grouping.KeyOrderMembers | src/pages/FinancesPage.tsx:63-69 | a key is in the `Map` exactly when some row has it |
| Grouping.KeyOrderPrefix | src/pages/FinancesPage.tsx:71-74 | the keys met in any prefix of the rows come first and in the same order (insertion order) |
| Grouping.GroupsConserve | src/pages/FinancesPage.tsx:63-69 | the group sums add up to the sum over all rows |
| Grouping.KeyOrderAscending | src/pages/FinancesPage.tsx:89-94 | rows sorted by key give strictly ascending keys |
| Finances.CategoryTable | src/pages/FinancesPage.tsx:71-74 | one entry per name, in order, each carrying its expense sum |
| Finances.DailyTable | src/pages/FinancesPage.tsx:89-94 | one entry per date, in order, each carrying its income and non-income sums |
| Finances.BalanceVariant | src/pages/FinancesPage.tsx:139 | the balance card uses the health variant exactly when the balance is not negative |
| Finances.FilteredTotal | src/pages/FinancesPage.tsx:52-58 | summing the amounts of the rows that pass a filter equals summing each row's share |
| Finances.SummaryTotals | src/pages/FinancesPage.tsx:52-60 | total income and total expenses are the sums of the amounts of the rows of their type, and the balance is their difference |
| Finances.CategoryNames | src/pages/FinancesPage.tsx:63-74 | the category names are the expense rows' categories in first-occurrence order |
| Finances.CategoryNamesDistinct | src/pages/FinancesPage.tsx:63-74 | no category appears twice |
| Finances.CategoryValues | src/pages/FinancesPage.tsx:66-69 | each value is the sum of the amounts of that category's expense rows |
| Finances.CategoryNamesFromExpenses | src/pages/FinancesPage.tsx:64-65 | every category listed is that of some expense row |
| Finances.CategoryNamesCoverExpenses | src/pages/FinancesPage.tsx:64-69 | every expense row's category is listed |
| Finances.CategoryOrder | src/pages/FinancesPage.tsx:71-74 | the categories of any prefix of the rows come first, in the same order |
| Finances.CategoryConservation | src/pages/FinancesPage.tsx:56-74 | the category values add up to total expenses |
| Finances.IncomeRowsIgnored | src/pages/FinancesPage.tsx:64-65 | adding an income row leaves the category data unchanged |
| Finances.DailyDates | src/pages/FinancesPage.tsx:77-94 | the chart's dates are the rows' dates in first-occurrence order |
| Finances.DailyDatesDistinct | src/pages/FinancesPage.tsx:77-94 | one entry per date: no date appears twice |
| Finances.DailyDatesFromRows | src/pages/FinancesPage.tsx:78-86 | every entry's date is the date of some row |
| Finances.DailyDatesCoverRows | src/pages/FinancesPage.tsx:78-86 | every row's date has an entry |
| Finances.DailyOrder | src/pages/FinancesPage.tsx:89-94 | the dates of any prefix of the rows come first, in the same order |
| Finances.DailyConservation | src/pages/FinancesPage.tsx:77-94 | daily incomes add up to total income; daily expenses add up to the non-income rows' sum, which is total expenses |
| Finances.DailyAscending | src/pages/FinancesPage.tsx:48 | rows in ascending date order give strictly ascending chart dates |
| Finances.DailyWithin | src/pages/FinancesPage.tsx:46-47 | bounds on the rows' dates bound the chart's dates |
| Finances.QueriedDaysInPeriod | src/pages/FinancesPage.tsx:42-48 | every row of the reply is the user's and within the period, both ends included, and so is every chart date |
| Finances.QueriedDaysAscending | src/pages/FinancesPage.tsx:42-48 | for a table in date order, the reply's chart dates are strictly ascending |
| Finances.CategoryBreakdown | src/pages/FinancesPage.tsx:63-74 | the `categoryMap` loop and its `entries()` produce exactly the category data |
| Finances.DailyBreakdown | src/pages/FinancesPage.tsx:77-94 | the `dailyMap` loop and its `entries()` produce exactly the daily data |
| Finances.CategoryMapStep | src/pages/FinancesPage.tsx:66-69 | one `forEach` step keeps `categoryMap` equal to the key order and the expense sums of the rows seen so far |
| Finances.CategoryEntries | src/pages/FinancesPage.tsx:71-74 | listing the map's entries in key order gives the category table of those keys |
| Finances.DailyMapStep | src/pages/FinancesPage.tsx:78-87 | one `forEach` step keeps `dailyMap` equal to the date order and the income and non-income sums of the rows seen so far |
| Finances.DailyEntries | src/pages/FinancesPage.tsx:89-94 | listing the map's entries in key order gives the daily table of those dates |
| Finances.Summarize | src/pages/FinancesPage.tsx:52-96 | the value passed to `setData` is the summary of the rows |
| Finances.FinancesPage.constructor | src/pages/FinancesPage.tsx:26-33 | the page starts loading with zero totals and empty charts |
| Finances.FinancesPage.FetchData | src/pages/FinancesPage.tsx:35-102 | with no user nothing changes and loading stays; otherwise a non-null reply replaces the data by its summary, a null or failed one keeps it, and loading ends false |
| Schedule.WindowIsWholeDays | src/pages/SchedulePage.tsx:46-47 | the window from midnight of the first day to `T23:59:59` of the last holds exactly the times on the days of the period |
| Schedule.QueryIsPeriod | src/pages/SchedulePage.tsx:42-48 | the reply holds exactly the user's events starting on a day of the period |
| Schedule.QueryAscending | src/pages/SchedulePage.tsx:48 | from a table in start order, the reply is in start order |
| Schedule.EventDates | src/pages/SchedulePage.tsx:75 | one date per event, in the same order, each the event's start |
| Schedule.FilteredEventsPick | src/pages/SchedulePage.tsx:64-66 | the selected day's events are the order-preserving subsequence of the events starting on that day |
| Schedule.UpcomingEventsPick | src/pages/SchedulePage.tsx:68-70 | the upcoming events are the order-preserving subsequence of the events starting at or after now |
| Schedule.SyncedPendingPartition | src/pages/SchedulePage.tsx:71-72 | synced and pending counts add up to the number of events; a null or empty Google id is pending |
| Schedule.SchedulePage.constructor | src/pages/SchedulePage.tsx:31-33 | the page starts loading with no events |
| Schedule.SchedulePage.FetchEvents | src/pages/SchedulePage.tsx:35-58 | with no user nothing changes; otherwise a non-null reply replaces the events, others keep them, and loading ends false |
| Dashboard.GetGreeting | src/pages/Dashboard.tsx:69-74 | "Bom dia" exactly before 12, "Boa tarde" exactly from 12 to before 18, "Boa noite" exactly from 18; always one of the three |
| Dashboard.GreetingChangesAt | src/pages/Dashboard.tsx:71-73 | the greeting changes from one hour to the next exactly at 11→12 and 17→18 |
| Dashboard.EmptySummary | src/pages/Dashboard.tsx:80-103 | the summary has all numbers 0, all lists empty, no sleep, and the given name |
| Dashboard.EmptyIsUnique | src/pages/Dashboard.tsx:59-67 | an empty summary is determined by its name alone |
| Dashboard.DashboardPage.constructor | src/pages/Dashboard.tsx:57-67 | the page starts loading with an empty summary and no user name |
| Dashboard.DashboardPage.LoadEmptyData | src/pages/Dashboard.tsx:80-105 | whatever the user, the range and the old state: an empty summary named "Usuário" and loading false, so running it again gives the same state |

## Left out

- Database and network access: the `sql` and `supabase` clients and the `neon` setup. Tables are sequences of records and queries are functions over them. The timezone of `NOW()` is not modelled.
- Ordering ties: ascending `ORDER BY` is modelled as a table already in that order. The order of rows with equal keys is whatever the table holds.
- Browser APIs and clocks: `window.location.search`, `localStorage`, `new Date()`, `getHours()` and `NOW()` are parameters.
- Auth.AuthProvider.ValidateAccess: the address is read once per run and passed in. It does not model the address changing between the mount and the effect beyond that one value. The console logging is left out.
- React scheduling, effect re-runs and async interleaving: each validation or fetch is one atomic method call. Two overlapping fetches are not modelled.
- Date libraries and formatting: `date-fns` (`format`, `parseISO`, `isSameDay`, `ptBR`) and `Intl.NumberFormat` are out. Days are integers and times are whole seconds.
- Schedule.WindowIsWholeDays: the model uses whole seconds, so a `start_time` between `23:59:59` and midnight is not modelled.
- Auth.DecimalString: user ids are unbounded naturals. JavaScript's `String` writes numbers from 1e21 up in exponent notation, and ids above 2^53 lose precision as JavaScript numbers. Neither is modelled.
- Floating-point amounts: amounts are integer cents. `Number(...)` conversion and rounding are not modelled.
- Finances.DailyBreakdown: the source keeps each day's running totals in an object that it changes in place through the alias `current`. The model keeps them as values in a `map` that it reassigns, so aliasing is not modelled.
- Store replies (`Fetched`): `data` is taken to be a list of rows, null, or the query failed. Error logging in the `catch` blocks is left out.
- Router details: path case, trailing slashes and nested routes in React Router are not modelled. A path is matched as an exact string.
- Display-only code is left out, because it decides nothing the model states:
  - the layout, navigation and list components;
  - the Health and Academic pages, which only render hard-coded empty data;
  - the charts, icons and animations;
  - the date shown under the greeting.
