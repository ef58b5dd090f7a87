# Affiliates: leaderboard, visit statistics, referral skip and banner clicks in Dafny

This project models three behaviours of the Firefox Affiliates web application
and proves properties of them.

- **Leaderboard recomputation** (`update_leaderboard` management command). Each
  user's total is their summed link clicks plus their summed data-point clicks.
  A missing or NULL sum counts as 0. The totals are sorted by descending value
  with a stable sort and ranked 1, 2, 3, … in that order. The LeaderboardStanding
  table is then emptied and refilled with the new standings, in batches of 1000.
  Module `Leaderboard`, file `leaderboard.dfy`.
- **Links middleware** (`StatsSinceLastVisitMiddleware`, `ReferralSkipMiddleware`).
  On a logged-in user's first request of a new day, the first middleware sums the
  clicks and downloads since the last visit. It sends a message when that sum is
  not zero, and stores today as the last visit. The second middleware resolves
  the request path. If the resolved view name is one of its `view_names`, it runs
  that view at once. Module `LinksMiddleware`, file `links_middleware.dfy`.
- **Banner views** (`customize`, `link`, `old_link`). These work on the
  BannerInstance table. A row is a user's (banner, image) pairing, with a click
  counter and the destination its banner links to. Module `BannerViews`, file
  `banner_views.dfy`.

The other files hold shared types: `Wrappers.Option` (in `wrappers.dfy`) and
`Http.Response` (in `http.dfy`). A response is a redirect, with status 302, or a
rendered page with its status code.

State that the application changes in place is modelled as classes:
- `Leaderboard.StandingTable` is the standings table.
- `LinksMiddleware.UserProfile` holds the profile's `last_visit`.
- `BannerViews.InstanceTable` is the banner-instance table, with its next
  primary key.

Their methods state the whole new state in terms of the old one. The pure steps
are functions, and lemmas prove what those steps promise. These steps are the
list comprehensions, the sort, the window sums and the dispatch decision.

Sources of behaviour:
- The leaderboard follows the command's code.
- The source of the middleware classes and of the banner views is not
  available. Their behaviour is modelled from what their test suites assert.
- Ranks follow sort position, so tied users get distinct consecutive ranks,
  not dense ranks. Only the rows of the first query are walked. Both queries
  run over the whole User table, so no user is lost.

## Model

| member | source | states |
|---|---|---|
| `Leaderboard.Totals` | affiliates/links/management/commands/update_leaderboard.py:17-33 | one entry per row of the aggregate query, in query order. Each entry's total is the link-click sum plus the data-point sum. A None sum, or a user absent from the data-point dict, counts as 0. |
| `Leaderboard.SortDescending` | affiliates/links/management/commands/update_leaderboard.py:34 | the sorted list is a permutation (the same multiset) of the unsorted totals, and totals never increase from the first entry to the last, as the comparator `b[1] - a[1]` orders them. `SortIsStable` and `SortCharacterized` say which permutation it is. |
| `Leaderboard.SortIsStable` | affiliates/links/management/commands/update_leaderboard.py:34 | for every value, the entries with that total appear in the same order as in the query: ties keep input order |
| `Leaderboard.DescendingStableUnique` | affiliates/links/management/commands/update_leaderboard.py:34 | two lists that are both descending and agree on the order within every tie group are equal, so these properties fix the output |
| `Leaderboard.SortCharacterized` | affiliates/links/management/commands/update_leaderboard.py:34 | a list is the sort's result if and only if it is descending and stable with respect to the input |
| `Leaderboard.Ranked` | affiliates/links/management/commands/update_leaderboard.py:41-45 | the standing at position i gets ranking first + i, the user and the value of the i-th sorted entry, and metric 'link_clicks'. There is one standing per entry. |
| `Leaderboard.LeaderboardFor` | affiliates/links/management/commands/update_leaderboard.py:30-45 | after a run there are as many standings as queried users. Rankings are exactly 1..n with no repeats, every metric is 'link_clicks', and values are non-increasing as the ranking grows. `EachUserRankedOnce` says which user each standing belongs to. |
| `Leaderboard.EachUserRankedOnce` | affiliates/links/management/commands/update_leaderboard.py:30-45 | when the query has one row per user, every user has a standing whose value is that user's total, and no user has two standings |
| `Leaderboard.StandingTable.DeleteAll` | affiliates/links/management/commands/update_leaderboard.py:39 | the table is empty afterwards |
| `Leaderboard.StandingTable.BulkCreate` | affiliates/links/management/commands/update_leaderboard.py:48 | inserting in batches of any positive size appends exactly the new standings, in order, to the table |
| `Leaderboard.HandleQuiet` | affiliates/links/management/commands/update_leaderboard.py:13-50 | after the command the table holds exactly the ranked standings of the sorted totals. No earlier row survives. |
| `LinksMiddleware.WindowActivity` | affiliates/links/tests/test_middleware.py:77-90 | the window's click and download sums are both zero if and only if no data point in the window has a click or a download. `WindowSplit` says how the sums of adjacent windows add up. |
| `LinksMiddleware.StatsSinceLastVisit` | affiliates/links/tests/test_middleware.py:50-118 | with no last visit, today is recorded and there is no message. Less than a day after the last visit, nothing changes and there is no message. Otherwise today is recorded, and a message carrying the window's sums goes out exactly when some data point in (last visit, today] has activity. The recorded visit never moves backwards. |
| `LinksMiddleware.ProcessStatsRequest` | affiliates/links/tests/test_middleware.py:25-118 | the middleware always returns None. An anonymous user, or one without a profile, gets no message and no state change. A user with a profile gets the last visit and the message that `StatsSinceLastVisit` decides. |
| `LinksMiddleware.WindowSplit` | affiliates/links/tests/test_middleware.py:92-118 | splitting a window (a, c] at any b in between splits both sums exactly. Each data point counts in one part only: a point dated on the last visit belongs to the earlier window. |
| `LinksMiddleware.ConsecutiveVisitsReportEverything` | affiliates/links/tests/test_middleware.py:92-118 | with the same data points at both visits, two reporting visits in a row report, between them, exactly the clicks and downloads since the visit before the first |
| `LinksMiddleware.SameDayIsSilent` | affiliates/links/tests/test_middleware.py:65-75 | a second request on the same day neither changes the last visit nor sends a message |
| `LinksMiddleware.ClicksAndDownloadsExample` | affiliates/links/tests/test_middleware.py:92-118 | last visit on day 1 and today day 3, with data points (day 1: 3, 9), (day 2: 4, 7) and (day 3: 1, 2): the message reports 5 clicks and 9 downloads, and the last visit becomes day 3 |
| `LinksMiddleware.ReferralSkip` | affiliates/links/tests/test_middleware.py:126-162 | the result is a response if and only if the path resolves and the view name is in `view_names`. That response is the resolved view called with the request, the args and the kwargs. |
| `BannerViews.Clicked` | apps/banners/tests/test_views.py:51-62 | one click adds exactly 1 to that row's counter. No row is added or removed, and no other row or field changes. |
| `BannerViews.ClickedKeepsTriplesUnique` | apps/banners/tests/test_views.py:81-92 | a click keeps the (user, badge, image) triple a key of the table |
| `BannerViews.InstanceTable.Find` | apps/banners/tests/test_views.py:81-106 | the lookup by (user, badge, image) returns the matching row's key, or None exactly when no row matches |
| `BannerViews.InstanceTable.Customize` | apps/banners/tests/test_views.py:23-38 | an image outside the banner's choices renders the form again (200) and changes nothing. A valid image redirects (302) and leaves a row for (user, badge, image). An existing row is reused; otherwise one row with 0 clicks is added under a fresh key. |
| `BannerViews.InstanceTable.Link` | apps/banners/tests/test_views.py:51-67 | a known instance gets exactly one more click, and the view redirects to its destination. An unknown id redirects to the default link and changes nothing. |
| `BannerViews.InstanceTable.OldLink` | apps/banners/tests/test_views.py:81-106 | a matching (user, badge, image) row gets exactly one more click, and the view redirects to its destination. With no match the view redirects to the default link and changes nothing. It never creates a row. |

## Left out

- The ORM queries and the database `Sum` aggregation are not modelled. Their results are inputs: a list of (user, optional sum) pairs and a map from user to optional sum.
- The `print`, `sys.stderr.write` and `self.output` progress output of the command is not modelled. Neither is the Django messages framework. A message is modelled only as the two counts it reports.
- The command's delete and bulk insert are not atomic. Concurrent readers can see an empty table between them. The model treats the replacement as one sequential run.
- Table rows are modelled as an ordered sequence (standings) or a map keyed by primary key (banner instances). Database-assigned standing ids are not modelled.
- Timezones and datetimes are not modelled. Days are integers, and the current day is a parameter.
- The HTTP machinery is not modelled: the request factory, the test client, fixtures, login, locale activation and mocks. A response is a redirect location or a status code.
- The data points of the user's links, the URL resolver and the middleware's `view_names` are parameters. `resolve` returns None where Django raises Resolver404. View functions are Dafny function values.
- `affiliates/banners/admin.py` and `affiliates/banners/urls.py` are not part of this model. They hold declarative configuration with no behaviour of their own.
- The source of the middleware (`affiliates/links/middleware.py`) and of the banner views is not part of this model. Both are modelled from the behaviour their tests assert.
- BannerViews.InstanceTable.Customize: does not model an unknown banner id, which the tests never request. It treats a repeated (user, badge, image) as get-or-create, a reading of the table being keyed by that triple. The banner's destination is passed in and stored on the row rather than read through the banner.
- BannerViews.InstanceTable.Link: the destination is read from the row, where the application reads it from the row's banner.
