# DevOps dashboard tally

A Dafny model of the data logic of the organisation's DevOps dashboard page
(`docs/devops-dashboard/dashboard.js`). `loadDashboard` walks a fixed list of
repositories in order. For each one it fetches one page of open pull requests
(the request sets no `per_page`, so the API's default page size applies) and
the latest page of workflow runs (50 per page). It adds the length of the
returned page of open pull requests to `totalOpenPRs` and the number of runs whose `conclusion` is exactly
`"failure"` to `totalFailures`. `fetchJSON` turns every failure (a thrown
`fetch`, a status that is not ok, a body that is not JSON) into `null`, and a
`null` response, or a run listing without `workflow_runs`, adds nothing.

The network is an input. Each repository arrives as a `RepoFetch` that carries
the outcome of each of its two requests (`FetchOutcome`: thrown, or a status
with an optional parsed body). `Fetch.FetchJSON` maps that outcome to an
`Option` exactly as `fetchJSON` maps it to a value or `null`.
`Dashboard.LoadDashboard` is the loop. Its running totals are proved equal to
the recursive specifications `TotalOpenPRs` and `TotalFailures`, and the lemmas
beside them state what those totals mean. The method also returns the ordered
log of endpoints it requested, which shows that each repository is handled
exactly once, in order, pull requests first.

Files: `wrappers.dfy` (Option), `fetch.dfy` (module `Fetch`), `dashboard.dfy`
(module `Dashboard`).

## Model

| member | source | states |
|---|---|---|
| `Fetch.FetchJSON` | docs/devops-dashboard/dashboard.js:1-13 | the result is missing exactly when `fetch` threw, the status is outside 200-299, or the body did not parse; otherwise it is the parsed body |
| `Dashboard.FailureCount` | docs/devops-dashboard/dashboard.js:40 | the count of runs with conclusion exactly "failure" is at most the number of runs, is zero iff no run failed, and equals the number of runs iff every run failed |
| `Dashboard.FailureCountIsFailureIndices` | docs/devops-dashboard/dashboard.js:40 | the count equals the number of positions whose run has conclusion "failure" (an independent, set-based definition of `filter(...).length`) |
| `Dashboard.FailureCountAppend` | docs/devops-dashboard/dashboard.js:40 | counting failures over two run lists joined end to end is the sum of the two counts |
| `Dashboard.FailureCountExtend` | docs/devops-dashboard/dashboard.js:40 | one more run adds one exactly when its conclusion is the string "failure"; any other or absent conclusion adds nothing |
| `Dashboard.OpenPRsOf` | docs/devops-dashboard/dashboard.js:34-35 | a repository contributes the length of the parsed pull-request list when its response had an ok status (200-299) and a body that parsed, and zero when the fetch threw, the status was not ok, or the body did not parse |
| `Dashboard.ReachableRuns` | docs/devops-dashboard/dashboard.js:38-39 | the runs looked at are the `workflow_runs` list of an ok, parsed run-listing response that has that key, and no runs when the fetch threw, the status was not ok, the body did not parse, or the key is missing |
| `Dashboard.FailuresOf` | docs/devops-dashboard/dashboard.js:38-41 | a repository contributes zero when the run listing is null or lacks `workflow_runs`, never more than the runs it can see, and zero iff none of those runs has conclusion "failure" |
| `Dashboard.TotalOpenPRs` | docs/devops-dashboard/dashboard.js:27-35 | the open-PR total over a list of repositories is zero iff no repository contributed any |
| `Dashboard.TotalFailures` | docs/devops-dashboard/dashboard.js:28-43 | the failure total over a list of repositories is zero iff no repository contributed any |
| `Dashboard.RequestLog` | docs/devops-dashboard/dashboard.js:30-43 | two requests are issued per repository |
| `Dashboard.LoadDashboard` | docs/devops-dashboard/dashboard.js:27-43 | after the loop `totalOpenPRs` and `totalFailures` equal the totals over every repository, and the requests issued are the request log of the repository list |
| `Dashboard.StartAtZero` | docs/devops-dashboard/dashboard.js:27-28 | before any repository is processed both totals are zero and nothing was requested |
| `Dashboard.TotalsAppend` | docs/devops-dashboard/dashboard.js:30-43 | the totals over two consecutive groups of repositories add up |
| `Dashboard.TotalsStep` | docs/devops-dashboard/dashboard.js:35-41 | one iteration changes each total by exactly that repository's contribution and never decreases it |
| `Dashboard.TotalsMonotone` | docs/devops-dashboard/dashboard.js:30-43 | the totals over a longer prefix of the repository list are never smaller |
| `Dashboard.MissingPullsAddNothing` | docs/devops-dashboard/dashboard.js:1-13 | a repository whose pull-request fetch failed adds zero to `totalOpenPRs`, and the repositories after it are still counted |
| `Dashboard.MissingRunsAddNothing` | docs/devops-dashboard/dashboard.js:38-39 | a repository whose run listing is null or lacks `workflow_runs` adds zero to `totalFailures`, and the repositories after it are still counted |
| `Dashboard.TotalOpenPRsCountsAll` | docs/devops-dashboard/dashboard.js:30-35 | `totalOpenPRs` equals the length of all successfully fetched pull-request lists concatenated in repository order |
| `Dashboard.TotalFailuresCountsAll` | docs/devops-dashboard/dashboard.js:37-42 | `totalFailures` equals the failure count of all reachable runs concatenated in repository order, so it never exceeds their number |
| `Dashboard.RequestLogAt` | docs/devops-dashboard/dashboard.js:30-38 | repository k's pull-request request is the 2k-th request and its run listing (50 per page) the next one: every repository exactly once, in order |
| `Dashboard.TotalsIndependent` | docs/devops-dashboard/dashboard.js:33-42 | `totalOpenPRs` depends only on the pull-request responses and `totalFailures` only on the run responses |

## Left out

- The `fetch` call itself, HTTP transport and JSON parsing: their outcome is an input (`FetchOutcome`).
- `async`/`await`: the loop awaits each request in turn, so a sequential loop over already-known outcomes is faithful; the model assumes every request settles (the source sets no timeout, so a `fetch` that never settles would stall the loop and leave the page loading).
- Pagination of the pull-request listing: the model counts the pull requests in the one returned list, not every open pull request of the repository; a repository with more open pull requests than the API's default page size contributes only that page.
- DOM updates (loading indicator, `innerText` writes, showing the dashboard) and the placeholder scan and health-score texts: presentation with no logic.
- `console.log`, `console.warn` and `console.error` messages.
- The hard-coded repository names and URL strings: the repository list is an input, and requests are recorded as endpoint kinds (`OpenPulls`, `WorkflowRuns` with the page size 50).
- JSON bodies of the wrong shape, which the model's typed bodies rule out. A pull-request body that is not an array still reaches `prs.length` when it is truthy: a non-empty string adds its character count, an object with a numeric `length` adds that number, and a number, `true` or an object without `length` makes the total `NaN`. A falsy non-null body (`0`, `""`, `false`) is skipped like `null`; the model shows it only as a missing body. A falsy `workflow_runs` (`0`, `""`, `false`) is skipped like a missing key, which the model shows as the key being absent. A truthy `workflow_runs` that is not an array makes `loadDashboard` throw at `.filter`, and so does a `null` entry in the list.
- JavaScript numbers are doubles; the totals are unbounded naturals here, since the sums stay far below 2^53.
- A health score, penalties, scan timestamps and an average score do not appear in `dashboard.js` (the page shows placeholders), so none is modelled.
