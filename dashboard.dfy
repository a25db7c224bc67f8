/**
 * The cross-repository tally of `loadDashboard`: for each configured repository,
 * add the length of the returned page of open pull requests (the request sets no
 * page size, so the API's default page) and the number of failed workflow runs
 * to two running totals. Each repository's two responses are inputs.
 */
module Dashboard {
  import opened Wrappers
  import opened Fetch

  /** Page size of the workflow-run listing (`per_page=50`). */
  const RunsPerPage: nat := 50

  /** The only conclusion that counts as a failed run, matched exactly. */
  const FailureConclusion: string := "failure"

  /** One open pull request; only how many there are matters to the tally. */
  datatype PullRequest = PullRequest(number: int)

  /** One workflow run; `conclusion` is absent (JSON `null`) while a run is still going. */
  datatype WorkflowRun = WorkflowRun(id: int, conclusion: Option<string>)

  /** The body of the workflow-run listing; `workflowRuns` models the optional `workflow_runs` key. */
  datatype RunsPage = RunsPage(workflowRuns: Option<seq<WorkflowRun>>)

  /** One configured repository with the outcomes of its two requests. */
  datatype RepoFetch = RepoFetch(
    repo: string,
    pulls: FetchOutcome<seq<PullRequest>>,
    runs: FetchOutcome<RunsPage>)

  /** The endpoints the loop requests, in the order it awaits them. */
  datatype Request =
    | OpenPulls(repo: string)
    | WorkflowRuns(repo: string, perPage: nat)

  // ---------------------------------------------------------------------------
  // Failure count of one run list: `workflow_runs.filter(r => r.conclusion === "failure").length`

  predicate IsFailure(run: WorkflowRun)
  {
    run.conclusion == Some(FailureConclusion)
  }

  /** Number of runs whose conclusion is exactly "failure". */
  function FailureCount(runs: seq<WorkflowRun>): (n: nat)
    ensures n <= |runs|
    ensures n == 0 <==> forall i :: 0 <= i < |runs| ==> !IsFailure(runs[i])
    ensures n == |runs| <==> forall i :: 0 <= i < |runs| ==> IsFailure(runs[i])
  {
    if runs == [] then 0
    else FailureCount(runs[..|runs| - 1]) + (if IsFailure(runs[|runs| - 1]) then 1 else 0)
  }

  /** Reference definition: the positions of the failed runs. */
  ghost function FailureIndices(runs: seq<WorkflowRun>): set<nat>
  {
    set i: nat | i < |runs| && IsFailure(runs[i])
  }

  /** The count is the number of positions whose run failed: neither more nor fewer. */
  lemma {:induction false} FailureCountIsFailureIndices(runs: seq<WorkflowRun>)
    ensures FailureCount(runs) == |FailureIndices(runs)|
  {
    if runs != [] {
      var n := |runs| - 1;
      var front := runs[..n];
      FailureCountIsFailureIndices(front);
      if IsFailure(runs[n]) {
        assert FailureIndices(runs) == FailureIndices(front) + {n};
      } else {
        assert FailureIndices(runs) == FailureIndices(front);
      }
    }
  }

  /** Counting failures over two lists joined end to end is counting each and adding. */
  lemma {:induction false} FailureCountAppend(a: seq<WorkflowRun>, b: seq<WorkflowRun>)
    ensures FailureCount(a + b) == FailureCount(a) + FailureCount(b)
  {
    if b == [] {
      assert a + b == a;
    } else {
      var n := |b| - 1;
      assert (a + b)[..|a + b| - 1] == a + b[..n];
      FailureCountAppend(a, b[..n]);
    }
  }

  /** Only the exact conclusion "failure" adds one; any other text or a missing conclusion adds nothing. */
  lemma FailureCountExtend(runs: seq<WorkflowRun>, run: WorkflowRun)
    ensures FailureCount(runs + [run]) ==
            FailureCount(runs) + (if run.conclusion == Some("failure") then 1 else 0)
  {
    assert (runs + [run])[..|runs|] == runs;
  }

  // ---------------------------------------------------------------------------
  // One repository's contribution

  /**
   * Open pull requests of one repository as seen on the one returned page, in terms of
   * the raw outcome of its request: the length of the parsed list for an ok response, and zero for a thrown fetch,
   * a status that is not ok, or a body that did not parse.
   */
  function OpenPRsOf(item: RepoFetch): (n: nat)
    ensures n == (if item.pulls.Responded? && IsOk(item.pulls.status) && item.pulls.body.Some?
                  then |item.pulls.body.value| else 0)
  {
    match FetchJSON(item.pulls)
    case None => 0
    case Some(prs) => |prs|
  }

  /** The runs the tally looks at: the `workflow_runs` list when the response has one, else none. */
  function ReachableRuns(item: RepoFetch): (runs: seq<WorkflowRun>)
    ensures runs == (if item.runs.Responded? && IsOk(item.runs.status) && item.runs.body.Some?
                        && item.runs.body.value.workflowRuns.Some?
                     then item.runs.body.value.workflowRuns.value else [])
  {
    match FetchJSON(item.runs)
    case None => []
    case Some(page) =>
      match page.workflowRuns
      case None => []
      case Some(runs) => runs
  }

  /** Failed runs of one repository. */
  function FailuresOf(item: RepoFetch): (n: nat)
    ensures n <= |ReachableRuns(item)|
    ensures FetchJSON(item.runs).None? ==> n == 0
    ensures FetchJSON(item.runs).Some? && FetchJSON(item.runs).value.workflowRuns.None? ==> n == 0
    ensures n == 0 <==> forall i :: 0 <= i < |ReachableRuns(item)| ==> !IsFailure(ReachableRuns(item)[i])
  {
    FailureCount(ReachableRuns(item))
  }

  // ---------------------------------------------------------------------------
  // The totals over a sequence of repositories (specification of the loop)

  /** `totalOpenPRs` after processing `items`; zero exactly when no repository contributed. */
  function TotalOpenPRs(items: seq<RepoFetch>): (t: nat)
    ensures t == 0 <==> forall k :: 0 <= k < |items| ==> OpenPRsOf(items[k]) == 0
  {
    if items == [] then 0
    else TotalOpenPRs(items[..|items| - 1]) + OpenPRsOf(items[|items| - 1])
  }

  /** `totalFailures` after processing `items`; zero exactly when no repository contributed. */
  function TotalFailures(items: seq<RepoFetch>): (t: nat)
    ensures t == 0 <==> forall k :: 0 <= k < |items| ==> FailuresOf(items[k]) == 0
  {
    if items == [] then 0
    else TotalFailures(items[..|items| - 1]) + FailuresOf(items[|items| - 1])
  }

  /** The two requests issued for each repository, pull requests first, in repository order. */
  function RequestLog(items: seq<RepoFetch>): (log: seq<Request>)
    ensures |log| == 2 * |items|
  {
    if items == [] then []
    else
      var last := items[|items| - 1];
      RequestLog(items[..|items| - 1]) + [OpenPulls(last.repo), WorkflowRuns(last.repo, RunsPerPage)]
  }

  // ---------------------------------------------------------------------------
  // The loop of `loadDashboard`

  /**
   * Walks the repositories once, in order; for each it "awaits" the pull-request
   * response, then the workflow-run response, and adds what each contributes.
   * Returns both totals and the endpoints requested, in order.
   */
  method LoadDashboard(repos: seq<RepoFetch>) returns (totalOpenPRs: nat, totalFailures: nat, requested: seq<Request>)
    ensures totalOpenPRs == TotalOpenPRs(repos)
    ensures totalFailures == TotalFailures(repos)
    ensures requested == RequestLog(repos)
  {
    totalOpenPRs := 0;
    totalFailures := 0;
    requested := [];
    var i := 0;
    while i < |repos|
      invariant 0 <= i <= |repos|
      invariant totalOpenPRs == TotalOpenPRs(repos[..i])
      invariant totalFailures == TotalFailures(repos[..i])
      invariant requested == RequestLog(repos[..i])
    {
      var repo := repos[i];
      assert repos[..i + 1][..i] == repos[..i];

      requested := requested + [OpenPulls(repo.repo)];
      var prs := FetchJSON(repo.pulls);
      if prs.Some? {
        totalOpenPRs := totalOpenPRs + |prs.value|;
      }

      requested := requested + [WorkflowRuns(repo.repo, RunsPerPage)];
      var runs := FetchJSON(repo.runs);
      if runs.Some? && runs.value.workflowRuns.Some? {
        var failed := FailureCount(runs.value.workflowRuns.value);
        assert failed == FailuresOf(repo);
        totalFailures := totalFailures + failed;
      } else {
        assert FailuresOf(repo) == 0;
      }

      i := i + 1;
    }
    assert repos[..i] == repos;
  }

  // ---------------------------------------------------------------------------
  // Properties of the tally

  /**
   * Before any repository is processed both totals are zero and nothing was requested.
   * This is what `LoadDashboard`'s loop invariants say at entry, where `i == 0` and `repos[..0] == []`.
   */
  lemma StartAtZero()
    ensures TotalOpenPRs([]) == 0 && TotalFailures([]) == 0 && RequestLog([]) == []
  {
  }

  /** Totals over consecutive groups of repositories add up: each repository changes them only by its own contribution. */
  lemma {:induction false} TotalsAppend(a: seq<RepoFetch>, b: seq<RepoFetch>)
    ensures TotalOpenPRs(a + b) == TotalOpenPRs(a) + TotalOpenPRs(b)
    ensures TotalFailures(a + b) == TotalFailures(a) + TotalFailures(b)
  {
    if b == [] {
      assert a + b == a;
    } else {
      var n := |b| - 1;
      assert (a + b)[..|a + b| - 1] == a + b[..n];
      assert (a + b)[|a + b| - 1] == b[n];
      TotalsAppend(a, b[..n]);
    }
  }

  /** One iteration adds exactly that repository's contribution, so neither total ever decreases. */
  lemma TotalsStep(done: seq<RepoFetch>, next: RepoFetch)
    ensures TotalOpenPRs(done + [next]) == TotalOpenPRs(done) + OpenPRsOf(next) >= TotalOpenPRs(done)
    ensures TotalFailures(done + [next]) == TotalFailures(done) + FailuresOf(next) >= TotalFailures(done)
  {
    assert (done + [next])[..|done|] == done;
  }

  /** Totals over a longer prefix of the repository list are never smaller. */
  lemma TotalsMonotone(items: seq<RepoFetch>, i: nat, j: nat)
    requires i <= j <= |items|
    ensures TotalOpenPRs(items[..i]) <= TotalOpenPRs(items[..j])
    ensures TotalFailures(items[..i]) <= TotalFailures(items[..j])
  {
    assert items[..j] == items[..i] + items[i..j];
    TotalsAppend(items[..i], items[i..j]);
  }

  /**
   * A repository whose pull-request request failed adds nothing to `totalOpenPRs`,
   * and the repositories after it are still counted.
   */
  lemma MissingPullsAddNothing(before: seq<RepoFetch>, item: RepoFetch, after: seq<RepoFetch>)
    requires FetchJSON(item.pulls).None?
    ensures TotalOpenPRs(before + [item] + after) == TotalOpenPRs(before) + TotalOpenPRs(after)
  {
    TotalsAppend(before + [item], after);
    TotalsStep(before, item);
  }

  /**
   * A repository whose run listing failed, or came back without `workflow_runs`,
   * adds nothing to `totalFailures`, and the repositories after it are still counted.
   */
  lemma MissingRunsAddNothing(before: seq<RepoFetch>, item: RepoFetch, after: seq<RepoFetch>)
    requires FetchJSON(item.runs).None? || FetchJSON(item.runs).value.workflowRuns.None?
    ensures TotalFailures(before + [item] + after) == TotalFailures(before) + TotalFailures(after)
  {
    TotalsAppend(before + [item], after);
    TotalsStep(before, item);
  }

  /** Reference definition: every pull request fetched, concatenated in repository order. */
  function AllOpenPRs(items: seq<RepoFetch>): seq<PullRequest>
  {
    if items == [] then []
    else
      var prs := match FetchJSON(items[0].pulls) case None => [] case Some(list) => list;
      prs + AllOpenPRs(items[1..])
  }

  /** Reference definition: every reachable workflow run, concatenated in repository order. */
  function AllReachableRuns(items: seq<RepoFetch>): seq<WorkflowRun>
  {
    if items == [] then [] else ReachableRuns(items[0]) + AllReachableRuns(items[1..])
  }

  /** `totalOpenPRs` is the length of all successfully fetched pull-request lists taken together. */
  lemma {:induction false} TotalOpenPRsCountsAll(items: seq<RepoFetch>)
    ensures TotalOpenPRs(items) == |AllOpenPRs(items)|
  {
    if items != [] {
      TotalOpenPRsCountsAll(items[1..]);
      TotalsAppend([items[0]], items[1..]);
      assert [items[0]] + items[1..] == items;
      assert [items[0]][..0] == [];
    }
  }

  /**
   * `totalFailures` is the number of failed runs among all reachable runs taken together,
   * and so it never exceeds how many runs were reachable.
   */
  lemma {:induction false} TotalFailuresCountsAll(items: seq<RepoFetch>)
    ensures TotalFailures(items) == FailureCount(AllReachableRuns(items))
    ensures TotalFailures(items) <= |AllReachableRuns(items)|
  {
    if items != [] {
      TotalFailuresCountsAll(items[1..]);
      TotalsAppend([items[0]], items[1..]);
      assert [items[0]] + items[1..] == items;
      assert [items[0]][..0] == [];
      FailureCountAppend(ReachableRuns(items[0]), AllReachableRuns(items[1..]));
    }
  }

  /** Repository `k` owns positions `2k` (its pull requests) and `2k + 1` (its runs) of the request log. */
  lemma {:induction false} RequestLogAt(items: seq<RepoFetch>, k: nat)
    requires k < |items|
    ensures RequestLog(items)[2 * k] == OpenPulls(items[k].repo)
    ensures RequestLog(items)[2 * k + 1] == WorkflowRuns(items[k].repo, RunsPerPage)
  {
    var n := |items| - 1;
    if k < n {
      RequestLogAt(items[..n], k);
    }
  }

  /**
   * The two totals are kept apart: `totalOpenPRs` depends only on the pull-request
   * responses and `totalFailures` only on the run responses.
   */
  lemma {:induction false} TotalsIndependent(a: seq<RepoFetch>, b: seq<RepoFetch>)
    requires |a| == |b|
    ensures (forall k :: 0 <= k < |a| ==> a[k].pulls == b[k].pulls) ==> TotalOpenPRs(a) == TotalOpenPRs(b)
    ensures (forall k :: 0 <= k < |a| ==> a[k].runs == b[k].runs) ==> TotalFailures(a) == TotalFailures(b)
  {
    if a != [] {
      TotalsIndependent(a[..|a| - 1], b[..|b| - 1]);
    }
  }
}
