/**
 * The pull-request side of the release bot: finding a pull-request link in a
 * description, taking its number, and the `mergePR` polling state machine that
 * drives a pull request to a squash merge or to a classified `IssueError`.
 *
 * The pull-request service is an oracle: `fetch(k)` is what the k-th
 * `fetchPR` call of one `mergePR` run returns, including the check runs and
 * commit statuses read for that snapshot. Sleeps, the branch update, the merge
 * and the comment are recorded in an effect log.
 */
module GitHub {
  import opened Wrappers
  import opened Text
  import opened Errors

  // ---------------------------------------------------------------------------
  // Pull-request links
  // ---------------------------------------------------------------------------

  const GitHubPrefix := "https://github.com/"

  lemma PrefixHasNoLineTerminator()
    ensures forall k :: 0 <= k < |GitHubPrefix| ==> !IsLineTerminator(GitHubPrefix[k])
  {
  }

  /**
   * What the regex `\[(https://github.com/.*)\]` captures when its match
   * starts at `p`: `.*` is greedy and stops at a line end, so the capture runs
   * up to the last `]` on that line.
   */
  function BracketedAt(s: string, p: nat): Option<string>
    requires p <= |s|
  {
    if p < |s| && s[p] == '[' && OccursAt(s, GitHubPrefix, p + 1) then
      var from := p + 1 + |GitHubPrefix|;
      match LastIndexIn(s, ']', from, LineEnd(s, from))
      case Some(k) => Some(s[p + 1..k])
      case None => None
    else None
  }

  /** The leftmost start at or after `from` where the bracketed regex matches. */
  function FirstBracketed(s: string, from: nat): (r: Option<nat>)
    requires from <= |s|
    ensures r.Some? ==> from <= r.value <= |s| && BracketedAt(s, r.value).Some?
    ensures r.Some? ==> forall p :: from <= p < r.value ==> BracketedAt(s, p).None?
    ensures r.None? ==> forall p :: from <= p <= |s| ==> BracketedAt(s, p).None?
    decreases |s| - from
  {
    if BracketedAt(s, from).Some? then Some(from)
    else if from == |s| then None
    else FirstBracketed(s, from + 1)
  }

  /** The leftmost occurrence of `pat` at or after `from`. */
  function FirstOccurrence(s: string, pat: string, from: nat): (r: Option<nat>)
    requires from <= |s|
    ensures r.Some? ==> from <= r.value && OccursAt(s, pat, r.value)
    ensures r.Some? ==> forall p :: from <= p < r.value ==> !OccursAt(s, pat, p)
    ensures r.None? ==> forall p :: from <= p ==> !OccursAt(s, pat, p)
    decreases |s| - from
  {
    if OccursAt(s, pat, from) then Some(from)
    else if from == |s| then None
    else FirstOccurrence(s, pat, from + 1)
  }

  /**
   * `getGitHubPR`: a bracketed link first, else a bare link up to the line
   * end, else ''. The result is '' exactly when the description holds no
   * `https://github.com/`, and otherwise starts with that prefix.
   */
  function GetGitHubPR(description: string): (r: string)
    ensures r == "" <==> !Contains(description, GitHubPrefix)
    ensures r != "" ==> OccursAt(r, GitHubPrefix, 0)
  {
    match FirstBracketed(description, 0)
    case Some(p) =>
      BracketedShape(description, p);
      assert OccursAt(description, GitHubPrefix, p + 1);
      BracketedAt(description, p).value
    case None =>
      match FirstOccurrence(description, GitHubPrefix, 0)
      case Some(p) =>
        BareLinkCoversPrefix(description, p);
        assert OccursAt(description, GitHubPrefix, p);
        description[p..LineEnd(description, p)]
      case None => ""
  }

  /** A bare link found at `p` holds at least the whole prefix. */
  lemma BareLinkCoversPrefix(s: string, p: nat)
    requires OccursAt(s, GitHubPrefix, p)
    ensures p + |GitHubPrefix| <= LineEnd(s, p)
    ensures OccursAt(s[p..LineEnd(s, p)], GitHubPrefix, 0)
  {
    PrefixHasNoLineTerminator();
  }

  /** A bracketed capture starts with the prefix, lies on one line and is a piece of the text. */
  lemma BracketedShape(d: string, p: nat)
    requires p <= |d| && BracketedAt(d, p).Some?
    ensures OccursAt(d, GitHubPrefix, p + 1)
    ensures OccursAt(d, BracketedAt(d, p).value, p + 1)
    ensures OccursAt(BracketedAt(d, p).value, GitHubPrefix, 0)
    ensures forall i :: 0 <= i < |BracketedAt(d, p).value| ==> !IsLineTerminator(BracketedAt(d, p).value[i])
  {
    var r := BracketedAt(d, p).value;
    var from := p + 1 + |GitHubPrefix|;
    var k := LastIndexIn(d, ']', from, LineEnd(d, from)).value;
    assert r == d[p + 1..k];
    assert r[..|GitHubPrefix|] == d[p + 1..from];
    PrefixHasNoLineTerminator();
    forall i | 0 <= i < |r| ensures !IsLineTerminator(r[i]) {
      assert r[i] == d[p + 1 + i];
      if p + 1 + i < from {
        assert d[p + 1 + i] == GitHubPrefix[i];
      }
    }
  }

  /** A link found lies on one line and is a piece of the description. */
  lemma GetGitHubPRShape(d: string)
    ensures GetGitHubPR(d) != "" ==>
      (forall k :: 0 <= k < |GetGitHubPR(d)| ==> !IsLineTerminator(GetGitHubPR(d)[k])) &&
      exists i :: OccursAt(d, GetGitHubPR(d), i)
  {
    match FirstBracketed(d, 0)
    case Some(p) =>
      BracketedShape(d, p);
      assert OccursAt(d, GetGitHubPR(d), p + 1);
    case None =>
      match FirstOccurrence(d, GitHubPrefix, 0)
      case Some(p) =>
        BareLinkCoversPrefix(d, p);
        assert OccursAt(d, GetGitHubPR(d), p);
      case None =>
  }

  /**
   * A bracketed link anywhere wins over bare links, even over a bare link that
   * comes earlier: the result is the capture of a bracketed match at or before
   * every bracketed match.
   */
  lemma PrefersBracketedLink(d: string, p: nat)
    requires p <= |d| && BracketedAt(d, p).Some?
    ensures exists q: nat :: q <= p && BracketedAt(d, q) == Some(GetGitHubPR(d))
  {
    var q := FirstBracketed(d, 0).value;
    assert GetGitHubPR(d) == BracketedAt(d, q).value;
  }

  /** Index of the first segment equal to "pull" ignoring case, or -1. */
  function PullIndex(segments: seq<string>): (r: int)
    ensures -1 <= r < |segments|
    ensures r >= 0 ==> ToLower(segments[r]) == "pull"
    ensures forall k :: 0 <= k < |segments| && (r == -1 || k < r) ==> ToLower(segments[k]) != "pull"
    decreases |segments|
  {
    if segments == [] then -1
    else if ToLower(segments[0]) == "pull" then 0
    else
      var r := PullIndex(segments[1..]);
      if r == -1 then -1 else r + 1
  }

  /**
   * `getGitHubPRId`: the segment after the first "pull" segment. With no
   * "pull" segment `findIndex` gives -1 and the first segment is returned;
   * with "pull" last, `segments[pull_index + 1]` is undefined (None). The
   * id is always a single segment: it holds no '/'.
   */
  function GetGitHubPRId(url: string): (r: Option<string>)
    ensures r.Some? ==> '/' !in r.value
  {
    var segments := Split(url, '/');
    var i := PullIndex(segments);
    if i + 1 < |segments| then Some(segments[i + 1]) else None
  }

  /**
   * Which segment `getGitHubPRId` returns: the first segment when none is
   * "pull" (ignoring case), otherwise the one after the first "pull", or
   * undefined when that "pull" is the last segment. It is undefined only
   * when the last segment is "pull".
   */
  lemma GetGitHubPRIdSegments(url: string)
    ensures var segments := Split(url, '/');
      && (GetGitHubPRId(url).None? ==> ToLower(segments[|segments| - 1]) == "pull")
      && ((forall k | 0 <= k < |segments| :: ToLower(segments[k]) != "pull") ==> GetGitHubPRId(url) == Some(segments[0]))
      && (forall k | 0 <= k < |segments| && ToLower(segments[k]) == "pull"
                   && (forall j | 0 <= j < k :: ToLower(segments[j]) != "pull") ::
            GetGitHubPRId(url) == if k + 1 < |segments| then Some(segments[k + 1]) else None)
  {
  }

  /** The segments of a pull-request link, in order. */
  function LinkSegments(owner: string, repo: string, number: string): seq<string> {
    ["https:", "", "github.com", owner, repo, "pull", number]
  }

  lemma LinkIsJoinOfSegments(owner: string, repo: string, number: string)
    ensures Join(LinkSegments(owner, repo, number), '/') == GitHubPrefix + owner + "/" + repo + "/pull/" + number
  {
    var parts := LinkSegments(owner, repo, number);
    var tail := owner + "/" + repo + "/pull/" + number;
    PathIsJoinOfSegments(owner, repo, number);
    assert parts[3..] == [owner, repo, "pull", number];
    JoinCons("github.com", parts[3..], '/');
    assert parts[2..] == ["github.com"] + parts[3..];
    JoinCons("", parts[2..], '/');
    assert parts[1..] == [""] + parts[2..];
    JoinCons("https:", parts[1..], '/');
    assert parts == ["https:"] + parts[1..];
    assert Join(parts, '/') == "https:" + "/" + "" + "/" + "github.com" + "/" + tail;
    assert "https:" + "/" + "" + "/" + "github.com" + "/" == GitHubPrefix;
  }

  /** The path after the host: owner, repository, `pull` and the number, joined by slashes. */
  lemma PathIsJoinOfSegments(owner: string, repo: string, number: string)
    ensures Join([owner, repo, "pull", number], '/') == owner + "/" + repo + "/pull/" + number
  {
    var path := [owner, repo, "pull", number];
    JoinCons("pull", [number], '/');
    assert path[2..] == ["pull", number];
    JoinCons(repo, path[2..], '/');
    assert path[1..] == [repo] + path[2..];
    JoinCons(owner, path[1..], '/');
    assert path == [owner] + path[1..];
  }

  lemma PullIndexOfSegments(owner: string, repo: string, number: string)
    requires ToLower(owner) != "pull" && ToLower(repo) != "pull"
    ensures PullIndex(LinkSegments(owner, repo, number)) == 5
  {
    var parts := LinkSegments(owner, repo, number);
    assert |ToLower(parts[0])| == 6 && |ToLower(parts[1])| == 0 && |ToLower(parts[2])| == 10;
    assert ToLower(parts[5]) == "pull";
    assert PullIndex(parts[5..]) == 0;
  }

  /**
   * The number of a pull-request link `https://github.com/<owner>/<repo>/pull/<n>`
   * is `<n>`, provided owner and repository are not themselves named "pull".
   */
  lemma PullRequestIdOfLink(owner: string, repo: string, number: string)
    requires '/' !in owner && '/' !in repo && '/' !in number
    requires ToLower(owner) != "pull" && ToLower(repo) != "pull"
    ensures GetGitHubPRId(GitHubPrefix + owner + "/" + repo + "/pull/" + number) == Some(number)
  {
    var parts := LinkSegments(owner, repo, number);
    LinkIsJoinOfSegments(owner, repo, number);
    SplitJoin(parts, '/');
    PullIndexOfSegments(owner, repo, number);
  }

  // ---------------------------------------------------------------------------
  // Check runs and commit statuses of an unstable pull request
  // ---------------------------------------------------------------------------

  datatype CheckRun = CheckRun(name: string, status: string, conclusion: string)

  /** One entry of the statuses history, newest first. */
  datatype CommitStatus = CommitStatus(context: string, state: string)

  datatype StatusType = Pending | Failure {
    function Name(): string {
      match this
      case Pending => "pending"
      case Failure => "failure"
    }
  }

  /**
   * Limits, delays and switches of the merge protocol. `matches(pattern, name)`
   * stands for testing a `checks_to_skip` entry (a literal or `/re/flags`
   * regular expression) against a check name.
   */
  datatype MergeConfig = MergeConfig(
    refetchLimit: nat,
    checksLimit: nat,
    refetchTimeout: nat,
    checksTimeout: nat,
    skipPendingChecks: bool,
    skipFailingChecks: bool,
    skipUpdatingBranch: bool,
    checksToSkip: seq<string>,
    matches: (string, string) -> bool)

  /** `shouldSkip`: the name matches some `checks_to_skip` pattern. */
  predicate ShouldSkip(cfg: MergeConfig, name: string) {
    exists i | 0 <= i < |cfg.checksToSkip| :: cfg.matches(cfg.checksToSkip[i], name)
  }

  /** A check run that counts as pending (in progress) or failing (completed with failure). */
  predicate RunCounts(cfg: MergeConfig, run: CheckRun, t: StatusType) {
    && !ShouldSkip(cfg, run.name)
    && match t
       case Pending => run.status == "in_progress"
       case Failure => run.status == "completed" && run.conclusion == "failure"
  }

  /** `statuses[i]` is the first non-skipped entry of its context: the newest report for it. */
  predicate IsNewestOfContext(cfg: MergeConfig, statuses: seq<CommitStatus>, i: int) {
    && 0 <= i < |statuses|
    && !ShouldSkip(cfg, statuses[i].context)
    && forall j :: 0 <= j < i && !ShouldSkip(cfg, statuses[j].context) ==> statuses[j].context != statuses[i].context
  }

  /** Reference meaning of `verifyUnstablePR(check_runs, statuses, t)`. */
  predicate HasChecksIn(cfg: MergeConfig, runs: seq<CheckRun>, statuses: seq<CommitStatus>, t: StatusType) {
    || (exists k :: 0 <= k < |runs| && RunCounts(cfg, runs[k], t))
    || (exists i | 0 <= i < |statuses| :: IsNewestOfContext(cfg, statuses, i) && statuses[i].state == t.Name())
  }

  /**
   * `verifyUnstablePR`: a filter over the check runs, then one scan of the
   * statuses that remembers the contexts already compared.
   */
  method VerifyUnstablePR(cfg: MergeConfig, runs: seq<CheckRun>, statuses: seq<CommitStatus>, t: StatusType)
    returns (r: bool)
    ensures r == HasChecksIn(cfg, runs, statuses, t)
  {
    if exists k :: 0 <= k < |runs| && RunCounts(cfg, runs[k], t) {
      return true;
    }
    var checked: set<string> := {};
    for i := 0 to |statuses|
      invariant checked == set j | 0 <= j < i && !ShouldSkip(cfg, statuses[j].context) :: statuses[j].context
      invariant forall j :: 0 <= j < i && IsNewestOfContext(cfg, statuses, j) ==> statuses[j].state != t.Name()
    {
      var status := statuses[i];
      if ShouldSkip(cfg, status.context) {
        continue;
      }
      if status.context !in checked {
        assert IsNewestOfContext(cfg, statuses, i);
        checked := checked + {status.context};
        if status.state == t.Name() {
          return true;
        }
      } else {
        assert !IsNewestOfContext(cfg, statuses, i);
      }
    }
    return false;
  }

  /** A check run or status whose name matches a skip pattern never contributes. */
  lemma {:induction false} SkippedEntriesNeverCount(
    cfg: MergeConfig, runs: seq<CheckRun>, statuses: seq<CommitStatus>, t: StatusType,
    run: CheckRun, status: CommitStatus)
    requires ShouldSkip(cfg, run.name) && ShouldSkip(cfg, status.context)
    ensures HasChecksIn(cfg, runs + [run], statuses, t) == HasChecksIn(cfg, runs, statuses, t)
    ensures HasChecksIn(cfg, runs, [status] + statuses, t) == HasChecksIn(cfg, runs, statuses, t)
  {
    var runs' := runs + [run];
    assert forall k :: 0 <= k < |runs| ==> runs'[k] == runs[k];
    var st := [status] + statuses;
    SkippedStatusShiftsNewest(cfg, statuses, status);
    if exists i :: IsNewestOfContext(cfg, statuses, i) && statuses[i].state == t.Name() {
      var i :| IsNewestOfContext(cfg, statuses, i) && statuses[i].state == t.Name();
      assert IsNewestOfContext(cfg, st, i + 1) && st[i + 1].state == t.Name();
    }
    if exists i :: IsNewestOfContext(cfg, st, i) && st[i].state == t.Name() {
      var i :| IsNewestOfContext(cfg, st, i) && st[i].state == t.Name();
      assert i >= 1;
      assert IsNewestOfContext(cfg, statuses, i - 1) && statuses[i - 1].state == t.Name();
    }
  }

  /** Putting a skipped status in front shifts every status's newest-of-its-context verdict by one place. */
  lemma SkippedStatusShiftsNewest(cfg: MergeConfig, statuses: seq<CommitStatus>, status: CommitStatus)
    requires ShouldSkip(cfg, status.context)
    ensures forall i :: 0 <= i < |statuses| ==>
      IsNewestOfContext(cfg, [status] + statuses, i + 1) == IsNewestOfContext(cfg, statuses, i)
  {
    var st := [status] + statuses;
    forall i | 0 <= i < |statuses|
      ensures IsNewestOfContext(cfg, st, i + 1) == IsNewestOfContext(cfg, statuses, i)
    {
      assert st[i + 1] == statuses[i];
      if IsNewestOfContext(cfg, statuses, i) {
        forall j | 0 <= j < i + 1 && !ShouldSkip(cfg, st[j].context)
          ensures st[j].context != st[i + 1].context
        {
          assert j >= 1 && st[j] == statuses[j - 1];
        }
      }
      if IsNewestOfContext(cfg, st, i + 1) {
        forall j | 0 <= j < i && !ShouldSkip(cfg, statuses[j].context)
          ensures statuses[j].context != statuses[i].context
        {
          assert st[j + 1] == statuses[j];
        }
      }
    }
  }

  /**
   * Only the newest report of a context is compared: an older report of a
   * context already reported (appended to the newest-first history) changes
   * nothing, whatever its state.
   */
  lemma {:induction false} OlderReportIgnored(
    cfg: MergeConfig, runs: seq<CheckRun>, statuses: seq<CommitStatus>, t: StatusType,
    j: nat, older: CommitStatus)
    requires j < |statuses| && !ShouldSkip(cfg, statuses[j].context)
    requires older.context == statuses[j].context
    ensures HasChecksIn(cfg, runs, statuses + [older], t) == HasChecksIn(cfg, runs, statuses, t)
  {
    var st := statuses + [older];
    assert !IsNewestOfContext(cfg, st, |statuses|) by {
      assert st[j] == statuses[j];
    }
    forall i | 0 <= i < |statuses|
      ensures IsNewestOfContext(cfg, st, i) == IsNewestOfContext(cfg, statuses, i)
    {
      assert forall k :: 0 <= k <= i ==> st[k] == statuses[k];
    }
    if exists i :: IsNewestOfContext(cfg, st, i) && st[i].state == t.Name() {
      var i :| IsNewestOfContext(cfg, st, i) && st[i].state == t.Name();
      assert i < |statuses|;
      assert st[i] == statuses[i];
    }
    if exists i :: IsNewestOfContext(cfg, statuses, i) && statuses[i].state == t.Name() {
      var i :| IsNewestOfContext(cfg, statuses, i) && statuses[i].state == t.Name();
      assert st[i] == statuses[i];
      assert IsNewestOfContext(cfg, st, i);
    }
  }

  // ---------------------------------------------------------------------------
  // The merge state machine
  // ---------------------------------------------------------------------------

  /** One `fetchPR` answer, with the check runs and statuses read for it. */
  datatype PullRequest = PullRequest(
    mergeableState: string,
    merged: bool,
    mergeable: bool,
    checkRuns: seq<CheckRun>,
    statuses: seq<CommitStatus>)

  /** The states the polling loop keeps waiting on. */
  predicate IsPolling(state: string) {
    state == "unknown" || state == "behind" || state == "unstable"
  }

  /**
   * `checkStatus`: None when the state is accepted (the source returns true),
   * otherwise the error it throws.
   */
  function CheckStatus(state: string): (r: Option<IssueErrorType>)
    ensures r.None? <==> state != "blocked" && state != "dirty" && state != "unknown" && state != "unstable"
    ensures r == Some(NeedsApproval) <==> state == "blocked"
    ensures r == Some(HasMergeConflicts) <==> state == "dirty"
    ensures r == Some(FailedChecks) <==> state == "unknown" || state == "unstable"
  {
    if state == "blocked" then Some(NeedsApproval)
    else if state == "dirty" then Some(HasMergeConflicts)
    else if state == "unknown" || state == "unstable" then Some(FailedChecks)
    else None
  }

  /** What `mergePR` asks of the outside world, in order. */
  datatype Effect = Sleep(ms: nat) | UpdateBranch | Merge | Comment

  /** What one iteration of the polling loop decides. */
  datatype Iteration =
    | Refetch                         // wait the refetch timeout, bump the refetch counter
    | AwaitChecks(updateBranch: bool) // (update the branch,) wait the checks timeout, bump the checks counter
    | SkipFinalCheck                  // set `skipped` and leave the loop
    | Raise(kind: IssueErrorType)     // throw

  /** One iteration of the polling loop; it raises only ALREADY_MERGED or FAILED_CHECKS. */
  function Iterate(cfg: MergeConfig, pr: PullRequest): (r: Iteration)
    requires IsPolling(pr.mergeableState)
    ensures r.Raise? ==> r.kind in {AlreadyMerged, FailedChecks}
  {
    if pr.mergeableState == "unknown" then
      if pr.merged then Raise(AlreadyMerged) else Refetch
    else if pr.mergeableState == "behind" then
      if cfg.skipUpdatingBranch && pr.mergeable then SkipFinalCheck else AwaitChecks(true)
    else
      var pending := HasChecksIn(cfg, pr.checkRuns, pr.statuses, Pending);
      var failing := HasChecksIn(cfg, pr.checkRuns, pr.statuses, Failure);
      if pending then
        if cfg.skipPendingChecks then SkipFinalCheck else AwaitChecks(false)
      else if failing then
        if cfg.skipFailingChecks then SkipFinalCheck else Raise(FailedChecks)
      else SkipFinalCheck
  }

  /**
   * What decides an iteration: only an `unknown` pull request that is already
   * merged raises ALREADY_MERGED, and only an `unstable` one with failing but
   * no pending checks raises FAILED_CHECKS (unless failing checks are
   * skipped); an `unknown` one not merged is fetched again; the branch is
   * updated only when it is `behind` and that is not skipped.
   */
  lemma IterateDecides(cfg: MergeConfig, pr: PullRequest)
    requires IsPolling(pr.mergeableState)
    ensures var r := Iterate(cfg, pr);
      && (r == Raise(AlreadyMerged) <==> pr.mergeableState == "unknown" && pr.merged)
      && (r == Refetch <==> pr.mergeableState == "unknown" && !pr.merged)
      && (r == AwaitChecks(true) <==> pr.mergeableState == "behind" && !(cfg.skipUpdatingBranch && pr.mergeable))
      && (r == Raise(FailedChecks) <==>
            && pr.mergeableState == "unstable" && !cfg.skipFailingChecks
            && !HasChecksIn(cfg, pr.checkRuns, pr.statuses, Pending)
            && HasChecksIn(cfg, pr.checkRuns, pr.statuses, Failure))
  {
  }

  datatype PollEnd = LoopExit(last: PullRequest, skipped: bool) | Raised(kind: IssueErrorType)

  /** How the loop ended, the final counter values and the effects issued. */
  datatype PollRun = PollRun(end: PollEnd, refetches: nat, checks: nat, log: seq<Effect>)

  function Prepend(effects: seq<Effect>, p: PollRun): PollRun {
    p.(log := effects + p.log)
  }

  /**
   * The polling loop from counter values `refetch` and `checks`. Every
   * iteration that goes on bumps exactly one counter, so the snapshot looked
   * at is `fetch(refetch + checks)`.
   */
  function Poll(cfg: MergeConfig, fetch: nat -> PullRequest, refetch: nat, checks: nat): (r: PollRun)
    requires refetch <= cfg.refetchLimit && checks <= cfg.checksLimit
    ensures refetch <= r.refetches <= cfg.refetchLimit && checks <= r.checks <= cfg.checksLimit
    ensures r.end.LoopExit? ==> r.end.last == fetch(r.refetches + r.checks)
    ensures r.end.Raised? ==> r.end.kind in {AlreadyMerged, FailedChecks}
    decreases cfg.refetchLimit - refetch + cfg.checksLimit - checks
  {
    var pr := fetch(refetch + checks);
    if !IsPolling(pr.mergeableState) || refetch == cfg.refetchLimit || checks == cfg.checksLimit then
      PollRun(LoopExit(pr, false), refetch, checks, [])
    else
      match Iterate(cfg, pr)
      case Refetch =>
        Prepend([Sleep(cfg.refetchTimeout)], Poll(cfg, fetch, refetch + 1, checks))
      case AwaitChecks(update) =>
        Prepend((if update then [UpdateBranch] else []) + [Sleep(cfg.checksTimeout)],
                Poll(cfg, fetch, refetch, checks + 1))
      case SkipFinalCheck => PollRun(LoopExit(pr, true), refetch, checks, [])
      case Raise(k) => PollRun(Raised(k), refetch, checks, [])
  }

  /** The outcome of `mergePR`: the error thrown, if any, and the effects issued. */
  datatype MergeResult = MergeResult(error: Option<IssueErrorType>, log: seq<Effect>)

  /**
   * `mergePR` as a function: the loop, then `checkStatus` unless skipped, then
   * merge and comment. It throws only the four pull-request errors, never
   * FAILED_WORKFLOW or a card error; without an error the last two effects
   * are the merge and the comment.
   */
  function MergeSpec(cfg: MergeConfig, fetch: nat -> PullRequest): (r: MergeResult)
    ensures r.error.Some? ==> r.error.value in {AlreadyMerged, FailedChecks, NeedsApproval, HasMergeConflicts}
    ensures r.error.None? ==> |r.log| >= 2 && r.log[|r.log| - 2..] == [Merge, Comment]
  {
    var p := Poll(cfg, fetch, 0, 0);
    match p.end
    case Raised(k) => MergeResult(Some(k), p.log)
    case LoopExit(pr, skipped) =>
      var verdict := if skipped then None else CheckStatus(pr.mergeableState);
      if verdict.Some? then MergeResult(verdict, p.log)
      else MergeResult(None, p.log + [Merge, Comment])
  }

  /**
   * The body of one polling iteration, as the source branches on the
   * mergeable state: the two `verifyUnstablePR` calls happen only for an
   * unstable pull request.
   */
  method NextStep(cfg: MergeConfig, pr: PullRequest) returns (step: Iteration)
    requires IsPolling(pr.mergeableState)
    ensures step == Iterate(cfg, pr)
  {
    if pr.mergeableState == "unknown" {
      if pr.merged {
        return Raise(AlreadyMerged);
      }
      return Refetch;
    } else if pr.mergeableState == "behind" {
      if cfg.skipUpdatingBranch && pr.mergeable {
        return SkipFinalCheck;
      }
      return AwaitChecks(true);
    }
    var hasPending := VerifyUnstablePR(cfg, pr.checkRuns, pr.statuses, Pending);
    var hasFailing := VerifyUnstablePR(cfg, pr.checkRuns, pr.statuses, Failure);
    if hasPending {
      if cfg.skipPendingChecks {
        return SkipFinalCheck;
      }
      return AwaitChecks(false);
    } else if hasFailing {
      if cfg.skipFailingChecks {
        return SkipFinalCheck;
      }
      return Raise(FailedChecks);
    }
    return SkipFinalCheck;
  }

  /** One polling iteration that goes on or stops, as `Poll` takes it. */
  lemma PollStep(cfg: MergeConfig, fetch: nat -> PullRequest, refetch: nat, checks: nat)
    requires refetch < cfg.refetchLimit && checks < cfg.checksLimit
    requires IsPolling(fetch(refetch + checks).mergeableState)
    ensures var p := Poll(cfg, fetch, refetch, checks);
      match Iterate(cfg, fetch(refetch + checks))
      case Refetch => p == Prepend([Sleep(cfg.refetchTimeout)], Poll(cfg, fetch, refetch + 1, checks))
      case AwaitChecks(update) =>
        p == Prepend((if update then [UpdateBranch] else []) + [Sleep(cfg.checksTimeout)],
                     Poll(cfg, fetch, refetch, checks + 1))
      case SkipFinalCheck => p == PollRun(LoopExit(fetch(refetch + checks), true), refetch, checks, [])
      case Raise(k) => p == PollRun(Raised(k), refetch, checks, [])
  {
  }

  lemma PrependTwice(a: seq<Effect>, b: seq<Effect>, p: PollRun)
    ensures Prepend(a, Prepend(b, p)) == Prepend(a + b, p)
  {
    assert a + (b + p.log) == (a + b) + p.log;
  }

  /** `mergePR` written as the source's loop, proved to behave as `MergeSpec`. */
  method MergePR(cfg: MergeConfig, fetch: nat -> PullRequest) returns (error: Option<IssueErrorType>, log: seq<Effect>)
    ensures MergeResult(error, log) == MergeSpec(cfg, fetch)
  {
    var pr := fetch(0);
    var refetchCounter: nat, checksCounter: nat := 0, 0;
    var skipped := false;
    log := [];
    ghost var whole := Poll(cfg, fetch, 0, 0);
    while IsPolling(pr.mergeableState)
      invariant refetchCounter <= cfg.refetchLimit && checksCounter <= cfg.checksLimit
      invariant pr == fetch(refetchCounter + checksCounter)
      invariant !skipped
      invariant whole == Prepend(log, Poll(cfg, fetch, refetchCounter, checksCounter))
      decreases cfg.refetchLimit - refetchCounter + cfg.checksLimit - checksCounter
    {
      if refetchCounter == cfg.refetchLimit || checksCounter == cfg.checksLimit {
        break;
      }
      var step := NextStep(cfg, pr);
      PollStep(cfg, fetch, refetchCounter, checksCounter);
      match step {
        case Raise(kind) =>
          return Some(kind), log;
        case SkipFinalCheck =>
          skipped := true;
          break;
        case Refetch =>
          PrependTwice(log, [Sleep(cfg.refetchTimeout)], Poll(cfg, fetch, refetchCounter + 1, checksCounter));
          log := log + [Sleep(cfg.refetchTimeout)];
          refetchCounter := refetchCounter + 1;
        case AwaitChecks(update) =>
          ghost var effects := (if update then [UpdateBranch] else []) + [Sleep(cfg.checksTimeout)];
          PrependTwice(log, effects, Poll(cfg, fetch, refetchCounter, checksCounter + 1));
          ghost var before := log;
          if update {
            log := log + [UpdateBranch];
          }
          log := log + [Sleep(cfg.checksTimeout)];
          assert log == before + effects;
          checksCounter := checksCounter + 1;
      }
      pr := fetch(refetchCounter + checksCounter);
    }
    assert whole == PollRun(LoopExit(pr, skipped), refetchCounter, checksCounter, log);
    if !skipped {
      var verdict := CheckStatus(pr.mergeableState);
      if verdict.Some? {
        return verdict, log;
      }
    }
    log := log + [Merge, Comment];
    error := None;
  }

  // ---------------------------------------------------------------------------
  // Properties of the merge state machine
  // ---------------------------------------------------------------------------

  function SleepCount(log: seq<Effect>): nat
    decreases |log|
  {
    if log == [] then 0 else (if log[0].Sleep? then 1 else 0) + SleepCount(log[1..])
  }

  lemma {:induction false} SleepCountAppend(a: seq<Effect>, b: seq<Effect>)
    ensures SleepCount(a + b) == SleepCount(a) + SleepCount(b)
    decreases |a|
  {
    if a == [] {
      assert a + b == b;
    } else {
      assert (a + b)[0] == a[0];
      assert (a + b)[1..] == a[1..] + b;
      SleepCountAppend(a[1..], b);
    }
  }

  /**
   * A loop that stopped on a polling state without skipping did so because a
   * counter reached its limit.
   */
  lemma {:induction false} PollBounds(cfg: MergeConfig, fetch: nat -> PullRequest, refetch: nat, checks: nat)
    requires refetch <= cfg.refetchLimit && checks <= cfg.checksLimit
    ensures var p := Poll(cfg, fetch, refetch, checks);
      p.end.LoopExit? && !p.end.skipped && IsPolling(p.end.last.mergeableState) ==>
        p.refetches == cfg.refetchLimit || p.checks == cfg.checksLimit
    decreases cfg.refetchLimit - refetch + cfg.checksLimit - checks
  {
    var pr := fetch(refetch + checks);
    if IsPolling(pr.mergeableState) && refetch < cfg.refetchLimit && checks < cfg.checksLimit {
      match Iterate(cfg, pr)
      case Refetch =>
        PollBounds(cfg, fetch, refetch + 1, checks);
      case AwaitChecks(update) =>
        PollBounds(cfg, fetch, refetch, checks + 1);
      case SkipFinalCheck =>
      case Raise(k) =>
    }
  }

  /**
   * A run of the loop from counters `refetch` and `checks` issued one sleep per
   * counter increment, and neither a merge nor a comment.
   */
  predicate EffectsCounted(p: PollRun, refetch: int, checks: int) {
    && SleepCount(p.log) == (p.refetches - refetch) + (p.checks - checks)
    && Merge !in p.log && Comment !in p.log
  }

  /** The effects of the loop: one sleep per counter increment, and neither a merge nor a comment. */
  lemma {:induction false} PollEffects(cfg: MergeConfig, fetch: nat -> PullRequest, refetch: nat, checks: nat)
    requires refetch <= cfg.refetchLimit && checks <= cfg.checksLimit
    ensures EffectsCounted(Poll(cfg, fetch, refetch, checks), refetch, checks)
    decreases cfg.refetchLimit - refetch + cfg.checksLimit - checks
  {
    var pr := fetch(refetch + checks);
    if IsPolling(pr.mergeableState) && refetch < cfg.refetchLimit && checks < cfg.checksLimit {
      PollStep(cfg, fetch, refetch, checks);
      match Iterate(cfg, pr)
      case Refetch =>
        PollEffects(cfg, fetch, refetch + 1, checks);
        PrependCounted([Sleep(cfg.refetchTimeout)], Poll(cfg, fetch, refetch + 1, checks), refetch + 1, checks, refetch, checks);
      case AwaitChecks(update) =>
        PollEffects(cfg, fetch, refetch, checks + 1);
        var pre := (if update then [UpdateBranch] else []) + [Sleep(cfg.checksTimeout)];
        assert SleepCount(pre) == 1 && Merge !in pre && Comment !in pre by {
          SleepCountAppend(if update then [UpdateBranch] else [], [Sleep(cfg.checksTimeout)]);
        }
        PrependCounted(pre, Poll(cfg, fetch, refetch, checks + 1), refetch, checks + 1, refetch, checks);
      case SkipFinalCheck =>
      case Raise(k) =>
    }
  }

  /** One sleep, without merge or comment, issued before a counted run keeps it counted from one increment earlier. */
  lemma PrependCounted(pre: seq<Effect>, rest: PollRun, refetch: int, checks: int, refetch0: int, checks0: int)
    requires EffectsCounted(rest, refetch, checks)
    requires SleepCount(pre) == 1 && Merge !in pre && Comment !in pre
    requires refetch0 + checks0 + 1 == refetch + checks
    ensures EffectsCounted(Prepend(pre, rest), refetch0, checks0)
  {
    PrependEffects(pre, rest);
  }

  /** Effects issued before a run of the loop add their sleeps, merges and comments to it. */
  lemma PrependEffects(pre: seq<Effect>, p: PollRun)
    ensures SleepCount(Prepend(pre, p).log) == SleepCount(pre) + SleepCount(p.log)
    ensures Merge in Prepend(pre, p).log <==> Merge in pre || Merge in p.log
    ensures Comment in Prepend(pre, p).log <==> Comment in pre || Comment in p.log
  {
    SleepCountAppend(pre, p.log);
  }

  /** Merge and comment are issued exactly when nothing was thrown. */
  lemma MergeOnlyWithoutError(cfg: MergeConfig, fetch: nat -> PullRequest)
    ensures var m := MergeSpec(cfg, fetch);
      && (m.error.None? <==> Merge in m.log)
      && (m.error.Some? ==> Comment !in m.log)
  {
    PollEffects(cfg, fetch, 0, 0);
  }

  /** A loop left through a skip bypasses `checkStatus`: the pull request is merged. */
  lemma SkippedBypassesCheckStatus(cfg: MergeConfig, fetch: nat -> PullRequest)
    requires Poll(cfg, fetch, 0, 0).end.LoopExit? && Poll(cfg, fetch, 0, 0).end.skipped
    ensures MergeSpec(cfg, fetch).error.None?
  {
  }

  /** ALREADY_MERGED is thrown only for a snapshot that is `unknown` and already merged. */
  lemma {:induction false} AlreadyMergedCause(cfg: MergeConfig, fetch: nat -> PullRequest, refetch: nat, checks: nat)
    requires refetch <= cfg.refetchLimit && checks <= cfg.checksLimit
    requires Poll(cfg, fetch, refetch, checks).end == Raised(AlreadyMerged)
    ensures exists k :: fetch(k).mergeableState == "unknown" && fetch(k).merged
    decreases cfg.refetchLimit - refetch + cfg.checksLimit - checks
  {
    var pr := fetch(refetch + checks);
    if IsPolling(pr.mergeableState) && refetch < cfg.refetchLimit && checks < cfg.checksLimit {
      match Iterate(cfg, pr)
      case Refetch => AlreadyMergedCause(cfg, fetch, refetch + 1, checks);
      case AwaitChecks(_) => AlreadyMergedCause(cfg, fetch, refetch, checks + 1);
      case SkipFinalCheck =>
      case Raise(k) =>
    }
  }

  /**
   * The scenario `unknown, unknown, clean` with a refetch limit of 2 (and a
   * checks budget left): two refetch waits, then merge and comment.
   */
  lemma RefetchTwiceThenMerge(cfg: MergeConfig, fetch: nat -> PullRequest)
    requires cfg.refetchLimit == 2 && cfg.checksLimit > 0
    requires fetch(0).mergeableState == "unknown" && !fetch(0).merged
    requires fetch(1).mergeableState == "unknown" && !fetch(1).merged
    requires fetch(2).mergeableState == "clean"
    ensures MergeSpec(cfg, fetch) ==
      MergeResult(None, [Sleep(cfg.refetchTimeout), Sleep(cfg.refetchTimeout), Merge, Comment])
  {
    assert Poll(cfg, fetch, 2, 0) == PollRun(LoopExit(fetch(2), false), 2, 0, []);
    assert Poll(cfg, fetch, 1, 0) == PollRun(LoopExit(fetch(2), false), 2, 0, [Sleep(cfg.refetchTimeout)]);
  }

  /**
   * An unstable pull request whose check runs hold one completed, failing,
   * non-skipped run (with nothing pending): FAILED_CHECKS without a merge when
   * failing checks are not skipped; merged when they are.
   */
  lemma FailingCheckDecides(cfg: MergeConfig, fetch: nat -> PullRequest)
    requires cfg.refetchLimit > 0 && cfg.checksLimit > 0
    requires fetch(0).mergeableState == "unstable"
    requires fetch(0).statuses == []
    requires |fetch(0).checkRuns| == 1
    requires fetch(0).checkRuns[0] == CheckRun(fetch(0).checkRuns[0].name, "completed", "failure")
    requires !ShouldSkip(cfg, fetch(0).checkRuns[0].name)
    ensures !cfg.skipFailingChecks ==> MergeSpec(cfg, fetch) == MergeResult(Some(FailedChecks), [])
    ensures cfg.skipFailingChecks ==> MergeSpec(cfg, fetch) == MergeResult(None, [Merge, Comment])
  {
    var runs := fetch(0).checkRuns;
    assert RunCounts(cfg, runs[0], Failure);
    assert !RunCounts(cfg, runs[0], Pending);
    assert !HasChecksIn(cfg, runs, [], Pending);
    assert HasChecksIn(cfg, runs, [], Failure);
  }
}
