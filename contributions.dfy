/** Classification of a pull request into a contribution: type, complexity, status and
    reward (lib/github.ts; lib/services/github.ts:55-122 repeats the same helpers). */
module Contributions {
  import opened Wrappers
  import opened Strings

  datatype ContributionType = Bug | Feature | Docs | Refactor
  datatype Complexity = Easy | Medium | Hard
  datatype Status = Pending | Approved | Rejected

  /** A pull request as returned by the GitHub API; a number field the API omits is None. */
  datatype Pull = Pull(
    number: int,
    title: string,
    labels: seq<string>,   // the `name` of each label
    state: string,
    mergedAt: Option<string>,
    additions: Option<int>,
    deletions: Option<int>,
    changedFiles: Option<int>,
    htmlUrl: string,
    createdAt: string,
    updatedAt: string)

  datatype Metrics = Metrics(additions: int, deletions: int, changedFiles: int)

  /** `GitHubContribution`; the source's `type` field is `kind` here. */
  datatype Contribution = Contribution(
    kind: ContributionType,
    prNumber: int,
    complexity: Complexity,
    status: Status,
    reward: int,
    title: string,
    url: string,
    createdAt: string,
    updatedAt: string)

  /** The string literal the source uses for each type. */
  function TypeName(t: ContributionType): string
  {
    match t
    case Bug => "bug"
    case Feature => "feature"
    case Docs => "docs"
    case Refactor => "refactor"
  }

  /** `BASE_REWARDS`. */
  function BaseReward(t: ContributionType): int
  {
    match t
    case Bug => 500
    case Feature => 1000
    case Docs => 200
    case Refactor => 300
  }

  /** `COMPLEXITY_MULTIPLIERS`. */
  function Multiplier(c: Complexity): int
  {
    match c
    case Easy => 1
    case Medium => 2
    case Hard => 3
  }

  /** Some label, lower-cased, is exactly `name`. */
  predicate HasLabel(labels: seq<string>, name: string)
  {
    exists i :: 0 <= i < |labels| && Lower(labels[i]) == name
  }

  /** The lower-cased title includes `word`. */
  predicate TitleMentions(title: string, word: string)
  {
    Contains(Lower(title), word)
  }

  predicate BugSignal(title: string, labels: seq<string>)
  {
    HasLabel(labels, "bug") || TitleMentions(title, "fix")
  }

  predicate DocsSignal(title: string, labels: seq<string>)
  {
    HasLabel(labels, "documentation") || TitleMentions(title, "docs")
  }

  predicate RefactorSignal(title: string, labels: seq<string>)
  {
    HasLabel(labels, "refactor") || TitleMentions(title, "refactor")
  }

  /** `determineContributionType`: the first signal that fires, in the order bug, docs,
      refactor; feature when none does. */
  function ContributionTypeOf(title: string, labels: seq<string>): (t: ContributionType)
    ensures t == Bug <==> BugSignal(title, labels)
    ensures t == Docs <==> !BugSignal(title, labels) && DocsSignal(title, labels)
    ensures t == Refactor <==> !BugSignal(title, labels) && !DocsSignal(title, labels) && RefactorSignal(title, labels)
    ensures t == Feature <==> !BugSignal(title, labels) && !DocsSignal(title, labels) && !RefactorSignal(title, labels)
  {
    if BugSignal(title, labels) then Bug
    else if DocsSignal(title, labels) then Docs
    else if RefactorSignal(title, labels) then Refactor
    else Feature
  }

  /** The type does not depend on letter case in the title or the labels. */
  lemma TypeIgnoresCase(title: string, labels: seq<string>)
    ensures ContributionTypeOf(Lower(title), seq(|labels|, i requires 0 <= i < |labels| => Lower(labels[i])))
         == ContributionTypeOf(title, labels)
  {
    var lowered := seq(|labels|, i requires 0 <= i < |labels| => Lower(labels[i]));
    LowerIdempotent(title);
    forall i | 0 <= i < |labels|
      ensures Lower(lowered[i]) == Lower(labels[i])
    {
    }
    assert forall name :: HasLabel(lowered, name) == HasLabel(labels, name);
  }

  /** A title mentioning "fix" makes a bug, whatever the labels; a "bug" label makes a bug,
      whatever the title. */
  lemma BugSignalWins(title: string, labels: seq<string>)
    ensures TitleMentions(title, "fix") ==> ContributionTypeOf(title, labels) == Bug
    ensures ContributionTypeOf(title, labels + ["Bug"]) == Bug
  {
    var l := labels + ["Bug"];
    assert Lower(l[|labels|]) == "bug";
  }

  /** `getContributionMetrics`: a missing (or zero) count reads as 0. */
  function MetricsOf(pull: Pull): (m: Metrics)
    ensures m.additions == pull.additions.GetOr(0)
    ensures m.deletions == pull.deletions.GetOr(0)
    ensures m.changedFiles == pull.changedFiles.GetOr(0)
  {
    Metrics(pull.additions.GetOr(0), pull.deletions.GetOr(0), pull.changedFiles.GetOr(0))
  }

  /** `determineComplexity` on the metrics. */
  function ComplexityOf(m: Metrics): (c: Complexity)
    ensures c == Hard <==> m.changedFiles > 10 || m.additions + m.deletions > 500
    ensures c == Easy <==> m.changedFiles <= 5 && m.additions + m.deletions <= 200
  {
    if m.changedFiles > 10 || m.additions + m.deletions > 500 then Hard
    else if m.changedFiles > 5 || m.additions + m.deletions > 200 then Medium
    else Easy
  }

  function Rank(c: Complexity): nat
  {
    match c
    case Easy => 0
    case Medium => 1
    case Hard => 2
  }

  /** Raising any metric never lowers the complexity. */
  lemma ComplexityMonotone(m1: Metrics, m2: Metrics)
    requires m1.additions <= m2.additions && m1.deletions <= m2.deletions && m1.changedFiles <= m2.changedFiles
    ensures Rank(ComplexityOf(m1)) <= Rank(ComplexityOf(m2))
  {
  }

  /** A pull that reports no metrics is easy. */
  lemma NoMetricsIsEasy(pull: Pull)
    requires pull.additions.None? && pull.deletions.None? && pull.changedFiles.None?
    ensures ComplexityOf(MetricsOf(pull)) == Easy
  {
  }

  /** `determineStatus`: merged (a non-empty `merged_at`) is approved whatever the state;
      otherwise "closed" is rejected and anything else pending. */
  function StatusOf(state: string, mergedAt: Option<string>): (s: Status)
    ensures s == Approved <==> mergedAt.Some? && mergedAt.value != ""
    ensures s == Rejected <==> (mergedAt.None? || mergedAt.value == "") && state == "closed"
  {
    if mergedAt.Some? && mergedAt.value != "" then Approved
    else if state == "closed" then Rejected
    else Pending
  }

  /** `BASE_REWARDS[type] * COMPLEXITY_MULTIPLIERS[complexity]`. */
  function Reward(t: ContributionType, c: Complexity): (r: int)
    ensures 200 <= r <= 3000
    ensures r % BaseReward(t) == 0 && r / BaseReward(t) == Multiplier(c)
  {
    BaseReward(t) * Multiplier(c)
  }

  /** Both ends of the reward range are reached: an easy docs change and a hard feature. */
  lemma RewardExtremes()
    ensures Reward(Docs, Easy) == 200 && Reward(Feature, Hard) == 3000
  {
  }

  /** A harder contribution of the same type never earns less. */
  lemma RewardMonotone(t: ContributionType, c1: Complexity, c2: Complexity)
    requires Rank(c1) <= Rank(c2)
    ensures Reward(t, c1) <= Reward(t, c2)
  {
  }

  /** `calculateReward(pull)`. */
  function PullReward(pull: Pull): (r: int)
    ensures 200 <= r <= 3000
  {
    Reward(ContributionTypeOf(pull.title, pull.labels), ComplexityOf(MetricsOf(pull)))
  }

  /** The object built for one pull in `fetchContributions`. */
  function ContributionOf(pull: Pull): (c: Contribution)
    ensures c.prNumber == pull.number && c.title == pull.title && c.url == pull.htmlUrl
    ensures c.createdAt == pull.createdAt && c.updatedAt == pull.updatedAt
    ensures c.kind == ContributionTypeOf(pull.title, pull.labels)
    ensures c.complexity == ComplexityOf(MetricsOf(pull))
    ensures c.status == StatusOf(pull.state, pull.mergedAt)
    ensures c.reward == Reward(c.kind, c.complexity) && 200 <= c.reward <= 3000
    ensures c.status == Approved <==> pull.mergedAt.Some? && pull.mergedAt.value != ""
  {
    Contribution(
      ContributionTypeOf(pull.title, pull.labels),
      pull.number,
      ComplexityOf(MetricsOf(pull)),
      StatusOf(pull.state, pull.mergedAt),
      PullReward(pull),
      pull.title,
      pull.htmlUrl,
      pull.createdAt,
      pull.updatedAt)
  }

  /** The `pulls.map(...)` of `fetchContributions`: one contribution per pull, in order. */
  function ContributionsOf(pulls: seq<Pull>): (cs: seq<Contribution>)
    ensures |cs| == |pulls|
    ensures forall i :: 0 <= i < |pulls| ==> cs[i] == ContributionOf(pulls[i])
    ensures forall i :: 0 <= i < |pulls| ==>
      cs[i].prNumber == pulls[i].number && cs[i].title == pulls[i].title && cs[i].url == pulls[i].htmlUrl
      && 200 <= cs[i].reward <= 3000
  {
    seq(|pulls|, i requires 0 <= i < |pulls| => ContributionOf(pulls[i]))
  }
}
