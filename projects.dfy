/** The repo-to-project mapping of `getOrganizationProjects` (lib/services/github.ts). */
module OrgProjects {
  import opened Wrappers
  import opened Strings
  import opened Sequences

  /** A public repository of the organisation, with the result of listing its contributors:
      None when the listing failed, otherwise the number of contributors the repository has. */
  datatype Repo = Repo(name: string, description: Option<string>, htmlUrl: string, contributors: Option<nat>)

  datatype Feature = Feature(icon: string, text: string)

  /** `Project`; the source's `type` field is `kind` here. */
  datatype Project = Project(
    name: string,
    kind: string,
    summary: string,
    image: string,
    features: seq<Feature>,
    reward: string,
    link: string)

  /** The contributor listing asks for one entry per page and counts that one page. */
  const ContributorsPerPage: nat := 1

  const DefaultImage := "https://images.unsplash.com/photo-1451187580459-43490279c0fa?w=500&h=300&fit=crop"

  /** `PROJECT_IMAGES` without its `default` entry. */
  const ProjectImages: map<string, string> := map[
    "roxonn-defi" := "https://images.unsplash.com/photo-1639762681485-074b7f938ba0?w=500&h=300&fit=crop",
    "DrowsyDriverAlertApp" := "https://images.unsplash.com/photo-1549317661-bd32c8ce0db2?w=500&h=300&fit=crop",
    "emergency-med-portal" := "https://images.unsplash.com/photo-1516549655169-df83a0774514?w=500&h=300&fit=crop",
    "roxonn-website" := "https://images.unsplash.com/photo-1460925895917-afdab827c52f?w=500&h=300&fit=crop"
  ]

  /** `repos.filter(repo => repo.name !== '.github')`. */
  predicate Listed(repo: Repo)
  {
    repo.name != ".github"
  }

  /** `contributors_count`: the length of the first page, or 0 when listing failed. */
  function ContributorsCount(repo: Repo): (n: nat)
    ensures n <= ContributorsPerPage
    ensures repo.contributors.None? ==> n == 0
    ensures repo.contributors.Some? && repo.contributors.value > 0 ==> n == ContributorsPerPage
    ensures repo.contributors.Some? ==>
      n == if repo.contributors.value < ContributorsPerPage then repo.contributors.value else ContributorsPerPage
  {
    match repo.contributors
    case None => 0
    case Some(total) => if total < ContributorsPerPage then total else ContributorsPerPage
  }

  /** `PROJECT_IMAGES[repo.name] || PROJECT_IMAGES.default`. */
  function ImageFor(name: string): (url: string)
    ensures name in ProjectImages ==> url == ProjectImages[name]
    ensures name !in ProjectImages ==> url == DefaultImage
    ensures url != ""
  {
    if name in ProjectImages then ProjectImages[name] else DefaultImage
  }

  /** `repo.description || "<name> - Open source project by Roxonn FutureTech"`. */
  function SummaryOf(repo: Repo): (s: string)
    ensures repo.description.Some? && repo.description.value != "" ==> s == repo.description.value
    ensures repo.description.None? || repo.description.value == "" ==>
      s == repo.name + " - Open source project by Roxonn FutureTech"
  {
    if repo.description.Some? && repo.description.value != "" then repo.description.value
    else repo.name + " - Open source project by Roxonn FutureTech"
  }

  /** The project card built for one repository. */
  function ProjectOf(repo: Repo): (p: Project)
    ensures p.name == repo.name && p.link == repo.htmlUrl
    ensures p.kind == "Open Source" && p.reward == "5000 ROXN"
    ensures p.summary == SummaryOf(repo) && p.image == ImageFor(repo.name)
    ensures p.features == [
      Feature("GitPullRequest", "Active Development"),
      Feature("Users", DecimalString(ContributorsCount(repo)) + " Contributors"),
      Feature("Coins", "Token Rewards")]
  {
    Project(
      repo.name,
      "Open Source",
      SummaryOf(repo),
      ImageFor(repo.name),
      [ Feature("GitPullRequest", "Active Development"),
        Feature("Users", DecimalString(ContributorsCount(repo)) + " Contributors"),
        Feature("Coins", "Token Rewards") ],
      "5000 ROXN",
      repo.htmlUrl)
  }

  /** The contributors feature reads back as the number of contributors counted. */
  lemma {:induction false} ContributorsTextReadsBack(repo: Repo, n: nat)
    ensures var text := DecimalString(n) + " Contributors";
      |text| > |" Contributors"| && ParseDecimal(text[..|text| - |" Contributors"|]) == n
    ensures var text := ProjectOf(repo).features[1].text;
      |text| > |" Contributors"|
      && ParseDecimal(text[..|text| - |" Contributors"|]) == ContributorsCount(repo)
  {
    var text := DecimalString(n) + " Contributors";
    assert text[..|text| - |" Contributors"|] == DecimalString(n);
    ParseDecimalString(n);
    var m := ContributorsCount(repo);
    var text' := DecimalString(m) + " Contributors";
    assert text'[..|text'| - |" Contributors"|] == DecimalString(m);
    ParseDecimalString(m);
  }

  /** The projects shown for the organisation's repositories. */
  function OrganizationProjects(repos: seq<Repo>): (ps: seq<Project>)
    ensures |ps| == |Filter(Listed, repos)|
    ensures forall i :: 0 <= i < |ps| ==> ps[i] == ProjectOf(Filter(Listed, repos)[i])
    ensures forall p :: p in ps ==> p.name != ".github"
  {
    var kept := Filter(Listed, repos);
    var ps := seq(|kept|, i requires 0 <= i < |kept| => ProjectOf(kept[i]));
    assert forall i :: 0 <= i < |kept| ==> ps[i].name == kept[i].name && Listed(kept[i]);
    ps
  }

  /** Every repository other than ".github" has its project in the list, and the kept
      repositories are in their original order. */
  lemma EveryListedRepoShown(repos: seq<Repo>, repo: Repo)
    ensures repo in repos && repo.name != ".github" ==> ProjectOf(repo) in OrganizationProjects(repos)
    ensures IsSubsequence(Filter(Listed, repos), repos)
  {
    var kept := Filter(Listed, repos);
    if repo in repos && repo.name != ".github" {
      FilterMembership(Listed, repos, repo);
      var i :| 0 <= i < |kept| && kept[i] == repo;
      assert OrganizationProjects(repos)[i] == ProjectOf(repo);
    }
  }
}
