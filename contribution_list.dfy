/** The type and search filters of the contribution list
    (components/contributions/contribution-list.tsx). */
module ContributionList {
  import opened Strings
  import opened Sequences
  import opened Contributions

  /** The type filter: "all" accepts everything, any other value only its own type. */
  predicate TypeMatches(c: Contribution, filter: string)
  {
    filter == "all" || TypeName(c.kind) == filter
  }

  /** The search filter: the lower-cased title includes the lower-cased search text. */
  predicate TitleMatches(c: Contribution, search: string)
  {
    Contains(Lower(c.title), Lower(search))
  }

  /** `filteredContributions`: the type filter, then the search filter. */
  function FilteredContributions(contributions: seq<Contribution>, filter: string, search: string)
    : (r: seq<Contribution>)
    ensures forall c :: c in r ==> TypeMatches(c, filter) && TitleMatches(c, search)
    ensures forall c :: (multiset(r)[c]
      == if TypeMatches(c, filter) && TitleMatches(c, search) then multiset(contributions)[c] else 0)
    ensures IsSubsequence(r, contributions)
  {
    var byType := Filter(c => TypeMatches(c, filter), contributions);
    var r := Filter(c => TitleMatches(c, search), byType);
    SubsequenceTransitive(r, byType, contributions);
    r
  }

  /** A contribution is shown exactly when it occurs and passes both filters. */
  lemma ShownIff(contributions: seq<Contribution>, filter: string, search: string, c: Contribution)
    ensures c in FilteredContributions(contributions, filter, search)
        <==> c in contributions && TypeMatches(c, filter) && TitleMatches(c, search)
  {
  }

  /** With a filter other than "all", every shown contribution has that type. */
  lemma ShownHaveFilterType(contributions: seq<Contribution>, filter: string, search: string)
    requires filter != "all"
    ensures forall c :: c in FilteredContributions(contributions, filter, search) ==> TypeName(c.kind) == filter
  {
  }

  /** An empty search keeps everything that passes the type filter, and "all" with an empty
      search shows the whole list. */
  lemma EmptySearchKeepsTypeMatches(contributions: seq<Contribution>, filter: string)
    ensures FilteredContributions(contributions, filter, "") == Filter(c => TypeMatches(c, filter), contributions)
    ensures FilteredContributions(contributions, "all", "") == contributions
  {
    forall c: Contribution
      ensures TitleMatches(c, "")
    {
    }
    var byType := Filter(c => TypeMatches(c, filter), contributions);
    FilterKeepsAll(c => TitleMatches(c, ""), byType);
    FilterKeepsAll(c => TypeMatches(c, "all"), contributions);
    var all := Filter(c => TypeMatches(c, "all"), contributions);
    FilterKeepsAll(c => TitleMatches(c, ""), all);
  }
}
