/** The projects browser (frontend/apps/projects/ProjectsWindow.tsx): the search and
    category filter over the project list, and the technology chips of a card. */
module Projects {
  import opened Wrappers
  import opened Text

  /** The fields of a project the filter and the cards read. */
  datatype Project = Project(title: string, description: string, technologies: seq<string>, featured: bool)

  /** `selectedFilter`. */
  datatype Category = All | Featured | Web | Mobile

  const WebTechnologies: seq<string> := ["React", "Next.js", "Vue.js", "HTML/CSS"]
  const MobileTechnologies: seq<string> := ["React Native", "Expo", "Flutter"]

  /** `s.toLowerCase().includes(term.toLowerCase())`. */
  predicate IncludesIgnoringCase(s: string, term: string) {
    Contains(Lower(s), Lower(term))
  }

  /** Some technology of the project lies in `names` (exact, case-sensitive match). */
  predicate UsesAnyOf(p: Project, names: seq<string>) {
    exists i :: 0 <= i < |p.technologies| && p.technologies[i] in names
  }

  /** `matchesSearch`: the term occurs, ignoring case, in the title, the description
      or some technology. */
  predicate MatchesSearch(p: Project, term: string) {
    || IncludesIgnoringCase(p.title, term)
    || IncludesIgnoringCase(p.description, term)
    || exists i :: 0 <= i < |p.technologies| && IncludesIgnoringCase(p.technologies[i], term)
  }

  /** `matchesFilter`. */
  predicate MatchesCategory(p: Project, c: Category) {
    match c
    case All => true
    case Featured => p.featured
    case Web => UsesAnyOf(p, WebTechnologies)
    case Mobile => UsesAnyOf(p, MobileTechnologies)
  }

  predicate Shown(p: Project, term: string, c: Category) {
    MatchesSearch(p, term) && MatchesCategory(p, c)
  }

  /** `filteredProjects`: `PROJECTS.filter(...)`. */
  function FilterProjects(ps: seq<Project>, term: string, c: Category): (r: seq<Project>)
    ensures forall p :: p in r <==> p in ps && Shown(p, term, c)
    ensures |r| <= |ps|
    decreases |ps|
  {
    if |ps| == 0 then []
    else if Shown(ps[0], term, c) then [ps[0]] + FilterProjects(ps[1..], term, c)
    else FilterProjects(ps[1..], term, c)
  }

  /** Filtering works element by element, so the shown list keeps the original order. */
  lemma {:induction false} FilterDistributes(ps: seq<Project>, qs: seq<Project>, term: string, c: Category)
    ensures FilterProjects(ps + qs, term, c) == FilterProjects(ps, term, c) + FilterProjects(qs, term, c)
    decreases |ps|
  {
    if |ps| == 0 {
      assert ps + qs == qs;
    } else {
      assert (ps + qs)[1..] == ps[1..] + qs;
      FilterDistributes(ps[1..], qs, term, c);
    }
  }

  /** An empty search term matches every project. */
  lemma EmptyTermMatchesAll(p: Project)
    ensures MatchesSearch(p, "")
  {
    ContainsEmpty(Lower(p.title));
  }

  /** With an empty search and the "all" category, every project is shown, in order. */
  lemma {:induction false} EmptySearchShowsAll(ps: seq<Project>)
    ensures FilterProjects(ps, "", All) == ps
    decreases |ps|
  {
    if |ps| > 0 {
      EmptyTermMatchesAll(ps[0]);
      EmptySearchShowsAll(ps[1..]);
    }
  }

  /** The search ignores the case of the term. */
  lemma SearchIgnoresTermCase(p: Project, term: string)
    ensures MatchesSearch(p, Lower(term)) <==> MatchesSearch(p, term)
  {
    LowerIdempotent(term);
  }

  /** The "featured" category keeps exactly the featured projects that match the search. */
  lemma FeaturedCategoryIsFeatured(ps: seq<Project>, term: string)
    ensures forall p :: p in FilterProjects(ps, term, Featured) <==> p in ps && p.featured && MatchesSearch(p, term)
  {
  }

  /** Adding a technology changes the web or mobile category only when its name is
      exactly one of that category's names: a name that merely contains one, or
      differs from it in case, is ignored (`CategoryMatchIsExact` gives an example). */
  lemma AddedTechnologyCategory(p: Project, t: string)
    ensures var q := p.(technologies := p.technologies + [t]);
      && (t in WebTechnologies ==> MatchesCategory(q, Web))
      && (t !in WebTechnologies ==> (MatchesCategory(q, Web) <==> MatchesCategory(p, Web)))
      && (t in MobileTechnologies ==> MatchesCategory(q, Mobile))
      && (t !in MobileTechnologies ==> (MatchesCategory(q, Mobile) <==> MatchesCategory(p, Mobile)))
  {
    var q := p.(technologies := p.technologies + [t]);
    assert q.technologies[|p.technologies|] == t;
    assert forall i :: 0 <= i < |p.technologies| ==> q.technologies[i] == p.technologies[i];
  }

  /** The web and mobile categories compare technology names exactly: "React Native"
      makes a project mobile but not web, although it contains "React". */
  lemma CategoryMatchIsExact(p: Project)
    requires p.technologies == ["React Native"]
    ensures MatchesCategory(p, Mobile) && !MatchesCategory(p, Web)
    ensures IncludesIgnoringCase(p.technologies[0], "React")
  {
    assert p.technologies[0] in MobileTechnologies;
    assert Lower("React Native")[..5] == Lower("React");
    ContainsIffOccurs(Lower("React Native"), Lower("React"));
    assert OccursAt(Lower("React Native"), Lower("React"), 0);
  }

  /** Number of featured projects: `filter((p) => p.featured).length`. */
  function CountFeatured(ps: seq<Project>): (n: nat)
    ensures n <= |ps|
    ensures n == 0 <==> forall i :: 0 <= i < |ps| ==> !ps[i].featured
    decreases |ps|
  {
    if |ps| == 0 then 0
    else (if ps[0].featured then 1 else 0) + CountFeatured(ps[1..])
  }

  /** The counts the header shows: projects shown and featured among them. */
  function Counts(ps: seq<Project>, term: string, c: Category): (r: (nat, nat))
    ensures r.1 <= r.0 <= |ps|
    ensures c == Featured ==> r.1 == r.0
  {
    var shown := FilterProjects(ps, term, c);
    FeaturedFilterAllFeatured(ps, term);
    (|shown|, CountFeatured(shown))
  }

  lemma {:induction false} FeaturedFilterAllFeatured(ps: seq<Project>, term: string)
    ensures CountFeatured(FilterProjects(ps, term, Featured)) == |FilterProjects(ps, term, Featured)|
    decreases |ps|
  {
    if |ps| > 0 {
      FeaturedFilterAllFeatured(ps[1..], term);
    }
  }

  /** A card's chip row: the first `limit` technologies and, when more exist, a
      badge counting the rest ("+n more" on a grid card with limit 3, "+n" on a
      mobile card with limit 4). */
  datatype ChipRow = ChipRow(shown: seq<string>, badge: Option<nat>)

  function Chips(techs: seq<string>, limit: nat): (r: ChipRow)
    ensures r.shown <= techs
    ensures |r.shown| == if |techs| < limit then |techs| else limit
    ensures r.badge.Some? <==> |techs| > limit
    ensures r.badge.Some? ==> r.badge.value > 0
    ensures |r.shown| + r.badge.GetOr(0) == |techs|
  {
    var shown := if |techs| < limit then techs else techs[..limit];
    ChipRow(shown, if |techs| > limit then Some(|techs| - limit) else None)
  }

  /** The grid card shows three chips, the mobile card four. */
  const GridChipLimit: nat := 3
  const MobileChipLimit: nat := 4
}
