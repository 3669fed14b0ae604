/** The project list's search (src/pages/ProjectsPage.tsx:27-49, 76). */
module ProjectsPage {
  import opened Wrappers
  import opened Seqs
  import opened Text
  import opened Search

  datatype Project = Project(id: string, name: string, description: string, owner: string,
                             technologies: seq<string>, created: string)

  /** The one project the page starts with. */
  const SampleProjects := [
    Project("1", "DevNet", "Профессиональная сеть для разработчиков", "1",
            ["React", "TypeScript", "Tailwind CSS"], "2025-04-09T15:00:00")
  ]

  /** A project matches by name, by description or by any technology. */
  predicate ProjectMatches(p: Project, query: string)
  {
    Matches(p.name, query) || Matches(p.description, query) || AnyMatches(p.technologies, query)
  }

  /** The projects listed for the query; a blank query keeps every project. */
  function Results(projects: seq<Project>, query: string): (r: seq<Project>)
    ensures IsBlank(query) ==> r == projects
    ensures IsSubsequence(r, projects)
    ensures forall p :: p in r <==> p in projects && (IsBlank(query) || ProjectMatches(p, query))
  {
    var r := Filter(projects, (p: Project) => IsBlank(query) || ProjectMatches(p, query));
    assert IsBlank(query) ==> r == projects by {
      if IsBlank(query) {
        FilterKeepsAll(projects, (p: Project) => IsBlank(query) || ProjectMatches(p, query));
      }
    }
    r
  }

  /** What a signed-in visitor sees: the matching projects, the button to
      create one, and the "no projects found" note when nothing matches. */
  datatype Listing = Listing(projects: seq<Project>, canCreate: bool, noneFound: bool)

  /** The grid and the create button are shown to signed-in users only. */
  function Page(isAuthenticated: bool, projects: seq<Project>, query: string): (v: Option<Listing>)
    ensures v.Some? <==> isAuthenticated
    ensures v.Some? ==> v.value.projects == Results(projects, query) && v.value.canCreate
    ensures v.Some? ==> (v.value.noneFound <==> forall p :: p in projects ==> !IsBlank(query) && !ProjectMatches(p, query))
  {
    if isAuthenticated then
      var r := Results(projects, query);
      Some(Listing(r, true, |r| == 0))
    else None
  }

  /** Searching the search results again with the same query changes
      nothing: every listed project already matches. */
  lemma ResultsIdempotent(projects: seq<Project>, query: string)
    ensures Results(Results(projects, query), query) == Results(projects, query)
  {
    var r := Results(projects, query);
    FilterKeepsAll(r, (p: Project) => IsBlank(query) || ProjectMatches(p, query));
  }

  /** Searching for a technology finds the sample project. */
  lemma SampleFoundByTechnology()
    ensures Results(SampleProjects, "react") == SampleProjects
  {
    var p := SampleProjects[0];
    assert Lower("React") == "react";
    assert IsPrefix("react", Lower("React")[0..]);
    assert Matches(p.technologies[0], "react");
    assert !IsBlank("react") by { assert !IsSpace("react"[0]); }
    assert ProjectMatches(p, "react");
    assert Filter(SampleProjects, (q: Project) => IsBlank("react") || ProjectMatches(q, "react")) == [p];
  }
}
