/** The project list of `src/pages/Projects.tsx`: the status filter, the message shown when
    it leaves nothing, and the navigation a project card starts. */
module Projects {
  import opened Types
  import opened Seqs
  import Routes
  import Fragment

  /** The three filter buttons: `'all' | 'completed' | 'ongoing'`. */
  datatype ProjectFilter = All | CompletedOnly | OngoingOnly

  /** The test of `filteredProjects`. */
  predicate Keeps(filter: ProjectFilter, project: Project)
  {
    match filter
    case All => true
    case CompletedOnly => project.status == Completed
    case OngoingOnly => project.status == Ongoing
  }

  /** `filteredProjects` */
  function FilteredProjects(projects: seq<Project>, filter: ProjectFilter): seq<Project>
  {
    Filter(projects, p => Keeps(filter, p))
  }

  /** `all` shows every project in its order; `completed` and `ongoing` show exactly the
      projects of that status, in their order. */
  lemma FilterSpec(projects: seq<Project>, filter: ProjectFilter, project: Project)
    ensures FilteredProjects(projects, All) == projects
    ensures filter != All ==>
      (project in FilteredProjects(projects, filter) <==> project in projects && Keeps(filter, project))
    ensures IsSubsequence(FilteredProjects(projects, filter), projects)
  {
    FilterKeepsAll(projects, p => Keeps(All, p));
    FilterMembers(projects, p => Keeps(filter, p), project);
    FilterIsSubsequence(projects, p => Keeps(filter, p));
  }

  /** The `completed` and `ongoing` lists split the full list between them, since a project
      has one of the two statuses. */
  lemma CompletedAndOngoingPartition(projects: seq<Project>)
    ensures multiset(FilteredProjects(projects, CompletedOnly)) + multiset(FilteredProjects(projects, OngoingOnly))
      == multiset(projects)
  {
    FilterSplit(projects, p => Keeps(CompletedOnly, p));
    forall i | 0 <= i < |projects|
      ensures Not((p: Project) => Keeps(CompletedOnly, p))(projects[i]) == Keeps(OngoingOnly, projects[i])
    {
    }
    FilterCongruent(projects, Not((p: Project) => Keeps(CompletedOnly, p)), p => Keeps(OngoingOnly, p));
  }

  /** "No projects found in this category." is shown when the filtered list is empty. */
  predicate ShowsEmptyMessage(projects: seq<Project>, filter: ProjectFilter)
  {
    |FilteredProjects(projects, filter)| == 0
  }

  /** The message appears exactly when no loaded project passes the filter: for `all`, when
      nothing is loaded. */
  lemma EmptyMessageExactly(projects: seq<Project>, filter: ProjectFilter)
    ensures ShowsEmptyMessage(projects, filter) <==> forall i :: 0 <= i < |projects| ==> !Keeps(filter, projects[i])
    ensures ShowsEmptyMessage(projects, All) <==> projects == []
  {
    FilterKeepsAll(projects, p => Keeps(All, p));
    if forall i :: 0 <= i < |projects| ==> !Keeps(filter, projects[i]) {
      FilterNone(projects, p => Keeps(filter, p));
    } else {
      var i :| 0 <= i < |projects| && Keeps(filter, projects[i]);
      FilterMembers(projects, p => Keeps(filter, p), projects[i]);
    }
  }

  /** `handleProjectClick`: the hash the router is sent to. */
  function ProjectClickHash(project: Project): string
  {
    Routes.NavigateHash("project", Some(project.slug))
  }

  /** A card whose slug has no slash opens the project page for the slug as the browser
      reads it back from the hash: the card's own slug exactly when it holds no character
      the browser percent-encodes, and otherwise the encoded slug, such as `sky%20villa`. */
  lemma ProjectClickOpensProject(project: Project)
    requires project.slug != "" && '/' !in project.slug && Fragment.EncodeFragment(project.slug) != ""
    ensures var e := Fragment.EncodeFragment(project.slug);
      && Routes.ParseHash(Fragment.EncodeFragment(ProjectClickHash(project))) == Routes.Route("project", Some(e))
      && Routes.RenderPage("project", Some(e)) == Routes.ProjectDetailScreen(e)
      && (e == project.slug <==> Fragment.FragmentSafe(project.slug))
  {
    Routes.NavigateEncodesSlug(project.slug);
  }
}
