/**
  The admin project list of src/pages/admin/Projects.tsx: the loaded
  projects, the search box and the status select, and the list they leave
  on screen.
 */
module AdminProjects {
  import opened Common
  import opened ProjectStore

  const LoadFailed := "Failed to load projects"

  /** The lowercased term occurs in the lowercased title, location or description. */
  predicate MatchesSearch(p: Project, term: string)
  {
    || Includes(Lower(p.title), Lower(term))
    || Includes(Lower(p.location), Lower(term))
    || Includes(Lower(p.description), Lower(term))
  }

  /** The callbacks the two `filter` calls pass. */
  function SearchKeep(term: string): ProjectDoc -> bool
  {
    (d: ProjectDoc) => MatchesSearch(d.data, term)
  }

  function StatusKeep(status: string): ProjectDoc -> bool
  {
    (d: ProjectDoc) => d.data.status == status
  }

  /** The search step: an empty term is falsy and filters nothing. */
  function SearchFiltered(ps: seq<ProjectDoc>, term: string): seq<ProjectDoc>
  {
    if term == "" then ps else Filter(ps, SearchKeep(term))
  }

  /** The status step: "all" filters nothing. */
  function StatusFiltered(ps: seq<ProjectDoc>, status: string): seq<ProjectDoc>
  {
    if status == "all" then ps else Filter(ps, StatusKeep(status))
  }

  /** What the list shows: the search applied first, then the status. */
  function Filtered(ps: seq<ProjectDoc>, term: string, status: string): seq<ProjectDoc>
  {
    StatusFiltered(SearchFiltered(ps, term), status)
  }

  /** A project passes both filters of the page. */
  predicate Shown(d: ProjectDoc, term: string, status: string)
  {
    (term == "" || MatchesSearch(d.data, term)) && (status == "all" || d.data.status == status)
  }

  class AdminProjectsPage {
    var projects: seq<ProjectDoc>
    var filteredProjects: seq<ProjectDoc>
    var searchTerm: string
    var statusFilter: string
    var loading: bool

    constructor ()
      ensures projects == [] && filteredProjects == [] && searchTerm == "" && statusFilter == "all" && loading
    {
      projects := [];
      filteredProjects := [];
      searchTerm := "";
      statusFilter := "all";
      loading := true;
    }

    /**
      `loadProjects()`: a successful read replaces the list; a failed one
      keeps the old list and yields the toast's message.
     */
    method LoadProjects(read: Result<seq<ProjectDoc>>) returns (toast: Option<string>)
      modifies this
      ensures !loading
      ensures read.Ok? ==> projects == read.value && toast.None?
      ensures read.Err? ==> projects == old(projects) && toast == Some(OrElse(read.msg, LoadFailed))
      ensures filteredProjects == old(filteredProjects) && searchTerm == old(searchTerm) && statusFilter == old(statusFilter)
    {
      loading := true;
      if read.Ok? {
        projects := read.value;
        toast := None;
      } else {
        toast := Some(OrElse(read.msg, LoadFailed));
      }
      loading := false;
    }

    /** `filterProjects()`: the list on screen becomes the loaded list under both filters. */
    method FilterProjects()
      modifies this
      ensures filteredProjects == Filtered(projects, searchTerm, statusFilter)
      ensures projects == old(projects) && searchTerm == old(searchTerm) && statusFilter == old(statusFilter)
      ensures loading == old(loading)
    {
      var filtered := projects;
      if searchTerm != "" {
        filtered := Filter(filtered, SearchKeep(searchTerm));
      }
      if statusFilter != "all" {
        filtered := Filter(filtered, StatusKeep(statusFilter));
      }
      filteredProjects := filtered;
    }
  }

  /** An empty search with status "all" shows exactly the loaded list. */
  lemma FilteredIdentity(ps: seq<ProjectDoc>)
    ensures Filtered(ps, "", "all") == ps
  {
  }

  /** The list shown keeps some of the loaded projects, in their loaded order. */
  lemma FilteredIsSubsequence(ps: seq<ProjectDoc>, term: string, status: string)
    ensures IsSubsequence(Filtered(ps, term, status), ps)
  {
    var searched := SearchFiltered(ps, term);
    if term == "" {
      SubsequenceReflexive(ps);
    }
    if status == "all" {
      SubsequenceReflexive(searched);
    }
    SubsequenceTransitive(Filtered(ps, term, status), searched, ps);
  }

  /**
    A loaded project is shown exactly when the search term (if any) occurs in
    its title, location or description, ignoring case, and its status is the
    selected one (unless "all" is selected).
   */
  lemma FilteredMembers(ps: seq<ProjectDoc>, term: string, status: string, d: ProjectDoc)
    ensures d in Filtered(ps, term, status) <==> d in ps && Shown(d, term, status)
  {
    var searched := SearchFiltered(ps, term);
    if term != "" {
      FilterMember(ps, SearchKeep(term), d);
    }
    if status != "all" {
      FilterMember(searched, StatusKeep(status), d);
    }
  }

  /** With a status selected, every project shown has exactly that status. */
  lemma FilteredStatusOnly(ps: seq<ProjectDoc>, term: string, status: string)
    requires status != "all"
    ensures forall d :: d in Filtered(ps, term, status) ==> d.data.status == status
  {
    forall d | d in Filtered(ps, term, status)
      ensures d.data.status == status
    {
      FilteredMembers(ps, term, status, d);
    }
  }
}
