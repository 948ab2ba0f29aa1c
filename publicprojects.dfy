/**
  The public portfolio of src/pages/Projects.tsx: the loaded projects, the
  status filter buttons and the colour of each status badge.
 */
module PublicProjects {
  import opened Common
  import opened ProjectStore

  const LoadFailed := "Failed to load projects"

  /** `filteredProjects`: "all" shows the loaded list, any other value the projects with that status. */
  function VisibleProjects(ps: seq<ProjectDoc>, filter: string): seq<ProjectDoc>
  {
    if filter == "all" then ps else Filter(ps, (d: ProjectDoc) => d.data.status == filter)
  }

  /** `getStatusColor(status)`: the badge class of a status. */
  function StatusColor(status: string): string
  {
    match status
    case "completed" => "bg-green-500"
    case "ongoing" => "bg-blue-500"
    case "upcoming" => "bg-yellow-500"
    case _ => "bg-gray-500"
  }

  class PortfolioPage {
    var filter: string
    var projects: seq<ProjectDoc>
    var loading: bool
    var error: Option<string>

    constructor ()
      ensures filter == "all" && projects == [] && loading && error.None?
    {
      filter := "all";
      projects := [];
      loading := true;
      error := None;
    }

    /**
      `loadProjects()`: a successful read replaces the list and clears the
      error; a failed one empties the list and sets the error message.
     */
    method LoadProjects(read: Result<seq<ProjectDoc>>)
      modifies this
      ensures !loading && filter == old(filter)
      ensures read.Ok? ==> projects == read.value && error.None?
      ensures read.Err? ==> projects == [] && error == Some(LoadFailed)
    {
      loading := true;
      error := None;
      if read.Ok? {
        projects := read.value;
      } else {
        error := Some(LoadFailed);
        projects := [];
      }
      loading := false;
    }
  }

  /** The filter "all" shows every loaded project. */
  lemma VisibleAll(ps: seq<ProjectDoc>)
    ensures VisibleProjects(ps, "all") == ps
  {
  }

  /**
    Any other filter shows exactly the loaded projects with that status, in
    their loaded order.
   */
  lemma VisibleByStatus(ps: seq<ProjectDoc>, filter: string, d: ProjectDoc)
    requires filter != "all"
    ensures d in VisibleProjects(ps, filter) <==> d in ps && d.data.status == filter
    ensures IsSubsequence(VisibleProjects(ps, filter), ps)
  {
    FilterMember(ps, (d: ProjectDoc) => d.data.status == filter, d);
  }

  /** A failed load leaves nothing to show, whatever the filter. */
  lemma FailedLoadShowsNothing(filter: string)
    ensures VisibleProjects([], filter) == []
  {
  }

  /**
    The three known statuses get three different colours; every other
    status, "on-hold" included, is gray.
   */
  lemma StatusColorMapping(status: string)
    ensures StatusColor("completed") == "bg-green-500"
    ensures StatusColor("ongoing") == "bg-blue-500"
    ensures StatusColor("upcoming") == "bg-yellow-500"
    ensures StatusColor("on-hold") == "bg-gray-500"
    ensures StatusColor(status) == "bg-gray-500" <==> status !in {"completed", "ongoing", "upcoming"}
  {
  }
}
