/**
  The project editor of src/pages/admin/ProjectForm.tsx: its form state, the
  loading of an existing project into the form, the two normalising input
  handlers, and the submission that creates or updates the project.
 */
module ProjectForm {
  import opened Common
  import opened JsNumber
  import opened ProjectStore

  datatype FormData = FormData(
    name: string,
    title: string,
    description: string,
    location: string,
    category: string,
    status: string,
    area: string,
    squareFeet: int,
    timeline: string,
    progress: int,
    percentage: int,
    images: seq<string>)

  datatype SubmitOutcome =
    | Ignored
    | Rejected(message: string)
    | Saved(navigateTo: string)
    | Failed(message: string)

  const ProjectsPath := "/admin/projects"
  const MissingFields := "Please fill in all required fields"

  /** The form of a new project. */
  const InitialForm := FormData("", "", "", "", "", "upcoming", "", 0, "", 0, 0, [])

  /** `x || y` on numbers: 0 is falsy. */
  function NumberOr(x: int, y: int): int
  {
    if x != 0 then x else y
  }

  /** The form filled from a loaded project, with the fallbacks of `loadProject`. */
  function FormFromProject(p: Project): (f: FormData)
    ensures f.name == OrElse(p.name, p.title)
    ensures f.squareFeet == NumberOr(p.squareFeet, ParseIntOrZero(p.area))
    ensures f.percentage == NumberOr(p.percentage, p.progress)
    ensures f.progress == p.progress && f.images == p.images
    ensures f.title == p.title && f.description == p.description && f.location == p.location
  {
    FormData(
      OrElse(p.name, p.title), p.title, p.description, p.location, p.category, p.status, p.area,
      NumberOr(p.squareFeet, NumberOr(ParseIntOrZero(p.area), 0)), p.timeline, NumberOr(p.progress, 0),
      NumberOr(p.percentage, NumberOr(p.progress, 0)), p.images)
  }

  /** Title, description and location must all be non-empty. */
  predicate Complete(f: FormData)
  {
    f.title != "" && f.description != "" && f.location != ""
  }

  /** `projectData` as createProject receives it. */
  function CreateData(f: FormData): (input: ProjectInput)
    ensures input.name == OrElse(f.name, f.title)
    ensures input.percentage == Some(NumberOr(f.percentage, f.progress)) && input.progress == Some(f.progress)
  {
    ProjectInput(
      OrElse(f.name, f.title), f.title, f.description, f.location, f.category, f.status, f.area,
      Some(f.squareFeet), f.timeline, Some(f.images), Some(f.progress), Some(NumberOr(f.percentage, f.progress)))
  }

  /** The same `projectData` as updateProject receives it: every field is carried. */
  function UpdateData(f: FormData): (patch: ProjectPatch)
    ensures patch.name == Some(OrElse(f.name, f.title)) && patch.progress == Some(f.progress)
  {
    ProjectPatch(
      Some(OrElse(f.name, f.title)), Some(f.title), Some(f.description), Some(f.location), Some(f.category),
      Some(f.status), Some(f.area), Some(f.squareFeet), Some(f.timeline), Some(f.images), Some(f.progress),
      Some(NumberOr(f.percentage, f.progress)))
  }

  class ProjectFormPage {
    /** The `id` route parameter; present means edit mode. */
    const editId: Option<Id>
    var form: FormData
    var loading: bool
    var saving: bool

    constructor (editId: Option<Id>)
      ensures this.editId == editId && form == InitialForm
      ensures loading == editId.Some? && !saving
    {
      this.editId := editId;
      form := InitialForm;
      loading := editId.Some?;
      saving := false;
    }

    /**
      `loadProject(id)`: a found project fills the form; a missing project or
      a failed read leaves the form and sends the user back to the list.
     */
    method LoadProject(store: Store, readOk: bool) returns (navigateTo: Option<string>)
      requires editId.Some?
      modifies this
      ensures !loading && saving == old(saving)
      ensures readOk && editId.value in store.projects ==>
        navigateTo.None? && form == FormFromProject(store.projects[editId.value])
      ensures !(readOk && editId.value in store.projects) ==> navigateTo == Some(ProjectsPath) && form == old(form)
    {
      loading := true;
      var found := store.GetProject(editId.value);
      if readOk && found.Some? {
        form := FormFromProject(found.value.data);
        navigateTo := None;
      } else {
        navigateTo := Some(ProjectsPath);
      }
      loading := false;
    }

    /** The area input: the text is kept and squareFeet becomes `parseInt(text) || 0`. */
    method OnAreaChange(value: string)
      modifies this
      ensures form == old(form).(area := value, squareFeet := ParseIntOrZero(value))
      ensures loading == old(loading) && saving == old(saving)
    {
      form := form.(area := value, squareFeet := ParseIntOrZero(value));
    }

    /** The progress input sets progress and percentage alike to `parseInt(text) || 0`. */
    method OnProgressChange(value: string)
      modifies this
      ensures form == old(form).(progress := ParseIntOrZero(value), percentage := ParseIntOrZero(value))
      ensures form.percentage == form.progress
      ensures loading == old(loading) && saving == old(saving)
    {
      var v := ParseIntOrZero(value);
      form := form.(progress := v, percentage := v);
    }

    /**
      `handleSubmit`: nothing without a signed-in user; nothing but a message
      when a required field is empty; otherwise an update of the edited
      project, or a new project, made by the user.
     */
    method HandleSubmit(userUid: Option<string>, store: Store) returns (outcome: SubmitOutcome)
      requires store.Valid()
      modifies this, store
      ensures store.Valid() && form == old(form)
      ensures saving == (if userUid.Some? && Complete(form) then false else old(saving))
      ensures userUid.None? ==> outcome == Ignored && store.projects == old(store.projects)
      ensures userUid.Some? && !Complete(form) ==> outcome == Rejected(MissingFields) && store.projects == old(store.projects)
      ensures userUid.Some? && Complete(form) && editId.None? ==>
        && outcome == Saved(ProjectsPath)
        && exists id: Id :: id !in old(store.projects) &&
             store.projects == old(store.projects)[id := NewProject(CreateData(form), userUid.value, old(store.now))]
      ensures userUid.Some? && Complete(form) && editId.Some? && editId.value in old(store.projects) ==>
        && outcome == Saved(ProjectsPath)
        && store.projects == old(store.projects)[editId.value :=
             PatchedProject(old(store.projects)[editId.value], UpdateData(form), userUid.value, old(store.now))]
      ensures userUid.Some? && Complete(form) && editId.Some? && editId.value !in old(store.projects) ==>
        outcome == Failed(OrElse(ProjectStore.NoDocument, "Failed to save project")) && store.projects == old(store.projects)
      ensures store.tasks == old(store.tasks)
    {
      if userUid.None? {
        return Ignored;
      }
      if !Complete(form) {
        return Rejected(MissingFields);
      }
      saving := true;
      if editId.Some? {
        var r := store.UpdateProject(editId.value, UpdateData(form), userUid.value);
        outcome := if r.Ok? then Saved(ProjectsPath) else Failed(OrElse(r.msg, "Failed to save project"));
      } else {
        var id := store.CreateProject(CreateData(form), userUid.value);
        outcome := Saved(ProjectsPath);
      }
      saving := false;
    }
  }

  /** A progress edit always leaves the two numbers equal, so the submitted percentage equals progress. */
  lemma ProgressEditSubmitsEqualNumbers(f: FormData, value: string)
    ensures var g := f.(progress := ParseIntOrZero(value), percentage := ParseIntOrZero(value));
      CreateData(g).percentage == CreateData(g).progress == Some(ParseIntOrZero(value))
  {
  }

  /**
    Saving through the form always sends progress, so the stored percentage
    follows progress on every edit, whatever the percentage field said.
   */
  lemma FormUpdateSyncsPercentage(p: Project, f: FormData, userId: string, t: Timestamp)
    ensures PatchedProject(p, UpdateData(f), userId, t).percentage == f.progress
  {
  }

  /**
    Loading a project and saving it unchanged rewrites nothing but the stamp and
    the author, provided its name, squareFeet and percentage need no fallback.
   */
  lemma LoadThenSaveKeepsProject(p: Project, userId: string, t: Timestamp)
    requires p.name != "" && p.squareFeet != 0 && p.percentage == p.progress
    ensures PatchedProject(p, UpdateData(FormFromProject(p)), userId, t) == p.(updatedAt := t, updatedBy := userId)
  {
  }

  /** A submitted name is never empty when the title is not. */
  lemma SubmittedNameFallsBackToTitle(f: FormData)
    requires Complete(f)
    ensures CreateData(f).name != ""
    ensures f.name == "" ==> CreateData(f).name == f.title
  {
  }
}
