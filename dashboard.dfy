/**
 * The project list controller of the dashboard page: the in-memory project
 * list, the per-brand pending invoices and exported-invoice history it
 * shares with the invoice manager, the submission form and the price and
 * confirmation dialogs. Every backend call is an `ok` flag supplied by the
 * caller.
 */
module ProjectDashboard {
  import opened Collections
  import opened Text
  import opened Domain

  // ---------------------------------------------------------------------
  // Derived views

  const HighPriorityColor := "bg-red-100 text-red-800"
  const MediumPriorityColor := "bg-yellow-100 text-yellow-800"
  const LowPriorityColor := "bg-blue-100 text-blue-800"

  /** Priorities 1-3 are high, 4-7 medium, everything else low. */
  function PriorityColor(priority: int): (r: string)
    ensures r == HighPriorityColor <==> priority <= 3
    ensures r == MediumPriorityColor <==> 3 < priority <= 7
    ensures r == LowPriorityColor <==> 7 < priority
  {
    if priority <= 3 then HighPriorityColor
    else if priority <= 7 then MediumPriorityColor
    else LowPriorityColor
  }

  function ProjectsByStatus(projects: seq<Project>, status: Status): (r: seq<Project>)
    ensures forall p :: p in r ==> p in projects && p.status == status
  {
    Filter(projects, (p: Project) => p.status == status)
  }

  /** Exactly the listed projects with that status are returned, in list order. */
  lemma ProjectsByStatusExactly(projects: seq<Project>, status: Status)
    ensures forall p :: p in ProjectsByStatus(projects, status) <==> p in projects && p.status == status
    ensures (forall i :: 0 <= i < |projects| ==> projects[i].status == status) ==> ProjectsByStatus(projects, status) == projects
  {
    forall p | p in projects && p.status == status
      ensures p in ProjectsByStatus(projects, status)
    {
      FilterKeeps(projects, (p: Project) => p.status == status, p);
    }
    if forall i :: 0 <= i < |projects| ==> projects[i].status == status {
      FilterKeepsAll(projects, (p: Project) => p.status == status);
    }
  }

  /** The list shown on the board: every project that is not Completed. */
  function ActiveProjects(projects: seq<Project>): (r: seq<Project>)
    ensures forall p :: p in r ==> p in projects && p.status != Completed
  {
    Filter(projects, (p: Project) => p.status != Completed)
  }

  /**
   * The board holds exactly the non-Completed projects, and together with
   * the Completed ones it accounts for every project once.
   */
  lemma {:induction false} ActiveAndCompletedPartition(projects: seq<Project>)
    ensures forall p :: p in ActiveProjects(projects) <==> p in projects && p.status != Completed
    ensures |ActiveProjects(projects)| + |ProjectsByStatus(projects, Completed)| == |projects|
  {
    forall p | p in projects && p.status != Completed
      ensures p in ActiveProjects(projects)
    {
      FilterKeeps(projects, (p: Project) => p.status != Completed, p);
    }
    if projects != [] {
      ActiveAndCompletedPartition(projects[1..]);
    }
  }

  /** Floor division by a positive divisor leaves a remainder below the divisor. */
  lemma DivBounds(a: nat, d: nat)
    requires d > 0
    ensures (a / d) * d <= a < (a / d) * d + d
  {
  }

  /** Scaling both sides of q >= m by the same natural keeps the order. */
  lemma ScaleAtLeast(q: nat, m: nat, d: nat)
    requires q >= m
    ensures q * d >= m * d
  {
  }

  /** Math.round(100 * completed / total) for 0 <= completed <= total, total > 0. */
  function RoundedPercent(completed: nat, total: nat): (r: nat)
    requires 0 < total && completed <= total
    ensures r <= 100
    ensures r * (2 * total) - total <= 200 * completed < r * (2 * total) + total
  {
    var d := 2 * total;
    var q := (200 * completed + total) / d;
    DivBounds(200 * completed + total, d);
    assert q <= 100 by {
      if q > 100 {
        ScaleAtLeast(q, 101, d);
      }
    }
    q
  }

  /** The share of Completed projects, 0 for an empty list. */
  function CompletionPercentage(projects: seq<Project>): (r: nat)
    ensures r <= 100
    ensures projects == [] ==> r == 0
    ensures projects != [] ==>
      var c := |ProjectsByStatus(projects, Completed)|;
      r * (2 * |projects|) - |projects| <= 200 * c < r * (2 * |projects|) + |projects|
  {
    if |projects| == 0 then 0
    else RoundedPercent(|ProjectsByStatus(projects, Completed)|, |projects|)
  }

  // ---------------------------------------------------------------------
  // Drag reorder

  datatype PriorityUpdate = PriorityUpdate(id: Id, priority: int)

  /** `projects.findIndex((item) => item.id === id)`, None standing for -1. */
  function IndexOfId(projects: seq<Project>, id: Id): (r: Option<nat>)
    ensures r.Some? ==> r.value < |projects| && projects[r.value].id == id
    ensures r.Some? ==> forall j :: 0 <= j < r.value ==> projects[j].id != id
    ensures r.None? ==> forall j :: 0 <= j < |projects| ==> projects[j].id != id
  {
    FirstIndexWhere(projects, (p: Project) => p.id == id)
  }

  /**
   * The target index handed to arrayMove: the drop target's index, or, when
   * there is no drop target or it is not in the list, findIndex's -1, which
   * arrayMove reads as the last position.
   */
  function DropIndex(projects: seq<Project>, over: Option<Id>): (to: nat)
    requires |projects| > 0
    ensures to < |projects|
    ensures over.None? || IndexOfId(projects, over.value).None? ==> to == |projects| - 1
    ensures over.Some? && IndexOfId(projects, over.value).Some? ==>
      to == IndexOfId(projects, over.value).value && projects[to].id == over.value
  {
    match over
    case None => |projects| - 1
    case Some(o) =>
      match IndexOfId(projects, o)
      case None => |projects| - 1
      case Some(k) => k
  }

  /**
   * The loop that writes the new priorities: one write per project, in
   * display order, giving position + 1 to the project at that position.
   */
  method PriorityWrites(reordered: seq<Project>) returns (updates: seq<PriorityUpdate>)
    ensures |updates| == |reordered|
    ensures forall i :: 0 <= i < |updates| ==>
      updates[i].id == reordered[i].id && updates[i].priority == i + 1
  {
    updates := [];
    for i := 0 to |reordered|
      invariant |updates| == i
      invariant forall j :: 0 <= j < i ==>
        updates[j].id == reordered[j].id && updates[j].priority == j + 1
    {
      updates := updates + [PriorityUpdate(reordered[i].id, i + 1)];
    }
  }

  /** The priorities 1..n. */
  function Positions(n: nat): (r: set<int>)
    ensures forall k :: k in r <==> 1 <= k <= n
  {
    if n == 0 then {} else Positions(n - 1) + {n}
  }

  /** Priorities numbered by position are exactly 1..N, without gaps or duplicates. */
  lemma PrioritiesDense(updates: seq<PriorityUpdate>)
    requires forall i :: 0 <= i < |updates| ==> updates[i].priority == i + 1
    ensures (set u | u in updates :: u.priority) == Positions(|updates|)
    ensures forall i, j :: 0 <= i < |updates| && 0 <= j < |updates| && i != j ==>
      updates[i].priority != updates[j].priority
  {
    var used := set u | u in updates :: u.priority;
    forall k | k in Positions(|updates|)
      ensures k in used
    {
      assert updates[k - 1] in updates;
    }
    forall k | k in used
      ensures k in Positions(|updates|)
    {
      var u :| u in updates && u.priority == k;
      var i :| 0 <= i < |updates| && updates[i] == u;
    }
  }

  // ---------------------------------------------------------------------
  // The submission form

  datatype FormData = FormData(
    title: string,
    brand: Option<Brand>,
    kind: Option<ProjectType>,
    description: string,
    deadline: Option<int>,
    priority: int,
    files: seq<ProjectFile>)

  function EmptyForm(priority: int): FormData {
    FormData("", None, None, "", None, priority, [])
  }

  /** The record the form writes to the projects table. */
  datatype ProjectData = ProjectData(
    title: string,
    brand: Brand,
    kind: ProjectType,
    description: string,
    deadline: int,
    priority: int,
    status: Status,
    files: seq<ProjectFile>)

  /** Every required field is filled in; a priority of 0 counts as missing. */
  predicate FormComplete(f: FormData) {
    && f.title != ""
    && f.brand.Some?
    && f.kind.Some?
    && f.description != ""
    && f.deadline.Some?
    && f.priority != 0
  }

  /**
   * What a submission writes: nothing for an incomplete form; otherwise the
   * form's fields with status Pending for a new project and the edited
   * project's own status for an edit.
   */
  function SubmissionData(f: FormData, editing: Option<Project>): (r: Option<ProjectData>)
    ensures r.Some? <==> FormComplete(f)
    ensures r.Some? ==> r.value.status == (if editing.Some? then editing.value.status else Pending)
    ensures r.Some? ==>
      && r.value.title == f.title && Some(r.value.brand) == f.brand && Some(r.value.kind) == f.kind
      && r.value.description == f.description && Some(r.value.deadline) == f.deadline
      && r.value.priority == f.priority && r.value.files == f.files
  {
    if !FormComplete(f) then None
    else
      var status := match editing case Some(p) => p.status case None => Pending;
      Some(ProjectData(f.title, f.brand.value, f.kind.value, f.description, f.deadline.value, f.priority, status, f.files))
  }

  const MaxFileSize := 10 * 1024 * 1024

  /** The selected files that are not larger than 10 MB, in order. */
  function AcceptedFiles(files: seq<ProjectFile>): (r: seq<ProjectFile>)
    ensures forall f :: f in r ==> f in files && f.size <= MaxFileSize
  {
    Filter(files, (f: ProjectFile) => f.size <= MaxFileSize)
  }

  lemma AcceptedFilesExactly(files: seq<ProjectFile>)
    ensures forall f :: f in AcceptedFiles(files) <==> f in files && f.size <= MaxFileSize
    ensures (forall i :: 0 <= i < |files| ==> files[i].size <= MaxFileSize) ==> AcceptedFiles(files) == files
  {
    forall f | f in files && f.size <= MaxFileSize
      ensures f in AcceptedFiles(files)
    {
      FilterKeeps(files, (f: ProjectFile) => f.size <= MaxFileSize, f);
    }
    if forall i :: 0 <= i < |files| ==> files[i].size <= MaxFileSize {
      FilterKeepsAll(files, (f: ProjectFile) => f.size <= MaxFileSize);
    }
  }

  function WithoutFile(files: seq<ProjectFile>, fileId: Id): (r: seq<ProjectFile>)
    ensures forall f :: f in r ==> f in files && f.id != fileId
  {
    Filter(files, (f: ProjectFile) => f.id != fileId)
  }

  lemma WithoutFileExactly(files: seq<ProjectFile>, fileId: Id)
    ensures forall f :: f in WithoutFile(files, fileId) <==> f in files && f.id != fileId
  {
    forall f | f in files && f.id != fileId
      ensures f in WithoutFile(files, fileId)
    {
      FilterKeeps(files, (f: ProjectFile) => f.id != fileId, f);
    }
  }

  // ---------------------------------------------------------------------
  // Status changes and the price gate

  /** `projects.map((p) => (p.id === id ? { ...p, status } : p))`: only the status of the matching id changes. */
  function SetStatus(projects: seq<Project>, id: Id, status: Status): (r: seq<Project>)
    ensures |r| == |projects|
    ensures forall i :: 0 <= i < |r| ==> r[i].(status := projects[i].status) == projects[i]
    ensures forall i :: 0 <= i < |r| ==> r[i].status == (if projects[i].id == id then status else projects[i].status)
  {
    seq(|projects|, i requires 0 <= i < |projects| =>
      if projects[i].id == id then projects[i].(status := status) else projects[i])
  }

  /** `Number.parseFloat(price)` is a number and above zero. */
  predicate ValidPrice(price: Option<int>) {
    price.Some? && price.value > 0
  }

  /** The priced snapshot appended to the brand's pending invoice. */
  function Snapshot(p: Project, price: int, now: int): (r: InvoiceProject)
    ensures r.project == p.(status := Completed)
    ensures r.project.id == p.id && r.project.brand == p.brand && r.project.status == Completed
    ensures PriceOrZero(r) == price && r.addedToInvoiceAt == Some(now)
  {
    InvoiceProject(p.(status := Completed), Some(price), Some(now))
  }

  // ---------------------------------------------------------------------
  // Deleting one project through the confirmation dialog

  /** The dialog caption handleDelete opens with. */
  function DeleteLabel(title: string): string {
    "Delete \"" + title + "\""
  }

  /** The caption handleDeleteInvoiceProject opens with. */
  function RemovalLabel(title: string, brand: string): string {
    "Remove \"" + title + "\" from " + brand + " invoice"
  }

  /** The target as the page picks it: the first project whose title occurs anywhere in the caption. */
  function DeleteTargetAsWritten(projects: seq<Project>, caption: string): (r: Option<nat>)
    ensures r.Some? ==> r.value < |projects| && Contains(caption, projects[r.value].title)
    ensures r.Some? ==> forall j :: 0 <= j < r.value ==> !Contains(caption, projects[j].title)
    ensures r.None? ==> forall j :: 0 <= j < |projects| ==> !Contains(caption, projects[j].title)
  {
    FirstIndexWhere(projects, (p: Project) => Contains(caption, p.title))
  }

  /** The corrected target: the first project whose own delete caption is the dialog's caption. */
  function DeleteTarget(projects: seq<Project>, caption: string): (r: Option<nat>)
    ensures r.Some? ==> r.value < |projects| && DeleteLabel(projects[r.value].title) == caption
    ensures r.Some? ==> forall j :: 0 <= j < r.value ==> DeleteLabel(projects[j].title) != caption
    ensures r.None? ==> forall j :: 0 <= j < |projects| ==> DeleteLabel(projects[j].title) != caption
  {
    FirstIndexWhere(projects, (p: Project) => DeleteLabel(p.title) == caption)
  }

  lemma DeleteLabelInjective(a: string, b: string)
    requires DeleteLabel(a) == DeleteLabel(b)
    ensures a == b
  {
    var la, lb := DeleteLabel(a), DeleteLabel(b);
    assert la[8..|la| - 1] == a;
    assert lb[8..|lb| - 1] == b;
  }

  /**
   * With the corrected lookup, confirming the dialog opened for the project
   * at index k deletes that project, unless an earlier project has the very
   * same title.
   */
  lemma DeleteTargetIsNamedProject(projects: seq<Project>, k: nat)
    requires k < |projects|
    requires forall j :: 0 <= j < k ==> projects[j].title != projects[k].title
    ensures DeleteTarget(projects, DeleteLabel(projects[k].title)) == Some(k)
  {
    var r := DeleteTarget(projects, DeleteLabel(projects[k].title));
    if r.Some? && r.value < k {
      DeleteLabelInjective(projects[r.value].title, projects[k].title);
    }
  }

  function SampleProject(id: Id, title: string): Project {
    Project(id, title, WamiLive, Flyer, "", 0, 1, Pending, 0, [])
  }

  /**
   * The lookup as written picks the wrong project: with "Flyer" listed
   * before "Flyer 2", the dialog opened to delete "Flyer 2" deletes "Flyer".
   */
  lemma DeleteTargetAsWrittenPicksEarlierTitle()
    ensures var ps := [SampleProject("a", "Flyer"), SampleProject("b", "Flyer 2")];
            && DeleteTargetAsWritten(ps, DeleteLabel("Flyer 2")) == Some(0)
            && DeleteTarget(ps, DeleteLabel("Flyer 2")) == Some(1)
            && ps[0].id != ps[1].id
  {
    var ps := [SampleProject("a", "Flyer"), SampleProject("b", "Flyer 2")];
    assert DeleteLabel("Flyer 2") == "Delete \"" + "Flyer" + " 2\"";
    ContainsMiddle("Delete \"", "Flyer", " 2\"");
    DeleteTargetIsNamedProject(ps, 1);
  }

  /**
   * The lookup as written finds the project the dialog was opened for
   * whenever no earlier project's title occurs in that project's caption.
   */
  lemma DeleteTargetAsWrittenFindsNamed(projects: seq<Project>, k: nat)
    requires k < |projects|
    requires forall j :: 0 <= j < k ==> !Contains(DeleteLabel(projects[k].title), projects[j].title)
    ensures DeleteTargetAsWritten(projects, DeleteLabel(projects[k].title)) == Some(k)
  {
    ContainsMiddle("Delete \"", projects[k].title, "\"");
  }

  /** The projects the table keeps after `delete().eq("id", id)`. */
  function WithoutProject(projects: seq<Project>, id: Id): (r: seq<Project>)
    ensures forall p :: p in r ==> p in projects && p.id != id
  {
    Filter(projects, (p: Project) => p.id != id)
  }

  /** Exactly the projects with another id remain, and the list is shorter when a project had that id. */
  lemma WithoutProjectExactly(projects: seq<Project>, id: Id)
    ensures forall p :: p in WithoutProject(projects, id) <==> p in projects && p.id != id
    ensures (exists i :: 0 <= i < |projects| && projects[i].id == id) ==> |WithoutProject(projects, id)| < |projects|
  {
    forall p | p in projects && p.id != id
      ensures p in WithoutProject(projects, id)
    {
      FilterKeeps(projects, (p: Project) => p.id != id, p);
    }
    if exists i :: 0 <= i < |projects| && projects[i].id == id {
      FilterDropsRejected(projects, (p: Project) => p.id != id);
    }
  }

  // ---------------------------------------------------------------------
  // The page's state and handlers

  datatype PriceDialog = PriceDialog(isOpen: bool, project: Option<Project>, price: Option<int>)

  const ClosedPriceDialog := PriceDialog(false, None, None)

  datatype DialogKind = CompletedKind | InvoiceKind

  /** The confirmation dialog; `brand` is the free-text caption it carries. */
  datatype ClearDialog = ClearDialog(isOpen: bool, kind: DialogKind, brand: Option<string>, count: int)

  const ClosedClearDialog := ClearDialog(false, CompletedKind, None, 0)

  /** `clearDialog.brand` is present and not the empty string. */
  predicate HasLabel(d: ClearDialog) {
    d.brand.Some? && d.brand.value != ""
  }

  class Dashboard {
    var projects: seq<Project>
    var invoiceProjects: map<Brand, seq<InvoiceProject>>
    var exportedInvoices: map<Brand, seq<ExportedInvoice>>
    var editingProject: Option<Project>
    var form: FormData
    var priceDialog: PriceDialog
    var clearDialog: ClearDialog
    var projectToDelete: Option<(Brand, Id)>

    /** Both per-brand dictionaries hold the three brands, and pending snapshots sit under their own brand. */
    ghost predicate Valid()
      reads this
    {
      Complete(invoiceProjects) && Complete(exportedInvoices) && PendingOfBrand(invoiceProjects)
    }

    constructor ()
      ensures Valid()
      ensures projects == [] && invoiceProjects == BrandMap([]) && exportedInvoices == BrandMap([])
      ensures editingProject == None && form == EmptyForm(1) && projectToDelete == None
      ensures priceDialog == ClosedPriceDialog && clearDialog == ClosedClearDialog
    {
      projects := [];
      invoiceProjects := BrandMap([]);
      exportedInvoices := BrandMap([]);
      editingProject := None;
      form := EmptyForm(1);
      priceDialog := ClosedPriceDialog;
      clearDialog := ClosedClearDialog;
      projectToDelete := None;
    }

    /**
     * Dropping the dragged project `activeId` on `over`. Nothing happens when
     * it is dropped on itself. Otherwise the list is permuted by arrayMove,
     * the moved project sits at the drop index, every other project keeps its
     * relative order, and one priority write per project gives position + 1
     * to the project at that position. The projects' own priority fields are
     * left as they were.
     */
    method HandleDragEnd(activeId: Id, over: Option<Id>) returns (updates: seq<PriorityUpdate>)
      requires IndexOfId(projects, activeId).Some?
      modifies this`projects
      ensures over == Some(activeId) ==> projects == old(projects) && updates == []
      ensures over != Some(activeId) ==>
        var from := IndexOfId(old(projects), activeId).value;
        var to := DropIndex(old(projects), over);
        && projects == ArrayMove(old(projects), from, to)
        && multiset(projects) == multiset(old(projects))
        && projects[to] == old(projects)[from]
        && Remove(projects, to) == Remove(old(projects), from)
        && |updates| == |projects|
        && (forall i :: 0 <= i < |updates| ==> updates[i].id == projects[i].id && updates[i].priority == i + 1)
    {
      if over == Some(activeId) {
        return [];
      }
      var from := IndexOfId(projects, activeId).value;
      var to := DropIndex(projects, over);
      ArrayMoveSpec(projects, from, to);
      projects := ArrayMove(projects, from, to);
      updates := PriorityWrites(projects);
    }

    /**
     * Choosing Completed for a listed project only opens the price dialog
     * with that project and an empty price. Any other change is written to
     * the backend and, when that succeeds, changes the status of the
     * matching project and nothing else.
     */
    method HandleStatusChange(id: Id, status: Status, ok: bool) returns (outcome: Outcome)
      modifies this`projects, this`priceDialog
      ensures status == Completed && IndexOfId(old(projects), id).Some? ==>
        && outcome == DialogOpened
        && priceDialog == PriceDialog(true, Some(old(projects)[IndexOfId(old(projects), id).value]), None)
        && projects == old(projects)
      ensures !(status == Completed && IndexOfId(old(projects), id).Some?) ==>
        && priceDialog == old(priceDialog)
        && (ok ==> outcome == Success && projects == SetStatus(old(projects), id, status))
        && (!ok ==> outcome == BackendError && projects == old(projects))
    {
      if status == Completed {
        var k := IndexOfId(projects, id);
        if k.Some? {
          priceDialog := PriceDialog(true, Some(projects[k.value]), None);
          return DialogOpened;
        }
      }
      if !ok {
        return BackendError;
      }
      projects := SetStatus(projects, id, status);
      outcome := Success;
    }

    /** Typing in the price dialog; None is text that does not parse as a number. */
    method EnterPrice(price: Option<int>)
      modifies this`priceDialog
      ensures priceDialog == old(priceDialog).(price := price)
    {
      priceDialog := priceDialog.(price := price);
    }

    /**
     * Submitting the price dialog. A price that is not a positive number, or
     * a failure of either backend write (the status, then the snapshot),
     * changes nothing. Otherwise exactly one snapshot with that price is
     * appended to the project's brand, that brand's total grows by the price,
     * the project becomes Completed and the dialog closes.
     */
    method HandlePriceSubmit(statusOk: bool, invoiceOk: bool, now: int) returns (outcome: Outcome)
      requires Valid()
      modifies this`projects, this`invoiceProjects, this`priceDialog
      ensures Valid()
      ensures old(priceDialog.project).None? ==>
        outcome == NothingToDo && projects == old(projects) && invoiceProjects == old(invoiceProjects)
        && priceDialog == old(priceDialog)
      ensures old(priceDialog.project).Some? && !ValidPrice(old(priceDialog.price)) ==>
        outcome == ValidationError && projects == old(projects) && invoiceProjects == old(invoiceProjects)
        && priceDialog == old(priceDialog)
      ensures old(priceDialog.project).Some? && ValidPrice(old(priceDialog.price)) && !(statusOk && invoiceOk) ==>
        outcome == BackendError && projects == old(projects) && invoiceProjects == old(invoiceProjects)
        && priceDialog == old(priceDialog)
      ensures old(priceDialog.project).Some? && ValidPrice(old(priceDialog.price)) && statusOk && invoiceOk ==>
        var p := old(priceDialog.project).value;
        var price := old(priceDialog.price).value;
        && outcome == Success
        && invoiceProjects == old(invoiceProjects)[p.brand := old(invoiceProjects)[p.brand] + [Snapshot(p, price, now)]]
        && SumPrices(invoiceProjects[p.brand]) == SumPrices(old(invoiceProjects)[p.brand]) + price
        && projects == SetStatus(old(projects), p.id, Completed)
        && priceDialog == ClosedPriceDialog
    {
      if priceDialog.project.None? {
        return NothingToDo;
      }
      if !ValidPrice(priceDialog.price) {
        return ValidationError;
      }
      if !statusOk || !invoiceOk {
        return BackendError;
      }
      var p := priceDialog.project.value;
      var price := priceDialog.price.value;
      var snapshot := Snapshot(p, price, now);
      SumPricesConcat(invoiceProjects[p.brand], [snapshot]);
      assert SumPrices([snapshot]) == price by {
        assert [snapshot][..0] == [];
      }
      invoiceProjects := invoiceProjects[p.brand := invoiceProjects[p.brand] + [snapshot]];
      projects := SetStatus(projects, p.id, Completed);
      priceDialog := ClosedPriceDialog;
      outcome := Success;
    }

    /** handleEdit: the form is filled from the project, which becomes the one being edited. */
    method HandleEdit(project: Project)
      modifies this`editingProject, this`form
      ensures editingProject == Some(project)
      ensures form == FormData(project.title, Some(project.brand), Some(project.kind), project.description,
                               Some(project.deadline), project.priority, project.files)
    {
      editingProject := Some(project);
      form := FormData(project.title, Some(project.brand), Some(project.kind), project.description,
                       Some(project.deadline), project.priority, project.files);
    }

    /**
     * Submitting the form. An incomplete form is rejected and nothing is
     * written. A complete form writes SubmissionData; after a successful
     * write the edit ends and the form is reset with priority
     * `projects.length + 1`; after a failed one nothing changes.
     */
    method HandleSubmit(ok: bool) returns (written: Option<ProjectData>, outcome: Outcome)
      modifies this`form, this`editingProject
      ensures !FormComplete(old(form)) ==>
        written == None && outcome == ValidationError && form == old(form) && editingProject == old(editingProject)
      ensures FormComplete(old(form)) ==> written == SubmissionData(old(form), old(editingProject))
      ensures FormComplete(old(form)) && ok ==>
        outcome == Success && form == EmptyForm(|projects| + 1) && editingProject == None
      ensures FormComplete(old(form)) && !ok ==>
        outcome == BackendError && form == old(form) && editingProject == old(editingProject)
    {
      written := SubmissionData(form, editingProject);
      if written.None? {
        return None, ValidationError;
      }
      if !ok {
        return written, BackendError;
      }
      editingProject := None;
      form := EmptyForm(|projects| + 1);
      outcome := Success;
    }

    /** Files over 10 MB are dropped; the rest are appended, in order, after the form's files. */
    method ProcessFiles(incoming: seq<ProjectFile>)
      modifies this`form
      ensures form == old(form).(files := old(form).files + AcceptedFiles(incoming))
    {
      form := form.(files := form.files + AcceptedFiles(incoming));
    }

    /** Exactly the form's files with the given id are removed. */
    method RemoveFile(fileId: Id)
      modifies this`form
      ensures form == old(form).(files := WithoutFile(old(form).files, fileId))
    {
      form := form.(files := WithoutFile(form.files, fileId));
    }

    /** handleDelete: opens the confirmation dialog labelled with the project's title. */
    method HandleDelete(id: Id) returns (outcome: Outcome)
      modifies this`clearDialog
      ensures IndexOfId(projects, id).None? ==> outcome == NothingToDo && clearDialog == old(clearDialog)
      ensures IndexOfId(projects, id).Some? ==>
        outcome == DialogOpened
        && clearDialog == ClearDialog(true, CompletedKind, Some(DeleteLabel(projects[IndexOfId(projects, id).value].title)), 1)
    {
      var k := IndexOfId(projects, id);
      if k.None? {
        return NothingToDo;
      }
      clearDialog := ClearDialog(true, CompletedKind, Some(DeleteLabel(projects[k.value].title)), 1);
      outcome := DialogOpened;
    }

    /** handleDeleteInvoiceProject: remembers which pending snapshot to remove and opens the dialog. */
    method HandleDeleteInvoiceProject(brand: Brand, projectId: Id, projectTitle: string)
      modifies this`clearDialog, this`projectToDelete
      ensures clearDialog == ClearDialog(true, CompletedKind, Some(RemovalLabel(projectTitle, BrandName(brand))), 1)
      ensures projectToDelete == Some((brand, projectId))
    {
      clearDialog := ClearDialog(true, CompletedKind, Some(RemovalLabel(projectTitle, BrandName(brand))), 1);
      projectToDelete := Some((brand, projectId));
    }

    /** handleClearCompleted: opens the bulk-clear dialog counting the Completed projects; with none it reports an error. */
    method HandleClearCompleted() returns (outcome: Outcome)
      modifies this`clearDialog
      ensures |ProjectsByStatus(projects, Completed)| == 0 ==> outcome == ValidationError && clearDialog == old(clearDialog)
      ensures |ProjectsByStatus(projects, Completed)| > 0 ==>
        outcome == DialogOpened
        && clearDialog == ClearDialog(true, CompletedKind, None, |ProjectsByStatus(projects, Completed)|)
    {
      var completed := ProjectsByStatus(projects, Completed);
      if |completed| == 0 {
        return ValidationError;
      }
      clearDialog := ClearDialog(true, CompletedKind, None, |completed|);
      outcome := DialogOpened;
    }

    /** The invoice manager's request to clear a brand's history opens the dialog in invoice mode. */
    method OpenInvoiceHistoryClear(brand: string, count: int)
      modifies this`clearDialog
      ensures clearDialog == ClearDialog(true, InvoiceKind, Some(brand), count)
    {
      clearDialog := ClearDialog(true, InvoiceKind, Some(brand), count);
    }

    /**
     * Confirming the dialog, by the first branch that applies:
     * (1) invoice mode with a caption: that brand's exported history becomes
     *     empty, nothing else changes;
     * (2) a pending snapshot to remove: its id is filtered out of that
     *     brand's pending list only;
     * (3) a "Delete" caption: the first project whose title occurs in the
     *     caption is deleted once the backend agrees (the dialog closes
     *     either way; when no title occurs, nothing changes);
     * (4) otherwise the bulk clear: only Completed projects are deleted once
     *     the backend agrees, and the dialog closes either way.
     * The invoice data is left alone by (3) and (4).
     */
    method ConfirmClearCompleted(ok: bool) returns (outcome: Outcome)
      requires Valid()
      modifies this`projects, this`invoiceProjects, this`exportedInvoices, this`clearDialog, this`projectToDelete
      ensures Valid()
      ensures old(clearDialog.kind) == InvoiceKind && HasLabel(old(clearDialog)) ==>
        && outcome == Success
        && exportedInvoices == (match ParseBrand(old(clearDialog.brand).value)
                                case Some(b) => old(exportedInvoices)[b := []]
                                case None => old(exportedInvoices))
        && projects == old(projects) && invoiceProjects == old(invoiceProjects)
        && projectToDelete == old(projectToDelete) && clearDialog == ClosedClearDialog
      ensures !(old(clearDialog.kind) == InvoiceKind && HasLabel(old(clearDialog))) && old(projectToDelete).Some? ==>
        var b := old(projectToDelete).value.0;
        var id := old(projectToDelete).value.1;
        && outcome == Success
        && invoiceProjects == old(invoiceProjects)[b := WithoutInvoiceProject(old(invoiceProjects)[b], id)]
        && projects == old(projects) && exportedInvoices == old(exportedInvoices)
        && projectToDelete == None && clearDialog == ClosedClearDialog
      ensures !(old(clearDialog.kind) == InvoiceKind && HasLabel(old(clearDialog))) && old(projectToDelete).None?
              && HasLabel(old(clearDialog)) && Contains(old(clearDialog.brand).value, "Delete \"") ==>
        var target := DeleteTargetAsWritten(old(projects), old(clearDialog.brand).value);
        && invoiceProjects == old(invoiceProjects) && exportedInvoices == old(exportedInvoices)
        && projectToDelete == old(projectToDelete)
        && (target.None? ==> outcome == NothingToDo && projects == old(projects) && clearDialog == old(clearDialog))
        && (target.Some? ==> clearDialog == ClosedClearDialog)
        && (target.Some? && ok ==> outcome == Success && projects == WithoutProject(old(projects), old(projects)[target.value].id))
        && (target.Some? && !ok ==> outcome == BackendError && projects == old(projects))
      ensures !(old(clearDialog.kind) == InvoiceKind && HasLabel(old(clearDialog))) && old(projectToDelete).None?
              && !(HasLabel(old(clearDialog)) && Contains(old(clearDialog.brand).value, "Delete \"")) ==>
        && invoiceProjects == old(invoiceProjects) && exportedInvoices == old(exportedInvoices)
        && projectToDelete == old(projectToDelete) && clearDialog == ClosedClearDialog
        && (ok ==> outcome == Success && projects == ActiveProjects(old(projects)))
        && (!ok ==> outcome == BackendError && projects == old(projects))
    {
      if clearDialog.kind == InvoiceKind && HasLabel(clearDialog) {
        match ParseBrand(clearDialog.brand.value) {
          case Some(b) => exportedInvoices := exportedInvoices[b := []];
          case None =>
        }
        clearDialog := ClosedClearDialog;
        return Success;
      }
      if projectToDelete.Some? {
        var (b, id) := projectToDelete.value;
        invoiceProjects := invoiceProjects[b := WithoutInvoiceProject(invoiceProjects[b], id)];
        clearDialog := ClosedClearDialog;
        projectToDelete := None;
        return Success;
      }
      if HasLabel(clearDialog) && Contains(clearDialog.brand.value, "Delete \"") {
        var target := DeleteTargetAsWritten(projects, clearDialog.brand.value);
        if target.None? {
          return NothingToDo;
        }
        if ok {
          projects := WithoutProject(projects, projects[target.value].id);
          outcome := Success;
        } else {
          outcome := BackendError;
        }
        clearDialog := ClosedClearDialog;
        return;
      }
      if ok {
        projects := ActiveProjects(projects);
        outcome := Success;
      } else {
        outcome := BackendError;
      }
      clearDialog := ClosedClearDialog;
    }
  }
}
