/**
 * The records the dashboard keeps: projects of three brands, their attached
 * files, the priced snapshots waiting to be invoiced, and exported invoices.
 * Dates are plain integers and money is integer cents.
 */
module Domain {
  import opened Collections

  datatype Brand = WamiLive | LuckOnFourth | TheHideout

  function BrandName(b: Brand): string {
    match b
    case WamiLive => "Wami Live"
    case LuckOnFourth => "Luck On Fourth"
    case TheHideout => "The Hideout"
  }

  /** Reads a brand as stored in a table row; any other text is no brand. */
  function ParseBrand(s: string): (r: Option<Brand>)
    ensures r.Some? ==> BrandName(r.value) == s
    ensures r.None? ==> forall b: Brand :: BrandName(b) != s
  {
    if s == "Wami Live" then Some(WamiLive)
    else if s == "Luck On Fourth" then Some(LuckOnFourth)
    else if s == "The Hideout" then Some(TheHideout)
    else None
  }

  /** A per-brand dictionary that holds all three brand keys. */
  predicate Complete<V>(m: map<Brand, V>) {
    forall b: Brand :: b in m
  }

  function BrandMap<V>(v: V): (m: map<Brand, V>)
    ensures Complete(m) && forall b: Brand :: m[b] == v
  {
    var m := map[WamiLive := v, LuckOnFourth := v, TheHideout := v];
    ThreeKeysComplete(m);
    m
  }

  lemma ThreeKeysComplete<V>(m: map<Brand, V>)
    requires WamiLive in m && LuckOnFourth in m && TheHideout in m
    ensures Complete(m)
  {
    forall b: Brand
      ensures b in m
    {
      match b
      case WamiLive =>
      case LuckOnFourth =>
      case TheHideout =>
    }
  }

  datatype ProjectType = Flyer | PromoVideo

  function TypeName(t: ProjectType): string {
    match t
    case Flyer => "Flyer"
    case PromoVideo => "Promo Video"
  }

  datatype Status = Pending | InProgress | Completed

  type Id = string

  datatype ProjectFile = ProjectFile(id: Id, name: string, size: int, mime: string, url: string, uploadedAt: int)

  datatype Project = Project(
    id: Id,
    title: string,
    brand: Brand,
    kind: ProjectType,
    description: string,
    deadline: int,
    priority: int,
    status: Status,
    createdAt: int,
    files: seq<ProjectFile>)

  /** A project snapshot in a brand's pending invoice; a price that is missing or not a number is None. */
  datatype InvoiceProject = InvoiceProject(project: Project, invoicePrice: Option<int>, addedToInvoiceAt: Option<int>) {
    function Id(): Id {
      project.id
    }
  }

  datatype ExportedInvoice = ExportedInvoice(
    id: string,
    invoiceNumber: string,
    fileName: string,
    totalAmount: int,
    exportedAt: int,
    isPaid: bool,
    projects: seq<InvoiceProject>)

  /** `project.invoicePrice || 0` */
  function PriceOrZero(p: InvoiceProject): int {
    match p.invoicePrice
    case Some(v) => v
    case None => 0
  }

  /** The left-to-right sum of the prices, a missing price counting as 0. */
  function SumPrices(s: seq<InvoiceProject>): int {
    if s == [] then 0 else SumPrices(s[..|s| - 1]) + PriceOrZero(s[|s| - 1])
  }

  lemma {:induction false} SumPricesConcat(a: seq<InvoiceProject>, b: seq<InvoiceProject>)
    ensures SumPrices(a + b) == SumPrices(a) + SumPrices(b)
  {
    if b == [] {
      assert a + b == a;
    } else {
      assert (a + b)[..|a + b| - 1] == a + b[..|b| - 1];
      SumPricesConcat(a, b[..|b| - 1]);
    }
  }

  /** Every snapshot in a brand's pending list belongs to that brand. */
  predicate PendingOfBrand(m: map<Brand, seq<InvoiceProject>>) {
    forall b, x :: b in m && x in m[b] ==> x.project.brand == b
  }

  /** `list.filter((p) => p.id !== projectId)` on a pending invoice. */
  function WithoutInvoiceProject(s: seq<InvoiceProject>, projectId: Id): (r: seq<InvoiceProject>)
    ensures forall x :: x in r ==> x in s && x.Id() != projectId
  {
    Filter(s, (x: InvoiceProject) => x.Id() != projectId)
  }

  /** Exactly the snapshots with another id survive, and a second removal changes nothing. */
  lemma WithoutInvoiceProjectExactly(s: seq<InvoiceProject>, projectId: Id)
    ensures forall x :: x in WithoutInvoiceProject(s, projectId) <==> x in s && x.Id() != projectId
    ensures WithoutInvoiceProject(WithoutInvoiceProject(s, projectId), projectId) == WithoutInvoiceProject(s, projectId)
  {
    forall x | x in s && x.Id() != projectId
      ensures x in WithoutInvoiceProject(s, projectId)
    {
      FilterKeeps(s, (x: InvoiceProject) => x.Id() != projectId, x);
    }
    FilterIdempotent(s, (x: InvoiceProject) => x.Id() != projectId);
  }

  lemma WithoutInvoiceProjectSnoc(s: seq<InvoiceProject>, x: InvoiceProject, projectId: Id)
    ensures WithoutInvoiceProject(s + [x], projectId)
            == WithoutInvoiceProject(s, projectId) + (if x.Id() != projectId then [x] else [])
  {
    FilterAppend(s, [x], (x: InvoiceProject) => x.Id() != projectId);
    assert [x][1..] == [];
  }

  /**
   * What a handler reports (by a toast in the original). An early return
   * with an error toast is a ValidationError; a silent early return is
   * NothingToDo.
   */
  datatype Outcome = Success | DialogOpened | ValidationError | BackendError | NothingToDo
}
