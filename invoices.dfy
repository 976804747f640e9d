/**
 * The invoice manager: it groups the loaded rows per brand, totals a brand's
 * pending invoice, removes snapshots, toggles paid flags, clears a brand's
 * history and exports a pending invoice as a numbered history record. It
 * works on the dashboard page's own pending and exported dictionaries and
 * keeps a per-brand invoice counter of its own. Backend calls are flags or
 * row lists supplied by the caller; the PDF drawing is reduced to the table
 * lines it would draw.
 */
module InvoiceManagement {
  import opened Collections
  import opened Text
  import opened Domain
  import opened ProjectDashboard

  // ---------------------------------------------------------------------
  // Grouping loaded rows by brand

  /**
   * The converted rows whose brand text names `b`, in input order; rows
   * naming no known brand land nowhere.
   */
  function OfBrand<R, V>(rows: seq<R>, brandOf: R -> string, convert: (R, Brand) -> V, b: Brand): (r: seq<V>)
    ensures |r| <= |rows|
  {
    if rows == [] then []
    else
      var last := rows[|rows| - 1];
      OfBrand(rows[..|rows| - 1], brandOf, convert, b)
      + (if ParseBrand(brandOf(last)) == Some(b) then [convert(last, b)] else [])
  }

  /** The number of rows naming no known brand. */
  function UnknownRows<R>(rows: seq<R>, brandOf: R -> string): nat {
    if rows == [] then 0
    else UnknownRows(rows[..|rows| - 1], brandOf) + (if ParseBrand(brandOf(rows[|rows| - 1])).None? then 1 else 0)
  }

  /**
   * The load effect's grouping loop: start from all three brands with empty
   * lists and push each row into its brand's list.
   */
  method GroupByBrand<R, V>(rows: seq<R>, brandOf: R -> string, convert: (R, Brand) -> V) returns (m: map<Brand, seq<V>>)
    ensures Complete(m)
    ensures forall b: Brand :: m[b] == OfBrand(rows, brandOf, convert, b)
  {
    m := BrandMap([]);
    for i := 0 to |rows|
      invariant Complete(m)
      invariant forall b: Brand :: m[b] == OfBrand(rows[..i], brandOf, convert, b)
    {
      assert rows[..i + 1][..i] == rows[..i];
      match ParseBrand(brandOf(rows[i])) {
        case Some(b) => m := m[b := m[b] + [convert(rows[i], b)]];
        case None =>
      }
    }
    assert rows[..|rows|] == rows;
  }

  /** Every row lands in exactly one brand's list, or is dropped because its brand is unknown. */
  lemma {:induction false} GroupingPartition<R, V>(rows: seq<R>, brandOf: R -> string, convert: (R, Brand) -> V)
    ensures |OfBrand(rows, brandOf, convert, WamiLive)| + |OfBrand(rows, brandOf, convert, LuckOnFourth)|
            + |OfBrand(rows, brandOf, convert, TheHideout)| + UnknownRows(rows, brandOf) == |rows|
  {
    if rows != [] {
      GroupingPartition(rows[..|rows| - 1], brandOf, convert);
    }
  }

  /** Each grouped value is the conversion, under that brand, of a row naming that brand. */
  lemma {:induction false} OfBrandSource<R, V>(rows: seq<R>, brandOf: R -> string, convert: (R, Brand) -> V, b: Brand, x: V)
    requires x in OfBrand(rows, brandOf, convert, b)
    ensures exists i :: 0 <= i < |rows| && ParseBrand(brandOf(rows[i])) == Some(b) && x == convert(rows[i], b)
  {
    var init := rows[..|rows| - 1];
    if x in OfBrand(init, brandOf, convert, b) {
      OfBrandSource(init, brandOf, convert, b, x);
      var i :| 0 <= i < |init| && ParseBrand(brandOf(init[i])) == Some(b) && x == convert(init[i], b);
      assert rows[i] == init[i];
    } else {
      assert ParseBrand(brandOf(rows[|rows| - 1])) == Some(b) && x == convert(rows[|rows| - 1], b);
    }
  }

  /** A row of the invoice_projects table. */
  datatype InvoiceRow = InvoiceRow(
    projectId: Id,
    title: string,
    brand: string,
    kind: ProjectType,
    description: string,
    deadline: int,
    priority: int,
    status: Status,
    createdAt: int,
    files: seq<ProjectFile>,
    invoicePrice: Option<int>,
    addedToInvoiceAt: Option<int>)

  function RowSnapshot(row: InvoiceRow, b: Brand): InvoiceProject {
    InvoiceProject(
      Project(row.projectId, row.title, b, row.kind, row.description, row.deadline, row.priority, row.status, row.createdAt, row.files),
      row.invoicePrice, row.addedToInvoiceAt)
  }

  function InvoiceRowBrand(row: InvoiceRow): string {
    row.brand
  }

  /** A row of the exported_invoices table. */
  datatype ExportedRow = ExportedRow(
    id: string,
    brand: string,
    invoiceNumber: string,
    fileName: string,
    totalAmount: int,
    exportedAt: int,
    isPaid: bool,
    projects: seq<InvoiceProject>)

  function RowRecord(row: ExportedRow, b: Brand): ExportedInvoice {
    ExportedInvoice(row.id, row.invoiceNumber, row.fileName, row.totalAmount, row.exportedAt, row.isPaid, row.projects)
  }

  function ExportedRowBrand(row: ExportedRow): string {
    row.brand
  }

  /** Grouped pending snapshots carry the brand they are filed under, and their id is the row's project id. */
  lemma GroupedSnapshots(rows: seq<InvoiceRow>, b: Brand, x: InvoiceProject)
    requires x in OfBrand(rows, InvoiceRowBrand, RowSnapshot, b)
    ensures x.project.brand == b
    ensures exists i :: 0 <= i < |rows| && rows[i].brand == BrandName(b) && x.Id() == rows[i].projectId
  {
    OfBrandSource(rows, InvoiceRowBrand, RowSnapshot, b, x);
  }

  /** A row of the invoice_counters table. */
  datatype CounterRow = CounterRow(brand: string, currentNumber: int)

  /** The counter the loading loop leaves for `b`: the last row naming `b`, or the default 1. */
  function LastCounter(rows: seq<CounterRow>, b: Brand): int {
    if rows == [] then 1
    else if ParseBrand(rows[|rows| - 1].brand) == Some(b) then rows[|rows| - 1].currentNumber
    else LastCounter(rows[..|rows| - 1], b)
  }

  /** The counter loading loop: all brands start at 1 and each row overwrites its brand's counter. */
  method CounterDefaults(rows: seq<CounterRow>) returns (counters: map<Brand, int>)
    ensures Complete(counters)
    ensures forall b: Brand :: counters[b] == LastCounter(rows, b)
  {
    counters := BrandMap(1);
    for i := 0 to |rows|
      invariant Complete(counters)
      invariant forall b: Brand :: counters[b] == LastCounter(rows[..i], b)
    {
      assert rows[..i + 1][..i] == rows[..i];
      match ParseBrand(rows[i].brand) {
        case Some(b) => counters := counters[b := rows[i].currentNumber];
        case None =>
      }
    }
    assert rows[..|rows|] == rows;
  }

  /** A brand without a counter row keeps the default 1. */
  lemma {:induction false} LastCounterDefault(rows: seq<CounterRow>, b: Brand)
    requires forall i :: 0 <= i < |rows| ==> ParseBrand(rows[i].brand) != Some(b)
    ensures LastCounter(rows, b) == 1
  {
    if rows != [] {
      LastCounterDefault(rows[..|rows| - 1], b);
    }
  }

  /** Otherwise the last row naming the brand decides its counter. */
  lemma {:induction false} LastCounterLastRow(rows: seq<CounterRow>, b: Brand, k: nat)
    requires k < |rows| && ParseBrand(rows[k].brand) == Some(b)
    requires forall j :: k < j < |rows| ==> ParseBrand(rows[j].brand) != Some(b)
    ensures LastCounter(rows, b) == rows[k].currentNumber
  {
    if k < |rows| - 1 {
      var init := rows[..|rows| - 1];
      assert init[k] == rows[k];
      LastCounterLastRow(init, b, k);
    }
  }

  // ---------------------------------------------------------------------
  // Totals, removal and the paid flag

  /** getBrandTotal: the brand's prices summed, a missing price or a missing brand counting as 0. */
  function BrandTotal(m: map<Brand, seq<InvoiceProject>>, b: Brand): (r: int)
    ensures b !in m || m[b] == [] ==> r == 0
  {
    if b in m then SumPrices(m[b]) else 0
  }

  /** The card shows "Ready to invoice" once the total reaches $200. */
  predicate ReadyToInvoice(totalCents: int) {
    totalCents >= 200 * 100
  }

  /** Snapshots none of which has a negative price add up to a non-negative amount. */
  lemma {:induction false} SumPricesNonNegative(t: seq<InvoiceProject>)
    requires forall i :: 0 <= i < |t| ==> PriceOrZero(t[i]) >= 0
    ensures SumPrices(t) >= 0
  {
    if t != [] {
      SumPricesNonNegative(t[..|t| - 1]);
    }
  }

  /**
   * A brand that is ready to invoice stays ready when snapshots priced at
   * zero or more join its pending list.
   */
  lemma ReadyKeptByAdding(s: seq<InvoiceProject>, t: seq<InvoiceProject>)
    requires ReadyToInvoice(SumPrices(s))
    requires forall i :: 0 <= i < |t| ==> PriceOrZero(t[i]) >= 0
    ensures ReadyToInvoice(SumPrices(s + t))
  {
    SumPricesConcat(s, t);
    SumPricesNonNegative(t);
  }

  /** The snapshots removeFromInvoice takes out. */
  function OnlyInvoiceProject(s: seq<InvoiceProject>, projectId: Id): (r: seq<InvoiceProject>)
    ensures forall x :: x in r ==> x in s && x.Id() == projectId
  {
    Filter(s, (x: InvoiceProject) => x.Id() == projectId)
  }

  lemma OnlyInvoiceProjectSnoc(s: seq<InvoiceProject>, x: InvoiceProject, projectId: Id)
    ensures OnlyInvoiceProject(s + [x], projectId)
            == OnlyInvoiceProject(s, projectId) + (if x.Id() == projectId then [x] else [])
  {
    FilterAppend(s, [x], (x: InvoiceProject) => x.Id() == projectId);
    assert [x][1..] == [];
  }

  /** Removing a project from a pending invoice lowers the total by exactly the removed prices. */
  lemma {:induction false} RemovalLowersTotal(s: seq<InvoiceProject>, projectId: Id)
    ensures SumPrices(s) == SumPrices(WithoutInvoiceProject(s, projectId)) + SumPrices(OnlyInvoiceProject(s, projectId))
  {
    if s != [] {
      var init, last := s[..|s| - 1], s[|s| - 1];
      assert s == init + [last];
      RemovalLowersTotal(init, projectId);
      WithoutInvoiceProjectSnoc(init, last, projectId);
      OnlyInvoiceProjectSnoc(init, last, projectId);
      var kept := if last.Id() != projectId then [last] else [];
      var gone := if last.Id() == projectId then [last] else [];
      SumPricesConcat(WithoutInvoiceProject(init, projectId), kept);
      SumPricesConcat(OnlyInvoiceProject(init, projectId), gone);
      assert SumPrices(kept) + SumPrices(gone) == PriceOrZero(last) by {
        assert [last][..0] == [];
      }
    }
  }

  /** The brand's list as getBrandTotal reads it: a missing brand reads as empty. */
  function ListOf(m: map<Brand, seq<InvoiceProject>>, b: Brand): seq<InvoiceProject> {
    if b in m then m[b] else []
  }

  /**
   * Appending snapshots to a brand's list raises its total by exactly their
   * prices (a missing price counting 0) and leaves the other brands' totals alone.
   */
  lemma BrandTotalAppend(m: map<Brand, seq<InvoiceProject>>, b: Brand, t: seq<InvoiceProject>)
    ensures BrandTotal(m[b := ListOf(m, b) + t], b) == BrandTotal(m, b) + SumPrices(t)
    ensures forall c :: c != b ==> BrandTotal(m[b := ListOf(m, b) + t], c) == BrandTotal(m, c)
  {
    SumPricesConcat(ListOf(m, b), t);
  }

  /**
   * Removing a project from a brand's list lowers its total by exactly the
   * prices of the removed snapshots and leaves the other brands' totals alone.
   */
  lemma BrandTotalRemoval(m: map<Brand, seq<InvoiceProject>>, b: Brand, projectId: Id)
    ensures BrandTotal(m[b := WithoutInvoiceProject(ListOf(m, b), projectId)], b)
            == BrandTotal(m, b) - SumPrices(OnlyInvoiceProject(ListOf(m, b), projectId))
    ensures forall c :: c != b ==>
      BrandTotal(m[b := WithoutInvoiceProject(ListOf(m, b), projectId)], c) == BrandTotal(m, c)
  {
    RemovalLowersTotal(ListOf(m, b), projectId);
  }

  /** Flips the paid flag of the invoices with the given id; nothing else about any invoice changes. */
  function TogglePaid(invoices: seq<ExportedInvoice>, invoiceId: string): (r: seq<ExportedInvoice>)
    ensures |r| == |invoices|
    ensures forall i :: 0 <= i < |r| ==> r[i].(isPaid := invoices[i].isPaid) == invoices[i]
    ensures forall i :: 0 <= i < |r| ==> (r[i].isPaid != invoices[i].isPaid <==> invoices[i].id == invoiceId)
  {
    seq(|invoices|, i requires 0 <= i < |invoices| =>
      if invoices[i].id == invoiceId then invoices[i].(isPaid := !invoices[i].isPaid) else invoices[i])
  }

  /** Toggling the same invoice twice restores the history. */
  lemma TogglePaidTwice(invoices: seq<ExportedInvoice>, invoiceId: string)
    ensures TogglePaid(TogglePaid(invoices, invoiceId), invoiceId) == invoices
  {
    var r := TogglePaid(TogglePaid(invoices, invoiceId), invoiceId);
    forall i | 0 <= i < |r|
      ensures r[i] == invoices[i]
    {
      var once := TogglePaid(invoices, invoiceId);
      assert once[i].(isPaid := invoices[i].isPaid) == invoices[i];
    }
  }

  /** The paid flag the toggle writes: the negation of the old flag, or true when no invoice has that id. */
  function PaidFlagSent(invoices: seq<ExportedInvoice>, invoiceId: string): (sent: bool)
    ensures forall i | 0 <= i < |invoices| && invoices[i].id == invoiceId
                       && (forall j | 0 <= j < i :: invoices[j].id != invoiceId) :: sent == !invoices[i].isPaid
    ensures (forall i :: 0 <= i < |invoices| ==> invoices[i].id != invoiceId) ==> sent
  {
    match FirstIndexWhere(invoices, (inv: ExportedInvoice) => inv.id == invoiceId)
    case None => true
    case Some(k) => !invoices[k].isPaid
  }

  // ---------------------------------------------------------------------
  // Invoice numbers

  /**
   * getNextInvoiceNumber: the remote counter when the call succeeds (a
   * missing or zero value becomes 1), otherwise the local counter (zero
   * becoming 1). Never 0.
   */
  function NextInvoiceNumber(rpcOk: bool, data: Option<int>, local: int): (n: int)
    ensures n != 0
    ensures rpcOk && data.Some? && data.value != 0 ==> n == data.value
    ensures !rpcOk && local != 0 ==> n == local
    ensures (rpcOk && (data.None? || data.value == 0)) || (!rpcOk && local == 0) ==> n == 1
  {
    if rpcOk then
      (match data case Some(v) => if v != 0 then v else 1 case None => 1)
    else if local != 0 then local else 1
  }

  /** `n.toString().padStart(3, "0")` */
  function InvoiceNumberText(n: int): string {
    PadStart(IntToString(n), 3, '0')
  }

  /** The number text has at least three digits, denotes `n`, and is the plain decimal text once `n` reaches 100. */
  lemma InvoiceNumberTextDenotes(n: nat)
    ensures |InvoiceNumberText(n)| >= 3 && AllDigits(InvoiceNumberText(n))
    ensures DigitsValue(InvoiceNumberText(n)) == n
    ensures n >= 100 ==> InvoiceNumberText(n) == NatToString(n)
  {
    PaddedNumberValue(n, 3);
    if n >= 100 {
      NatToStringAtLeast3(n);
    }
  }

  lemma {:induction false} NatToStringAtLeast3(n: nat)
    requires n >= 100
    ensures |NatToString(n)| >= 3
  {
    assert NatToString(n) == NatToString(n / 10) + [DigitChar(n % 10)];
    assert NatToString(n / 10) == NatToString(n / 100) + [DigitChar((n / 10) % 10)];
  }

  // ---------------------------------------------------------------------
  // The export step

  const TitleLimit := 30

  /** Titles longer than 30 characters are cut to their first 30 and marked with "...". */
  function TruncateTitle(title: string): (r: string)
    ensures |title| <= TitleLimit ==> r == title
    ensures |title| > TitleLimit ==> |r| == TitleLimit + 3 && r[..TitleLimit] == title[..TitleLimit] && r[TitleLimit..] == "..."
    ensures |r| <= TitleLimit + 3
  {
    if |title| > TitleLimit then title[..TitleLimit] + "..." else title
  }

  /** One row of the invoice table: title, type, amount in cents and vertical position. */
  datatype TableLine = TableLine(title: string, kind: string, amount: int, y: int)

  /** The amount column as drawn: a dollar sign and the amount to two decimals. */
  function AmountText(line: TableLine): string {
    "$" + ToFixed2(line.amount)
  }

  /**
   * The amount column is a dollar sign, a minus sign for a negative amount,
   * then the magnitude in whole units and two digits of cents.
   */
  lemma AmountTextDenotes(line: TableLine)
    ensures AmountText(line)[0] == '$'
    ensures line.amount >= 0 ==> DenotesCents(AmountText(line)[1..], line.amount)
    ensures line.amount < 0 ==> AmountText(line)[1] == '-' && DenotesCents(AmountText(line)[2..], -line.amount)
  {
    var t := ToFixed2(line.amount);
    ToFixed2Denotes(line.amount);
    assert AmountText(line)[1..] == t;
    if line.amount < 0 {
      assert AmountText(line)[2..] == t[1..];
    }
  }

  const FirstRowY := 145
  const RowHeight := 10
  const PageBottom := 250
  const PageTop := 30

  /** The row position after a row at `y`: one row lower, or the top of a new page past the bottom. */
  function NextRowY(y: int): int {
    if y + RowHeight > PageBottom then PageTop else y + RowHeight
  }

  /** The table line for one pending snapshot drawn at height y. */
  function RowLine(p: InvoiceProject, y: int): TableLine {
    TableLine(TruncateTitle(p.project.title), TypeName(p.project.kind), PriceOrZero(p), y)
  }

  /** The position of row i. */
  function RowY(i: nat): int {
    if i == 0 then FirstRowY else NextRowY(RowY(i - 1))
  }

  /** Every row is drawn between the top margin and the page bottom. */
  lemma {:induction false} RowYOnPage(i: nat)
    ensures PageTop <= RowY(i) <= PageBottom
  {
    if i > 0 {
      RowYOnPage(i - 1);
    }
  }

  /** The table the export draws: one line per snapshot, row i at RowY(i). */
  function Lines(projects: seq<InvoiceProject>): seq<TableLine> {
    if projects == [] then []
    else Lines(projects[..|projects| - 1]) + [RowLine(projects[|projects| - 1], RowY(|projects| - 1))]
  }

  /** Row i of the table shows snapshot i at height RowY(i), which lies on the page. */
  lemma {:induction false} LinesMeaning(projects: seq<InvoiceProject>)
    ensures |Lines(projects)| == |projects|
    ensures forall i :: 0 <= i < |projects| ==>
      Lines(projects)[i] == RowLine(projects[i], RowY(i)) && PageTop <= Lines(projects)[i].y <= PageBottom
  {
    if projects != [] {
      var init := projects[..|projects| - 1];
      LinesMeaning(init);
      forall i | 0 <= i < |projects|
        ensures Lines(projects)[i] == RowLine(projects[i], RowY(i))
        ensures PageTop <= Lines(projects)[i].y <= PageBottom
      {
        RowYOnPage(i);
        if i < |init| {
          assert init[i] == projects[i];
        }
      }
    }
  }

  /**
   * The table loop of the export: it draws Lines(projects), its running
   * total ends as the sum of the prices, and the position stays on the page.
   */
  method LayoutRows(projects: seq<InvoiceProject>) returns (total: int, yPos: int, lines: seq<TableLine>)
    ensures total == SumPrices(projects)
    ensures yPos == RowY(|projects|) && PageTop <= yPos <= PageBottom
    ensures lines == Lines(projects)
  {
    total := 0;
    yPos := FirstRowY;
    lines := [];
    for i := 0 to |projects|
      invariant total == SumPrices(projects[..i])
      invariant yPos == RowY(i) && PageTop <= yPos <= PageBottom
      invariant lines == Lines(projects[..i])
    {
      LayoutStep(projects, i);
      total := total + PriceOrZero(projects[i]);
      lines := lines + [RowLine(projects[i], yPos)];
      yPos := yPos + RowHeight;
      if yPos > PageBottom {
        yPos := PageTop;
      }
      RowYOnPage(i + 1);
    }
    LayoutWhole(projects);
  }

  lemma LayoutStep(s: seq<InvoiceProject>, i: nat)
    requires i < |s|
    ensures SumPrices(s[..i + 1]) == SumPrices(s[..i]) + PriceOrZero(s[i])
    ensures Lines(s[..i + 1]) == Lines(s[..i]) + [RowLine(s[i], RowY(i))]
  {
    assert s[..i + 1][..i] == s[..i];
  }

  lemma LayoutWhole(s: seq<InvoiceProject>)
    ensures SumPrices(s[..|s|]) == SumPrices(s) && Lines(s[..|s|]) == Lines(s)
  {
    assert s[..|s|] == s;
  }

  predicate IsSpace(c: char) {
    c == ' ' || c == '\t' || c == '\n' || c == '\r' || c == '\U{B}' || c == '\U{C}'
  }

  predicate NoSpaces(s: string) {
    forall i :: 0 <= i < |s| ==> !IsSpace(s[i])
  }

  function DropSpaces(s: string): (r: string)
    ensures |r| <= |s|
  {
    if s != [] && IsSpace(s[0]) then DropSpaces(s[1..]) else s
  }

  /** `s.replace(/\s+/g, "_")`: every run of whitespace becomes one underscore. */
  function UnderscoreRuns(s: string): string
    decreases |s|
  {
    if s == [] then []
    else if IsSpace(s[0]) then "_" + UnderscoreRuns(DropSpaces(s[1..]))
    else [s[0]] + UnderscoreRuns(s[1..])
  }

  /** No whitespace is left, and a text without whitespace is unchanged. */
  lemma {:induction false} UnderscoreRunsMeaning(s: string)
    ensures NoSpaces(UnderscoreRuns(s))
    ensures NoSpaces(s) ==> UnderscoreRuns(s) == s
    decreases |s|
  {
    if s != [] {
      if IsSpace(s[0]) {
        UnderscoreRunsMeaning(DropSpaces(s[1..]));
      } else {
        UnderscoreRunsMeaning(s[1..]);
      }
    }
  }

  /** `s.replace(pattern, replacement)` with a string pattern: only the first occurrence is replaced. */
  function ReplaceFirst(s: string, pattern: string, replacement: string): (r: string)
    requires pattern != []
    decreases |s|
  {
    if |pattern| <= |s| && s[..|pattern|] == pattern then replacement + s[|pattern|..]
    else if s == [] then []
    else [s[0]] + ReplaceFirst(s[1..], pattern, replacement)
  }

  /** A text in which the pattern occurs nowhere is left as it is. */
  lemma {:induction false} ReplaceFirstAbsent(s: string, pattern: string, replacement: string)
    requires pattern != []
    requires !Contains(s, pattern)
    ensures ReplaceFirst(s, pattern, replacement) == s
  {
    if s != [] {
      assert !OccursAt(s, pattern, 0);
      var t := s[1..];
      forall k | 0 <= k <= |t| - |pattern| && OccursAt(t, pattern, k)
        ensures false
      {
        assert t[k..k + |pattern|] == s[k + 1..k + 1 + |pattern|];
        assert OccursAt(s, pattern, k + 1);
      }
      ReplaceFirstAbsent(t, pattern, replacement);
    }
  }

  /** The pattern cannot occur where its first character does not. */
  lemma HeadAbsent(s: string, pattern: string)
    requires pattern != []
    requires forall k :: 0 <= k <= |s| - |pattern| ==> s[k] != pattern[0]
    ensures !Contains(s, pattern)
  {
    forall k | 0 <= k <= |s| - |pattern|
      ensures !OccursAt(s, pattern, k)
    {
      assert s[k..k + |pattern|][0] == s[k];
    }
  }

  lemma ReplaceFirstWhole(s: string, replacement: string)
    requires s != []
    ensures ReplaceFirst(s, s, replacement) == replacement
  {
    assert s[|s|..] == [];
  }

  /** The brand part of the exported file name. */
  function FileStem(brandName: string): string {
    ReplaceFirst(ReplaceFirst(ReplaceFirst(UnderscoreRuns(brandName),
      "Luck_On_Fourth", "LUCK_ON_FOURTH"), "Wami_Live", "WAMI_LIVE"), "The_Hideout", "THE_HIDEOUT")
  }

  function FileName(b: Brand, dateText: string): string {
    FileStem(BrandName(b)) + "_Invoice_" + dateText + ".pdf"
  }

  /** A single space between words becomes one underscore. */
  lemma {:induction false} UnderscoreRunsWords(a: string, rest: string)
    requires NoSpaces(a) && rest != [] && !IsSpace(rest[0])
    ensures UnderscoreRuns(a + " " + rest) == a + "_" + UnderscoreRuns(rest)
  {
    if a == [] {
      assert a + " " + rest == [' '] + rest;
      assert ([' '] + rest)[1..] == rest;
    } else {
      UnderscoreRunsWords(a[1..], rest);
      assert (a + " " + rest)[1..] == a[1..] + " " + rest;
      assert a == [a[0]] + a[1..];
    }
  }

  lemma UnderscoreRunsTwoWords(a: string, b: string)
    requires a != [] && b != [] && NoSpaces(a) && NoSpaces(b)
    ensures UnderscoreRuns(a + " " + b) == a + "_" + b
  {
    UnderscoreRunsWords(a, b);
    UnderscoreRunsMeaning(b);
  }

  lemma UnderscoreRunsThreeWords(a: string, b: string, c: string)
    requires a != [] && b != [] && c != [] && NoSpaces(a) && NoSpaces(b) && NoSpaces(c)
    ensures UnderscoreRuns(a + " " + (b + " " + c)) == a + "_" + (b + "_" + c)
  {
    var rest := b + " " + c;
    assert rest[0] == b[0];
    UnderscoreRunsWords(a, rest);
    UnderscoreRunsTwoWords(b, c);
  }

  lemma UnderscoresWamiLive(name: string)
    requires name == "Wami Live"
    ensures UnderscoreRuns(name) == "Wami_Live"
  {
    assert name == "Wami" + " " + "Live";
    UnderscoreRunsTwoWords("Wami", "Live");
  }

  lemma WamiKeepsWithoutLuck(u: string)
    requires u == "Wami_Live"
    ensures ReplaceFirst(u, "Luck_On_Fourth", "LUCK_ON_FOURTH") == u
  {
    HeadAbsent(u, "Luck_On_Fourth");
    ReplaceFirstAbsent(u, "Luck_On_Fourth", "LUCK_ON_FOURTH");
  }

  lemma WamiCapitalised(u: string)
    requires u == "Wami_Live"
    ensures ReplaceFirst(u, "Wami_Live", "WAMI_LIVE") == "WAMI_LIVE"
  {
    ReplaceFirstWhole(u, "WAMI_LIVE");
  }

  lemma WamiKeepsWithoutHideout(r: string)
    requires r == "WAMI_LIVE"
    ensures ReplaceFirst(r, "The_Hideout", "THE_HIDEOUT") == r
  {
    HeadAbsent(r, "The_Hideout");
    ReplaceFirstAbsent(r, "The_Hideout", "THE_HIDEOUT");
  }

  lemma FileStemWamiLive(name: string)
    requires name == "Wami Live"
    ensures FileStem(name) == "WAMI_LIVE"
  {
    UnderscoresWamiLive(name);
    var u := UnderscoreRuns(name);
    WamiKeepsWithoutLuck(u);
    WamiCapitalised(u);
    WamiKeepsWithoutHideout(ReplaceFirst(u, "Wami_Live", "WAMI_LIVE"));
  }

  lemma LuckOnFourthWords(name: string)
    requires name == "Luck On Fourth"
    ensures name == "Luck" + " " + ("On" + " " + "Fourth")
  {
    assert "On" + " " + "Fourth" == "On Fourth";
  }

  lemma LuckOnFourthJoined(u: string)
    requires u == "Luck" + "_" + ("On" + "_" + "Fourth")
    ensures u == "Luck_On_Fourth"
  {
    assert "On" + "_" + "Fourth" == "On_Fourth";
  }

  lemma UnderscoresLuckOnFourth(name: string)
    requires name == "Luck On Fourth"
    ensures UnderscoreRuns(name) == "Luck_On_Fourth"
  {
    LuckOnFourthWords(name);
    UnderscoreRunsThreeWords("Luck", "On", "Fourth");
    LuckOnFourthJoined(UnderscoreRuns(name));
  }

  lemma LuckCapitalised(u: string)
    requires u == "Luck_On_Fourth"
    ensures ReplaceFirst(u, "Luck_On_Fourth", "LUCK_ON_FOURTH") == "LUCK_ON_FOURTH"
  {
    ReplaceFirstWhole(u, "LUCK_ON_FOURTH");
  }

  lemma LuckKeepsWithoutWami(r: string)
    requires r == "LUCK_ON_FOURTH"
    ensures ReplaceFirst(r, "Wami_Live", "WAMI_LIVE") == r
  {
    HeadAbsent(r, "Wami_Live");
    ReplaceFirstAbsent(r, "Wami_Live", "WAMI_LIVE");
  }

  lemma LuckKeepsWithoutHideout(r: string)
    requires r == "LUCK_ON_FOURTH"
    ensures ReplaceFirst(r, "The_Hideout", "THE_HIDEOUT") == r
  {
    HeadAbsent(r, "The_Hideout");
    ReplaceFirstAbsent(r, "The_Hideout", "THE_HIDEOUT");
  }

  lemma FileStemLuckOnFourth(name: string)
    requires name == "Luck On Fourth"
    ensures FileStem(name) == "LUCK_ON_FOURTH"
  {
    UnderscoresLuckOnFourth(name);
    var u := UnderscoreRuns(name);
    LuckCapitalised(u);
    var r1 := ReplaceFirst(u, "Luck_On_Fourth", "LUCK_ON_FOURTH");
    LuckKeepsWithoutWami(r1);
    LuckKeepsWithoutHideout(ReplaceFirst(r1, "Wami_Live", "WAMI_LIVE"));
  }

  lemma UnderscoresTheHideout(name: string)
    requires name == "The Hideout"
    ensures UnderscoreRuns(name) == "The_Hideout"
  {
    assert name == "The" + " " + "Hideout";
    UnderscoreRunsTwoWords("The", "Hideout");
  }

  lemma HideoutKeepsWithoutLuck(u: string)
    requires u == "The_Hideout"
    ensures ReplaceFirst(u, "Luck_On_Fourth", "LUCK_ON_FOURTH") == u
  {
    HeadAbsent(u, "Luck_On_Fourth");
    ReplaceFirstAbsent(u, "Luck_On_Fourth", "LUCK_ON_FOURTH");
  }

  lemma HideoutKeepsWithoutWami(u: string)
    requires u == "The_Hideout"
    ensures ReplaceFirst(u, "Wami_Live", "WAMI_LIVE") == u
  {
    HeadAbsent(u, "Wami_Live");
    ReplaceFirstAbsent(u, "Wami_Live", "WAMI_LIVE");
  }

  lemma HideoutCapitalised(u: string)
    requires u == "The_Hideout"
    ensures ReplaceFirst(u, "The_Hideout", "THE_HIDEOUT") == "THE_HIDEOUT"
  {
    ReplaceFirstWhole(u, "THE_HIDEOUT");
  }

  lemma FileStemTheHideout(name: string)
    requires name == "The Hideout"
    ensures FileStem(name) == "THE_HIDEOUT"
  {
    UnderscoresTheHideout(name);
    var u := UnderscoreRuns(name);
    HideoutKeepsWithoutLuck(u);
    HideoutKeepsWithoutWami(u);
    HideoutCapitalised(u);
  }

  /** Each brand's file name starts with its name in capitals, words joined by underscores. */
  lemma FileStemOfBrand(b: Brand)
    ensures FileStem(BrandName(b)) == match b
      case WamiLive => "WAMI_LIVE"
      case LuckOnFourth => "LUCK_ON_FOURTH"
      case TheHideout => "THE_HIDEOUT"
  {
    match b
    case WamiLive => FileStemWamiLive(BrandName(b));
    case LuckOnFourth => FileStemLuckOnFourth(BrandName(b));
    case TheHideout => FileStemTheHideout(BrandName(b));
  }

  /**
   * The history record of an export: the padded number, the brand's file
   * name, the total of the prices, not paid, and the pending snapshots.
   */
  function ExportRecord(b: Brand, pending: seq<InvoiceProject>, number: int, dateText: string, newId: string, now: int): (r: ExportedInvoice)
    ensures r.totalAmount == SumPrices(pending) && !r.isPaid && r.projects == pending
    ensures r.invoiceNumber == InvoiceNumberText(number) && r.fileName == FileName(b, dateText)
  {
    ExportedInvoice(newId, InvoiceNumberText(number), FileName(b, dateText), SumPrices(pending), now, false, pending)
  }

  /**
   * The data side of generateInvoicePDF for a non-empty pending list: the
   * table rows and the history record, whose total is the one the table
   * loop accumulates.
   */
  method PrepareExport(b: Brand, pending: seq<InvoiceProject>, number: int, dateText: string, newId: string, now: int)
    returns (record: ExportedInvoice, lines: seq<TableLine>)
    ensures record == ExportRecord(b, pending, number, dateText, newId, now)
    ensures lines == Lines(pending)
  {
    var total, yPos;
    total, yPos, lines := LayoutRows(pending);
    record := ExportedInvoice(newId, InvoiceNumberText(number), FileName(b, dateText), total, now, false, pending);
  }

  // ---------------------------------------------------------------------
  // The invoice manager's state and handlers

  class InvoiceManager {
    /** The page whose pending and exported dictionaries this manager edits. */
    const page: Dashboard
    var invoiceNumbers: map<Brand, int>

    ghost predicate Valid()
      reads this, page
    {
      Complete(invoiceNumbers) && page.Valid()
    }

    constructor (page: Dashboard)
      requires page.Valid()
      ensures this.page == page && invoiceNumbers == BrandMap(1)
      ensures Valid()
    {
      this.page := page;
      invoiceNumbers := BrandMap(1);
    }

    /**
     * The load effect. A failed pending query changes nothing; a failed
     * history query keeps only the grouped pending lists; a failed counter
     * query keeps the counters as they were.
     */
    method LoadInvoiceData(pendingRows: Option<seq<InvoiceRow>>, historyRows: Option<seq<ExportedRow>>,
                           counterRows: Option<seq<CounterRow>>) returns (outcome: Outcome)
      requires Valid()
      modifies page`invoiceProjects, page`exportedInvoices, this`invoiceNumbers
      ensures Valid()
      ensures pendingRows.None? ==>
        outcome == BackendError && page.invoiceProjects == old(page.invoiceProjects)
        && page.exportedInvoices == old(page.exportedInvoices) && invoiceNumbers == old(invoiceNumbers)
      ensures pendingRows.Some? ==>
        forall b: Brand :: page.invoiceProjects[b] == OfBrand(pendingRows.value, InvoiceRowBrand, RowSnapshot, b)
      ensures pendingRows.Some? && historyRows.None? ==>
        outcome == BackendError && page.exportedInvoices == old(page.exportedInvoices) && invoiceNumbers == old(invoiceNumbers)
      ensures pendingRows.Some? && historyRows.Some? ==>
        && outcome == Success
        && (forall b: Brand :: page.exportedInvoices[b] == OfBrand(historyRows.value, ExportedRowBrand, RowRecord, b))
        && (counterRows.None? ==> invoiceNumbers == old(invoiceNumbers))
        && (counterRows.Some? ==> forall b: Brand :: invoiceNumbers[b] == LastCounter(counterRows.value, b))
    {
      if pendingRows.None? {
        return BackendError;
      }
      var pending := GroupByBrand(pendingRows.value, InvoiceRowBrand, RowSnapshot);
      forall b: Brand, x: InvoiceProject | b in pending && x in pending[b]
        ensures x.project.brand == b
      {
        GroupedSnapshots(pendingRows.value, b, x);
      }
      page.invoiceProjects := pending;
      if historyRows.None? {
        return BackendError;
      }
      page.exportedInvoices := GroupByBrand(historyRows.value, ExportedRowBrand, RowRecord);
      if counterRows.Some? {
        invoiceNumbers := CounterDefaults(counterRows.value);
      }
      outcome := Success;
    }

    /** removeFromInvoice: after the backend agrees, the project leaves that brand's pending list only. */
    method RemoveFromInvoice(brand: Brand, projectId: Id, ok: bool) returns (outcome: Outcome)
      requires Valid()
      modifies page`invoiceProjects
      ensures Valid()
      ensures ok ==>
        && outcome == Success
        && page.invoiceProjects == old(page.invoiceProjects)[brand := WithoutInvoiceProject(old(page.invoiceProjects)[brand], projectId)]
      ensures ok ==>
        BrandTotal(page.invoiceProjects, brand)
        == BrandTotal(old(page.invoiceProjects), brand) - SumPrices(OnlyInvoiceProject(old(page.invoiceProjects)[brand], projectId))
      ensures !ok ==> outcome == BackendError && page.invoiceProjects == old(page.invoiceProjects)
    {
      if !ok {
        return BackendError;
      }
      BrandTotalRemoval(page.invoiceProjects, brand, projectId);
      page.invoiceProjects := page.invoiceProjects[brand := WithoutInvoiceProject(page.invoiceProjects[brand], projectId)];
      outcome := Success;
    }

    /**
     * toggleInvoicePaid: the local flip happens whatever the backend says;
     * `sent` is the flag written to the backend.
     */
    method ToggleInvoicePaid(brand: Brand, invoiceId: string, ok: bool) returns (sent: bool, outcome: Outcome)
      requires Valid()
      modifies page`exportedInvoices
      ensures Valid()
      ensures page.exportedInvoices == old(page.exportedInvoices)[brand := TogglePaid(old(page.exportedInvoices)[brand], invoiceId)]
      ensures sent == PaidFlagSent(old(page.exportedInvoices)[brand], invoiceId)
      ensures outcome == if ok then Success else BackendError
    {
      sent := PaidFlagSent(page.exportedInvoices[brand], invoiceId);
      page.exportedInvoices := page.exportedInvoices[brand := TogglePaid(page.exportedInvoices[brand], invoiceId)];
      outcome := if ok then Success else BackendError;
    }

    /** clearInvoiceHistory: an empty history is an error; otherwise, once the backend agrees, only that brand's history empties. */
    method ClearInvoiceHistory(brand: Brand, ok: bool) returns (outcome: Outcome)
      requires Valid()
      modifies page`exportedInvoices
      ensures Valid()
      ensures old(page.exportedInvoices)[brand] == [] ==>
        outcome == ValidationError && page.exportedInvoices == old(page.exportedInvoices)
      ensures old(page.exportedInvoices)[brand] != [] && !ok ==>
        outcome == BackendError && page.exportedInvoices == old(page.exportedInvoices)
      ensures old(page.exportedInvoices)[brand] != [] && ok ==>
        outcome == Success && page.exportedInvoices == old(page.exportedInvoices)[brand := []]
    {
      if |page.exportedInvoices[brand]| == 0 {
        return ValidationError;
      }
      if !ok {
        return BackendError;
      }
      page.exportedInvoices := page.exportedInvoices[brand := []];
      outcome := Success;
    }

    /**
     * generateInvoicePDF without the drawing. An empty pending list is an
     * error and changes nothing; any other list is exported by ExportPending.
     */
    method ExportInvoice(brand: Brand, rpcOk: bool, data: Option<int>, now: int, dateText: string,
                         newId: string, insertOk: bool, clearOk: bool)
      returns (outcome: Outcome, lines: seq<TableLine>)
      requires Valid()
      modifies page`invoiceProjects, page`exportedInvoices, this`invoiceNumbers
      ensures Valid()
      ensures old(page.invoiceProjects)[brand] == [] ==>
        && outcome == ValidationError && lines == []
        && page.invoiceProjects == old(page.invoiceProjects)
        && page.exportedInvoices == old(page.exportedInvoices) && invoiceNumbers == old(invoiceNumbers)
      ensures old(page.invoiceProjects)[brand] != [] ==>
        Exported(brand, NextInvoiceNumber(rpcOk, data, old(invoiceNumbers)[brand]), dateText, newId, now, insertOk, clearOk, outcome, lines)
    {
      if page.invoiceProjects[brand] == [] {
        return ValidationError, [];
      }
      outcome, lines := ExportPending(brand, rpcOk, data, now, dateText, newId, insertOk, clearOk);
    }

    /**
     * The effect of exporting the brand's non-empty pending list under the
     * given number. A record with that number, the brand's file name, the
     * total of the prices, isPaid false and a copy of the pending list is
     * appended to the brand's history, and the table drawn is Lines of the
     * pending list. Only when the history insert succeeds does the counter
     * move past the number and the pending list empty.
     */
    twostate predicate Exported(brand: Brand, number: int, dateText: string, newId: string, now: int,
                                insertOk: bool, clearOk: bool, outcome: Outcome, lines: seq<TableLine>)
      reads this, page
      requires old(Valid()) && Valid()
    {
      var pending := old(page.invoiceProjects)[brand];
      var record := ExportRecord(brand, pending, number, dateText, newId, now);
      && lines == Lines(pending)
      && page.exportedInvoices == old(page.exportedInvoices)[brand := old(page.exportedInvoices)[brand] + [record]]
      && (insertOk ==>
            && invoiceNumbers == old(invoiceNumbers)[brand := number + 1]
            && page.invoiceProjects == old(page.invoiceProjects)[brand := []]
            && outcome == (if clearOk then Success else BackendError))
      && (!insertOk ==>
            && invoiceNumbers == old(invoiceNumbers)
            && page.invoiceProjects == old(page.invoiceProjects)
            && outcome == BackendError)
    }

    method ExportPending(brand: Brand, rpcOk: bool, data: Option<int>, now: int, dateText: string,
                         newId: string, insertOk: bool, clearOk: bool)
      returns (outcome: Outcome, lines: seq<TableLine>)
      requires Valid() && page.invoiceProjects[brand] != []
      modifies page`invoiceProjects, page`exportedInvoices, this`invoiceNumbers
      ensures Valid()
      ensures Exported(brand, NextInvoiceNumber(rpcOk, data, old(invoiceNumbers)[brand]), dateText, newId, now, insertOk, clearOk, outcome, lines)
    {
      var pending := page.invoiceProjects[brand];
      var number := NextInvoiceNumber(rpcOk, data, invoiceNumbers[brand]);
      var record;
      record, lines := PrepareExport(brand, pending, number, dateText, newId, now);
      if !insertOk {
        AppendToHistory(brand, record);
        return BackendError, lines;
      }
      CommitExport(brand, record, number);
      outcome := if clearOk then Success else BackendError;
    }

    /** The exported record joins the end of the brand's history. */
    method AppendToHistory(brand: Brand, record: ExportedInvoice)
      requires Valid()
      modifies page`exportedInvoices
      ensures Valid()
      ensures page.exportedInvoices == old(page.exportedInvoices)[brand := old(page.exportedInvoices)[brand] + [record]]
    {
      page.exportedInvoices := page.exportedInvoices[brand := page.exportedInvoices[brand] + [record]];
    }

    /**
     * A saved export: the record joins the history, the brand's counter
     * moves past the number and its pending list empties.
     */
    method CommitExport(brand: Brand, record: ExportedInvoice, number: int)
      requires Valid()
      modifies page`invoiceProjects, page`exportedInvoices, this`invoiceNumbers
      ensures Valid()
      ensures page.exportedInvoices == old(page.exportedInvoices)[brand := old(page.exportedInvoices)[brand] + [record]]
      ensures invoiceNumbers == old(invoiceNumbers)[brand := number + 1]
      ensures page.invoiceProjects == old(page.invoiceProjects)[brand := []]
    {
      page.exportedInvoices := page.exportedInvoices[brand := page.exportedInvoices[brand] + [record]];
      invoiceNumbers := invoiceNumbers[brand := number + 1];
      page.invoiceProjects := page.invoiceProjects[brand := []];
    }
  }
}
