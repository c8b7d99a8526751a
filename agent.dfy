/** The agent's deterministic query processing (`process_query`): the
    trace it reports, the keyword routing of a question, the integer and
    set computations of the four hard-coded analyses, and the history text
    it would hand to the language model. */
module Agent {
  import opened Wrappers
  import opened Text
  import opened Boards
  import opened Detect
  import opened Conversation

  /** The status labels whose presence marks a deal's status column. */
  const StatusValues: seq<string> := ["Open", "Won", "Dead"]

  // ---------------------------------------------------------------------------
  // Trace and routing
  // ---------------------------------------------------------------------------

  /** The diagnostic `trace` dict returned with every answer. */
  datatype Trace = Trace(
    mondayApiCalled: bool,
    dealsFetched: nat,
    workOrdersFetched: nat,
    statusColumn: Option<string>,
    revenueColumn: Option<string>,
    companyColumn: Option<string>,
    workOrderCompanyColumn: Option<string>)

  /** The trace for the rows of the two boards. */
  function TraceOf(deals: seq<Row>, workOrders: seq<Row>): (t: Trace)
    ensures t.mondayApiCalled && t.dealsFetched == |deals| && t.workOrdersFetched == |workOrders|
    ensures deals == [] ==> t.statusColumn == None && t.revenueColumn == None && t.companyColumn == None
    ensures t.statusColumn.Some? ==> deals != [] && t.statusColumn.value in deals[0].keys
    ensures t.revenueColumn.Some? ==> deals != [] && t.revenueColumn.value in deals[0].keys
    ensures t.companyColumn.Some? ==> deals != [] && t.companyColumn.value in deals[0].keys
    ensures t.workOrderCompanyColumn.Some? ==>
      workOrders != [] && t.workOrderCompanyColumn.value in workOrders[0].keys
  {
    DetectedColumns(deals, StatusValues);
    DetectedColumns(workOrders, StatusValues);
    Trace(true, |deals|, |workOrders|,
          ColumnWithValueIn(deals, StatusValues), NumericColumn(deals),
          CompanyColumn(deals), CompanyColumn(workOrders))
  }

  /** Python truthiness of a detected column: found, and not "". */
  predicate Found(col: Option<string>) {
    col.Some? && col.value != ""
  }

  /** The five ways a question is answered. */
  datatype Branch = Conversion | Funnel | DataQuality | TotalRevenue | LlmFallback

  /** The keyword routing on the lowercased question, tried in order; the
      conversion and revenue branches also need their columns, and fall
      through to the next test without them. */
  function Route(query: string, t: Trace): (b: Branch)
    ensures var q := Lower(query);
      b == Conversion ==>
        (Contains(q, "work order") || Contains(q, "conversion")) &&
        Found(t.companyColumn) && Found(t.workOrderCompanyColumn) && Found(t.statusColumn)
    ensures var q := Lower(query);
      b == Funnel ==> Contains(q, "win rate") || Contains(q, "funnel")
    ensures var q := Lower(query);
      b == DataQuality ==>
        (Contains(q, "data quality") || Contains(q, "inconsistency")) &&
        !Contains(q, "win rate") && !Contains(q, "funnel")
    ensures var q := Lower(query);
      b == TotalRevenue ==>
        Contains(q, "revenue") && Found(t.revenueColumn) &&
        !Contains(q, "win rate") && !Contains(q, "funnel") &&
        !Contains(q, "data quality") && !Contains(q, "inconsistency")
    ensures var q := Lower(query);
      (Contains(q, "work order") || Contains(q, "conversion")) &&
      Found(t.companyColumn) && Found(t.workOrderCompanyColumn) && Found(t.statusColumn) ==>
        b == Conversion
    ensures var q := Lower(query);
      b == LlmFallback ==>
        !(Contains(q, "revenue") && Found(t.revenueColumn)) &&
        !Contains(q, "win rate") && !Contains(q, "funnel") &&
        !Contains(q, "data quality") && !Contains(q, "inconsistency")
  {
    var q := Lower(query);
    if (Contains(q, "work order") || Contains(q, "conversion")) &&
       Found(t.companyColumn) && Found(t.workOrderCompanyColumn) && Found(t.statusColumn)
    then Conversion
    else if Contains(q, "win rate") || Contains(q, "funnel") then Funnel
    else if Contains(q, "data quality") || Contains(q, "inconsistency") then DataQuality
    else if Contains(q, "revenue") && Found(t.revenueColumn) then TotalRevenue
    else LlmFallback
  }

  /** Routing ignores the letter case of the question. */
  lemma RouteCaseInsensitive(query: string, t: Trace)
    ensures Route(Lower(query), t) == Route(query, t)
  {
    LowerIdempotent(query);
  }

  /** The columns decide the two column-dependent branches: a conversion
      question with all three columns found gets the conversion report,
      and a revenue question with a revenue column and no earlier keyword
      gets the total. */
  lemma RouteWhenColumnsFound(query: string, t: Trace)
    ensures var q := Lower(query);
      (Contains(q, "work order") || Contains(q, "conversion")) &&
      Found(t.companyColumn) && Found(t.workOrderCompanyColumn) && Found(t.statusColumn) ==>
        Route(query, t) == Conversion
    ensures var q := Lower(query);
      Contains(q, "revenue") && Found(t.revenueColumn) &&
      !Contains(q, "work order") && !Contains(q, "conversion") &&
      !Contains(q, "win rate") && !Contains(q, "funnel") &&
      !Contains(q, "data quality") && !Contains(q, "inconsistency") ==>
        Route(query, t) == TotalRevenue
  {
  }

  /** A question naming the funnel, the win rate, data quality or an
      inconsistency is always answered by a hard-coded analysis, never by
      the language model; with no revenue column, only such questions
      and conversion questions avoid the model. */
  lemma RouteKeywordsAvoidModel(query: string, t: Trace)
    ensures var q := Lower(query);
      (Contains(q, "win rate") || Contains(q, "funnel") ||
       Contains(q, "data quality") || Contains(q, "inconsistency")) ==>
      Route(query, t) != LlmFallback
    ensures !Found(t.revenueColumn) && Route(query, t) != LlmFallback ==>
      Route(query, t) in {Conversion, Funnel, DataQuality}
  {
  }

  /** With an empty deals board no column is found, so a conversion
      question falls through and nothing is routed to the revenue total. */
  lemma RouteEmptyDeals(query: string, workOrders: seq<Row>)
    ensures Route(query, TraceOf([], workOrders)) in {Funnel, DataQuality, LlmFallback}
  {
  }

  // ---------------------------------------------------------------------------
  // Counting rows
  // ---------------------------------------------------------------------------

  /** The number of rows satisfying `p` (a `sum(1 for d in rows if ...)`). */
  function Count(rows: seq<Row>, p: Row -> bool): (n: nat)
    ensures n <= |rows|
  {
    if rows == [] then 0
    else Count(rows[..|rows| - 1], p) + (if p(rows[|rows| - 1]) then 1 else 0)
  }

  /** Counts of three mutually exclusive tests add up to at most the
      number of rows. */
  lemma {:induction false} CountExclusive(rows: seq<Row>, p: Row -> bool, q: Row -> bool, r: Row -> bool)
    requires forall d :: !(p(d) && q(d)) && !(p(d) && r(d)) && !(q(d) && r(d))
    ensures Count(rows, p) + Count(rows, q) + Count(rows, r) <= |rows|
  {
    if rows != [] {
      CountExclusive(rows[..|rows| - 1], p, q, r);
    }
  }

  /** A test every row passes counts every row. */
  lemma {:induction false} CountAll(rows: seq<Row>, p: Row -> bool)
    requires forall i :: 0 <= i < |rows| ==> p(rows[i])
    ensures Count(rows, p) == |rows|
  {
    if rows != [] {
      CountAll(rows[..|rows| - 1], p);
    }
  }

  /** The set of values `f` gives the rows is no larger than the rows. */
  lemma {:induction false} ImageBound(rows: seq<Row>, f: Row -> string)
    ensures |set i | 0 <= i < |rows| :: f(rows[i])| <= |rows|
  {
    if rows != [] {
      var init := rows[..|rows| - 1];
      ImageBound(init, f);
      var s := set i | 0 <= i < |rows| :: f(rows[i]);
      var s' := set i | 0 <= i < |init| :: f(init[i]);
      assert s == s' + {f(rows[|rows| - 1])} by {
        forall x | x in s ensures x in s' + {f(rows[|rows| - 1])} {
          var i :| 0 <= i < |rows| && x == f(rows[i]);
          if i < |init| {
            assert init[i] == rows[i];
          }
        }
        forall x | x in s' ensures x in s {
          var i :| 0 <= i < |init| && x == f(init[i]);
          assert init[i] == rows[i];
        }
      }
    }
  }

  // ---------------------------------------------------------------------------
  // Conversion: won deals against work orders
  // ---------------------------------------------------------------------------

  /** `re.sub(r'[^a-z0-9]', '', s)`. */
  function KeepAlnum(s: string): (r: string)
    ensures |r| <= |s|
  {
    if s == [] then []
    else if IsAsciiLower(s[0]) || IsAsciiDigit(s[0]) then [s[0]] + KeepAlnum(s[1..])
    else KeepAlnum(s[1..])
  }

  /** The inner `normalize`: lowercase, then keep only `[a-z0-9]`. */
  function Normalize(name: string): (r: string)
    ensures |r| <= |name|
    ensures forall c :: c in r <==> c in Lower(name) && (IsAsciiLower(c) || IsAsciiDigit(c))
  {
    KeepAlnumSpec(Lower(name));
    LowerAt(name);
    KeepAlnum(Lower(name))
  }

  lemma {:induction false} KeepAlnumSpec(s: string)
    ensures forall c :: c in KeepAlnum(s) <==> c in s && (IsAsciiLower(c) || IsAsciiDigit(c))
  {
    if s != [] {
      KeepAlnumSpec(s[1..]);
      assert s == [s[0]] + s[1..];
    }
  }

  lemma {:induction false} KeepAlnumOfAlnum(s: string)
    requires forall i :: 0 <= i < |s| ==> IsAsciiLower(s[i]) || IsAsciiDigit(s[i])
    ensures KeepAlnum(s) == s
  {
    if s != [] {
      KeepAlnumOfAlnum(s[1..]);
    }
  }

  lemma {:induction false} LowerOfAlnum(s: string)
    requires forall i :: 0 <= i < |s| ==> IsAsciiLower(s[i]) || IsAsciiDigit(s[i])
    ensures Lower(s) == s
  {
    if s != [] {
      LowerOfAlnum(s[1..]);
    }
  }

  /** A normalised name holds only lowercase letters and digits, and
      normalising it again changes nothing. */
  lemma NormalizeSpec(name: string)
    ensures forall c :: c in Normalize(name) ==> IsAsciiLower(c) || IsAsciiDigit(c)
    ensures Normalize(Normalize(name)) == Normalize(name)
  {
    var n := Normalize(name);
    KeepAlnumSpec(Lower(name));
    assert forall i :: 0 <= i < |n| ==> n[i] in n;
    LowerOfAlnum(n);
    KeepAlnumOfAlnum(n);
  }

  lemma {:induction false} LowerConcat(a: string, b: string)
    ensures Lower(a + b) == Lower(a) + Lower(b)
  {
    if a != [] {
      LowerConcat(a[1..], b);
      assert (a + b)[1..] == a[1..] + b;
    } else {
      assert a + b == b;
    }
  }

  lemma {:induction false} KeepAlnumConcat(a: string, b: string)
    ensures KeepAlnum(a + b) == KeepAlnum(a) + KeepAlnum(b)
  {
    if a != [] {
      KeepAlnumConcat(a[1..], b);
      assert (a + b)[1..] == a[1..] + b;
    } else {
      assert a + b == b;
    }
  }

  /** Names that differ only in characters other than letters and digits
      (spaces, dots, dashes, ...) normalise alike. */
  lemma NormalizeIgnoresPunctuation(a: string, c: char, b: string)
    requires !IsAsciiUpper(c) && !IsAsciiLower(c) && !IsAsciiDigit(c)
    ensures Normalize(a + [c] + b) == Normalize(a + b)
  {
    var la, lb := Lower(a), Lower(b);
    LowerConcat(a + [c], b);
    LowerConcat(a, [c]);
    LowerConcat(a, b);
    assert Lower([c]) == [c];
    assert Lower(a + [c] + b) == la + [c] + lb;
    KeepAlnumConcat(la + [c], lb);
    KeepAlnumConcat(la, [c]);
    KeepAlnumConcat(la, lb);
    assert KeepAlnum([c]) == [];
    calc {
      Normalize(a + [c] + b);
      KeepAlnum(la + [c] + lb);
      KeepAlnum(la) + KeepAlnum([c]) + KeepAlnum(lb);
      KeepAlnum(la) + KeepAlnum(lb);
      KeepAlnum(la + lb);
      Normalize(a + b);
    }
  }

  /** Names that differ only in letter case normalise alike. */
  lemma NormalizeIgnoresCase(a: string)
    ensures Normalize(Lower(a)) == Normalize(a)
  {
    LowerIdempotent(a);
  }

  /** `str(deal.get(status_column, "")).lower()`. */
  function StatusOf(d: Row, statusColumn: Option<string>): string {
    Lower(PyStr(Get(d, statusColumn)))
  }

  /** `won_companies`: normalised companies of the deals whose status is "won". */
  function WonCompanies(deals: seq<Row>, statusColumn: Option<string>, companyColumn: Option<string>): set<string> {
    set i | 0 <= i < |deals| && StatusOf(deals[i], statusColumn) == "won" ::
      Normalize(PyStr(Get(deals[i], companyColumn)))
  }

  /** `wo_companies`: normalised companies of all work orders. */
  function WorkOrderCompanies(workOrders: seq<Row>, woCompanyColumn: Option<string>): set<string> {
    set i | 0 <= i < |workOrders| :: Normalize(PyStr(Get(workOrders[i], woCompanyColumn)))
  }

  /** There are never more converted companies than won ones (so the
      conversion rate never exceeds 100%) or than work-order companies,
      and never more of either than rows. */
  lemma ConvertedBounded(deals: seq<Row>, workOrders: seq<Row>, status: Option<string>,
                         company: Option<string>, woCompany: Option<string>)
    ensures var won := WonCompanies(deals, status, company);
      var wo := WorkOrderCompanies(workOrders, woCompany);
      |won * wo| <= |won| <= |deals| && |won * wo| <= |wo| <= |workOrders|
  {
    var won := WonCompanies(deals, status, company);
    var wo := WorkOrderCompanies(workOrders, woCompany);
    SubsetBound(won * wo, won);
    SubsetBound(won * wo, wo);
    var f := (d: Row) => Normalize(PyStr(Get(d, company)));
    var all := set i | 0 <= i < |deals| :: f(deals[i]);
    ImageBound(deals, f);
    SubsetBound(won, all);
    var g := (w: Row) => Normalize(PyStr(Get(w, woCompany)));
    ImageBound(workOrders, g);
    assert wo == set i | 0 <= i < |workOrders| :: g(workOrders[i]);
  }

  /** `converted = won_companies & wo_companies`: a company is converted
      when some won deal and some work order name it alike. */
  lemma ConvertedMember(deals: seq<Row>, workOrders: seq<Row>, status: Option<string>,
                        company: Option<string>, woCompany: Option<string>, x: string)
    ensures x in WonCompanies(deals, status, company) * WorkOrderCompanies(workOrders, woCompany) <==>
      (exists i :: 0 <= i < |deals| && StatusOf(deals[i], status) == "won" &&
         Normalize(PyStr(Get(deals[i], company))) == x) &&
      (exists j :: 0 <= j < |workOrders| && Normalize(PyStr(Get(workOrders[j], woCompany))) == x)
  {
  }

  lemma SubsetBound(a: set<string>, b: set<string>)
    requires a <= b
    ensures |a| <= |b|
  {
    assert b == a + (b - a);
  }

  // ---------------------------------------------------------------------------
  // Funnel counts
  // ---------------------------------------------------------------------------

  /** Deals whose lowercased status is exactly `label`. */
  function StatusCount(deals: seq<Row>, statusColumn: Option<string>, wanted: string): nat {
    Count(deals, d => StatusOf(d, statusColumn) == wanted)
  }

  /** The counting loop of the funnel analysis. */
  method FunnelCounts(deals: seq<Row>, statusColumn: Option<string>) returns (won: nat, dead: nat, openDeals: nat)
    ensures won == StatusCount(deals, statusColumn, "won")
    ensures dead == StatusCount(deals, statusColumn, "dead")
    ensures openDeals == StatusCount(deals, statusColumn, "open")
  {
    won, dead, openDeals := 0, 0, 0;
    var i := 0;
    while i < |deals|
      invariant 0 <= i <= |deals|
      invariant won == StatusCount(deals[..i], statusColumn, "won")
      invariant dead == StatusCount(deals[..i], statusColumn, "dead")
      invariant openDeals == StatusCount(deals[..i], statusColumn, "open")
    {
      assert deals[..i + 1][..i] == deals[..i];
      var status := Lower(PyStr(Get(deals[i], statusColumn)));
      if status == "won" {
        won := won + 1;
      } else if status == "dead" {
        dead := dead + 1;
      } else if status == "open" {
        openDeals := openDeals + 1;
      }
      i := i + 1;
    }
    assert deals[..i] == deals;
  }

  /** Every deal is counted at most once across won, dead and open; deals
      with any other status, a null status or no status column count in
      none of them. */
  lemma FunnelBounded(deals: seq<Row>, statusColumn: Option<string>)
    ensures StatusCount(deals, statusColumn, "won") + StatusCount(deals, statusColumn, "dead") +
            StatusCount(deals, statusColumn, "open") <= |deals|
  {
    CountExclusive(deals, d => StatusOf(d, statusColumn) == "won",
                   d => StatusOf(d, statusColumn) == "dead",
                   d => StatusOf(d, statusColumn) == "open");
  }

  /** The status test ignores case: a "WON" cell is a won deal. */
  lemma StatusIgnoresCase(name: string, col: string)
    ensures StatusOf(Row(["name", col], map["name" := Str(name), col := Str("WON")]), Some(col)) == "won"
  {
  }

  // ---------------------------------------------------------------------------
  // Data quality
  // ---------------------------------------------------------------------------

  /** Deals whose `str(d.get(column, "")).strip()` is empty. */
  function MissingCount(deals: seq<Row>, column: Option<string>): (n: nat)
    ensures n <= |deals|
  {
    Count(deals, d => PyStrip(PyStr(Get(d, column))) == "")
  }

  /** Without a detected column every deal counts as missing it. */
  lemma MissingWithoutColumn(deals: seq<Row>)
    ensures MissingCount(deals, None) == |deals|
  {
    CountAll(deals, d => PyStrip(PyStr(Get(d, None))) == "");
  }

  /** A null cell reads as "None" and is not counted as missing; a cell of
      blanks is. */
  lemma MissingReadsNullAsNone()
    ensures PyStrip(PyStr(Some(Null))) != ""
    ensures PyStrip(PyStr(Some(Str(" \t")))) == ""
  {
    StripEmptyIff(PyStr(Some(Null)), IsPyWhitespace);
    assert !IsPyWhitespace(PyStr(Some(Null))[0]);
    StripEmptyIff(" \t", IsPyWhitespace);
  }

  /** The lowercased (not normalised) companies of a board. */
  function LowerCompanies(rows: seq<Row>, column: Option<string>): set<string> {
    set i | 0 <= i < |rows| :: Lower(PyStr(Get(rows[i], column)))
  }

  /** `inconsistent_company_ids`: deal companies with no work order of the
      same lowercased name, when both company columns were found. */
  function InconsistentCount(deals: seq<Row>, workOrders: seq<Row>,
                             company: Option<string>, woCompany: Option<string>): (n: nat)
    ensures n <= |LowerCompanies(deals, company)|
    ensures !Found(company) || !Found(woCompany) ==> n == 0
  {
    if Found(company) && Found(woCompany) then
      var a := LowerCompanies(deals, company);
      SubsetBound(a - LowerCompanies(workOrders, woCompany), a);
      |a - LowerCompanies(workOrders, woCompany)|
    else 0
  }

  /** The inconsistency count is at most the number of distinct deal
      companies, hence of deals, and it is zero when every deal company
      appears among the work orders. */
  lemma InconsistentBounded(deals: seq<Row>, workOrders: seq<Row>,
                            company: Option<string>, woCompany: Option<string>)
    ensures InconsistentCount(deals, workOrders, company, woCompany) <= |LowerCompanies(deals, company)| <= |deals|
    ensures LowerCompanies(deals, company) <= LowerCompanies(workOrders, woCompany) ==>
      InconsistentCount(deals, workOrders, company, woCompany) == 0
  {
    var a := LowerCompanies(deals, company);
    var b := LowerCompanies(workOrders, woCompany);
    SubsetBound(a - b, a);
    var f := (d: Row) => Lower(PyStr(Get(d, company)));
    ImageBound(deals, f);
    assert a == set i | 0 <= i < |deals| :: f(deals[i]);
    if a <= b {
      assert a - b == {};
    }
  }

  // ---------------------------------------------------------------------------
  // History given to the language model
  // ---------------------------------------------------------------------------

  /** `f"{m['role'].upper()}: {m['content']}"`. */
  function HistoryLine(m: Message): string {
    Upper(m.role) + ": " + m.content
  }

  function HistoryLines(history: seq<Message>): seq<string> {
    seq(|history|, i requires 0 <= i < |history| => HistoryLine(history[i]))
  }

  /** `history_context`: "" for no history, else the lines joined by newlines. */
  function HistoryContext(history: seq<Message>): (s: string)
    ensures s == "" <==> history == []
    ensures |history| == 1 ==> s == HistoryLine(history[0])
  {
    if history == [] then ""
    else
      var lines := HistoryLines(history);
      assert |lines[0]| >= 2;
      Join(lines, "\n")
  }

  /** Each further message adds a newline and its line to the text, so the
      text of a history begins with the text of each earlier history. */
  lemma HistoryContextAppend(history: seq<Message>, m: Message)
    ensures HistoryContext(history + [m]) ==
      if history == [] then HistoryLine(m) else HistoryContext(history) + "\n" + HistoryLine(m)
  {
    assert HistoryLines(history + [m]) == HistoryLines(history) + [HistoryLine(m)];
    JoinAppend(HistoryLines(history), HistoryLine(m), "\n");
  }

  // ---------------------------------------------------------------------------
  // process_query
  // ---------------------------------------------------------------------------

  /** The exact, non-floating part of what each branch reports. */
  datatype Analysis =
    | ConversionReport(converted: nat, wonCompanies: nat)
    | FunnelReport(won: nat, dead: nat, open: nat)
    | QualityReport(missingRevenue: nat, missingStatus: nat, inconsistentCompanies: nat)
    | RevenueReport
    | ModelPrompt(dealCount: nat, workOrderCount: nat, historyContext: string, question: string)

  datatype Reply = Reply(analysis: Analysis, trace: Trace)

  /** What `process_query` computes from the question, the two boards' rows
      and the history. */
  function Analyze(query: string, deals: seq<Row>, workOrders: seq<Row>, history: seq<Message>): (a: Analysis)
    ensures var b := Route(query, TraceOf(deals, workOrders));
      (a.ConversionReport? <==> b == Conversion) && (a.FunnelReport? <==> b == Funnel) &&
      (a.QualityReport? <==> b == DataQuality) && (a.RevenueReport? <==> b == TotalRevenue) &&
      (a.ModelPrompt? <==> b == LlmFallback)
    ensures a.ModelPrompt? ==> a.historyContext == HistoryContext(history) && a.question == query
  {
    var t := TraceOf(deals, workOrders);
    match Route(query, t)
    case Conversion =>
      var won := WonCompanies(deals, t.statusColumn, t.companyColumn);
      ConversionReport(|won * WorkOrderCompanies(workOrders, t.workOrderCompanyColumn)|, |won|)
    case Funnel =>
      FunnelReport(StatusCount(deals, t.statusColumn, "won"), StatusCount(deals, t.statusColumn, "dead"),
                   StatusCount(deals, t.statusColumn, "open"))
    case DataQuality =>
      QualityReport(MissingCount(deals, t.revenueColumn), MissingCount(deals, t.statusColumn),
                    InconsistentCount(deals, workOrders, t.companyColumn, t.workOrderCompanyColumn))
    case TotalRevenue => RevenueReport
    case LlmFallback => ModelPrompt(|deals|, |workOrders|, HistoryContext(history), query)
  }

  /** `process_query` on the two fetched board responses. */
  method ProcessQuery(query: string, dealsRaw: BoardResponse, workOrdersRaw: BoardResponse,
                      history: seq<Message>) returns (reply: Reply)
    ensures reply.trace == TraceOf(Flatten(dealsRaw), Flatten(workOrdersRaw))
    ensures reply.trace.mondayApiCalled
    ensures reply.trace.dealsFetched == |Items(dealsRaw)|
    ensures reply.trace.workOrdersFetched == |Items(workOrdersRaw)|
    ensures reply.analysis == Analyze(query, Flatten(dealsRaw), Flatten(workOrdersRaw), history)
  {
    var deals := ExtractItems(dealsRaw);
    var workOrders := ExtractItems(workOrdersRaw);
    var statusColumn := DetectColumn(deals, StatusValues);
    var revenueColumn := DetectNumericColumn(deals);
    var companyColumn := DetectCompanyColumn(deals);
    var woCompanyColumn := DetectCompanyColumn(workOrders);
    var trace := Trace(true, |deals|, |workOrders|, statusColumn, revenueColumn,
                       companyColumn, woCompanyColumn);
    match Route(query, trace) {
      case Conversion =>
        var wonCompanies := WonCompanies(deals, statusColumn, companyColumn);
        var woCompanies := WorkOrderCompanies(workOrders, woCompanyColumn);
        var converted := wonCompanies * woCompanies;
        reply := Reply(ConversionReport(|converted|, |wonCompanies|), trace);
      case Funnel =>
        var won, dead, openDeals := FunnelCounts(deals, statusColumn);
        reply := Reply(FunnelReport(won, dead, openDeals), trace);
      case DataQuality =>
        var missingRevenue := MissingCount(deals, revenueColumn);
        var missingStatus := MissingCount(deals, statusColumn);
        var inconsistent := InconsistentCount(deals, workOrders, companyColumn, woCompanyColumn);
        reply := Reply(QualityReport(missingRevenue, missingStatus, inconsistent), trace);
      case TotalRevenue =>
        reply := Reply(RevenueReport, trace);
      case LlmFallback =>
        reply := Reply(ModelPrompt(|deals|, |workOrders|, HistoryContext(history), query), trace);
    }
  }

  /** The reported numbers keep their bounds: converted companies at most
      won ones, funnel counts at most the deals, missing counts and
      inconsistent companies at most the deals. */
  lemma AnalyzeBounded(query: string, deals: seq<Row>, workOrders: seq<Row>, history: seq<Message>)
    ensures match Analyze(query, deals, workOrders, history)
      case ConversionReport(c, w) => c <= w <= |deals|
      case FunnelReport(won, dead, open) => won + dead + open <= |deals|
      case QualityReport(mr, ms, inc) => mr <= |deals| && ms <= |deals| && inc <= |deals|
      case RevenueReport => Route(query, TraceOf(deals, workOrders)) == TotalRevenue
      case ModelPrompt(n, m, _, q) => n == |deals| && m == |workOrders| && q == query
  {
    var t := TraceOf(deals, workOrders);
    match Route(query, t) {
      case Conversion =>
        ConvertedBounded(deals, workOrders, t.statusColumn, t.companyColumn, t.workOrderCompanyColumn);
      case Funnel =>
        FunnelBounded(deals, t.statusColumn);
      case DataQuality =>
        InconsistentBounded(deals, workOrders, t.companyColumn, t.workOrderCompanyColumn);
      case TotalRevenue =>
      case LlmFallback =>
    }
  }
}
