/** The fragment checks and the consumption-table parser of `BCHydroApi`
    (`_validate_html` and `_parse_consumption_data`), over an abstract parsed document. */
module Markup {
  import opened Base
  import opened Text
  import opened Numbers
  import opened Dates
  import opened Exceptions
  import opened Types

  /** An element of the parsed document: its CSS classes and its text as
      `get_text(strip=True)` gives it. */
  datatype Element = Element(classes: set<string>, text: string)

  /** A table row: the stripped texts of its `<td>` cells, in order. */
  type Row = seq<string>

  /** What the parser uses of a parsed fragment: every element in document order, and the
      `<tr>` rows of the element whose id is `consumptionTable`, when there is one. */
  datatype Document = Document(elements: seq<Element>, table: Option<seq<Row>>)

  /** A fetched fragment: its raw markup and the document the HTML parser makes of it. */
  datatype Html = Html(text: string, doc: Document)

  /** Matches the selector `.alert.error:not(.hidden)`. */
  predicate IsVisibleAlert(e: Element)
  {
    "alert" in e.classes && "error" in e.classes && "hidden" !in e.classes
  }

  /** The texts of the visible alerts, in document order. */
  function VisibleAlertTexts(es: seq<Element>): (r: seq<string>)
    ensures |r| <= |es|
  {
    if es == [] then []
    else (if IsVisibleAlert(es[0]) then [es[0].text] else []) + VisibleAlertTexts(es[1..])
  }

  /** No text is collected exactly when no element is a visible alert. */
  lemma {:induction false} NoVisibleAlerts(es: seq<Element>)
    ensures VisibleAlertTexts(es) == [] <==> forall i | 0 <= i < |es| :: !IsVisibleAlert(es[i])
  {
    if es != [] {
      NoVisibleAlerts(es[1..]);
      assert forall i | 1 <= i < |es| :: es[i] == es[1..][i - 1];
    }
  }

  /** Each visible alert's text is among the collected texts, and nothing else is. */
  lemma {:induction false} VisibleAlertTextsComplete(es: seq<Element>)
    ensures forall i | 0 <= i < |es| && IsVisibleAlert(es[i]) :: es[i].text in VisibleAlertTexts(es)
    ensures forall t | t in VisibleAlertTexts(es) :: exists i | 0 <= i < |es| :: IsVisibleAlert(es[i]) && es[i].text == t
  {
    if es != [] {
      VisibleAlertTextsComplete(es[1..]);
      var rest := VisibleAlertTexts(es[1..]);
      forall t | t in VisibleAlertTexts(es)
        ensures exists i | 0 <= i < |es| :: IsVisibleAlert(es[i]) && es[i].text == t
      {
        if t in rest {
          var i :| 0 <= i < |es[1..]| && IsVisibleAlert(es[1..][i]) && es[1..][i].text == t;
          assert es[i + 1] == es[1..][i];
        } else {
          assert IsVisibleAlert(es[0]) && es[0].text == t;
        }
      }
      forall i | 0 <= i < |es| && IsVisibleAlert(es[i]) ensures es[i].text in VisibleAlertTexts(es) {
        if i > 0 { assert es[i] == es[1..][i - 1]; }
      }
    }
  }

  /** Collecting alert texts distributes over concatenation: one text per visible alert, in
      document order. */
  lemma {:induction false} AlertsAppend(a: seq<Element>, b: seq<Element>)
    ensures VisibleAlertTexts(a + b) == VisibleAlertTexts(a) + VisibleAlertTexts(b)
  {
    if a == [] {
      assert a + b == b;
    } else {
      var x, t := a[0], a[1..];
      assert a == [x] + t;
      assert a + b == [x] + (t + b);
      AlertsAppend(t, b);
      AlertsCons(x, t);
      AlertsCons(x, t + b);
    }
  }

  /** An element contributes its text, ahead of the rest, exactly when it is a visible alert. */
  lemma AlertsCons(x: Element, t: seq<Element>)
    ensures VisibleAlertTexts([x] + t) == (if IsVisibleAlert(x) then [x.text] else []) + VisibleAlertTexts(t)
  {
    assert ([x] + t)[1..] == t;
  }

  const AlertPrefix := "Alert dialog detected: "

  /** `_validate_html`: an empty fragment is refused first, then a fragment showing any visible
      error alert, whose message joins the texts of all of them with single spaces. */
  function ValidateHtml(html: Html): (r: Result<Document, Error>)
    ensures html.text == [] ==> r == Err(InvalidHtml("Empty HTML response"))
    ensures html.text != [] && VisibleAlertTexts(html.doc.elements) != [] ==>
      r == Err(AlertDialog(AlertPrefix + Join(" ", VisibleAlertTexts(html.doc.elements))))
    ensures r.Ok? <==> html.text != [] && forall i | 0 <= i < |html.doc.elements| :: !IsVisibleAlert(html.doc.elements[i])
    ensures r.Ok? ==> r.value == html.doc
  {
    NoVisibleAlerts(html.doc.elements);
    if html.text == [] then Err(InvalidHtml("Empty HTML response"))
    else
      var alerts := VisibleAlertTexts(html.doc.elements);
      if alerts != [] then Err(AlertDialog(AlertPrefix + Join(" ", alerts)))
      else Ok(html.doc)
  }

  /** The alert message names every visible alert: each one's text occurs in it after the prefix. */
  lemma AlertMessageNamesEveryAlert(html: Html, i: nat)
    requires html.text != []
    requires i < |html.doc.elements| && IsVisibleAlert(html.doc.elements[i])
    ensures ValidateHtml(html).Err? && ValidateHtml(html).error.AlertDialog?
    ensures var m := ValidateHtml(html).error.message;
      m[..|AlertPrefix|] == AlertPrefix
      && exists at: nat :: OccursAt(html.doc.elements[i].text, m[|AlertPrefix|..], at)
  {
    var es := html.doc.elements;
    var texts := VisibleAlertTexts(es);
    VisibleAlertTextsComplete(es);
    var k :| 0 <= k < |texts| && texts[k] == es[i].text;
    JoinContains(" ", texts, k);
    var m := AlertPrefix + Join(" ", texts);
    assert m[|AlertPrefix|..] == Join(" ", texts);
  }

  /** Python's `float(cells[1])`, `float(cells[2].replace("$", ""))` and
      `strptime(cells[0], "%b %d, %Y")`, in that order: the first that fails raises. */
  function ParseRow(cells: Row): (r: Result<DailyElectricity, Error>)
    requires |cells| >= 4
    ensures r.Err? ==> r.error.ValueError?
  {
    match ParseFloat(cells[1])
    case None => Err(ValueError(cells[1]))
    case Some(consumption) =>
      var costText := RemoveAll(cells[2], '$');
      match ParseFloat(costText)
      case None => Err(ValueError(costText))
      case Some(cost) =>
        match StrpTime(cells[0])
        case None => Err(ValueError(cells[0]))
        case Some(date) => Ok(NewDailyElectricity(consumption, cost, NewInterval(date, date)))
  }

  /** A row yields a reading exactly when its consumption, its cost without dollar signs and
      its date all parse; the reading is then a same-day interval with those values, no
      billing-period end and not an estimate. Any failure is a ValueError. */
  lemma ParseRowOutcome(cells: Row)
    requires |cells| >= 4
    ensures var r := ParseRow(cells);
      && (r.Ok? <==> ParseFloat(cells[1]).Some? && ParseFloat(RemoveAll(cells[2], '$')).Some? && StrpTime(cells[0]).Some?)
      && (r.Ok? ==> (r.value.consumption == ParseFloat(cells[1]).value
                     && r.value.cost == ParseFloat(RemoveAll(cells[2], '$')).value
                     && r.value.interval.start == r.value.interval.end == StrpTime(cells[0]).value
                     && r.value.interval.billingPeriodEnd.None? && !r.value.isEstimate))
      && (r.Err? ==> r.error.ValueError?)
  {
  }

  /** A row whose first three cells are a reading written out as the portal writes it (cost
      with a dollar sign; any further cells) is read back as that reading. */
  lemma RowRoundTrip(cells: Row, e: DailyElectricity)
    requires ValidDate(e.interval.start) && e.interval.end == e.interval.start
    requires e.interval.billingPeriodEnd.None? && !e.isEstimate
    requires |cells| >= 4 && cells[0] == FormatDate(e.interval.start)
    requires cells[1] == FormatDecimal(e.consumption) && cells[2] == "$" + FormatDecimal(e.cost)
    ensures ParseRow(cells) == Ok(e)
  {
    PortalCells(e);
    ParseRowOf(cells, e);
  }

  /** Each cell of a row written by the portal reads back as its field. */
  lemma PortalCells(e: DailyElectricity)
    requires ValidDate(e.interval.start)
    ensures StrpTime(FormatDate(e.interval.start)) == Some(e.interval.start)
    ensures ParseFloat(FormatDecimal(e.consumption)) == Some(e.consumption)
    ensures ParseFloat(RemoveAll("$" + FormatDecimal(e.cost), '$')) == Some(e.cost)
  {
    ParseFormatRoundTrip(e.consumption);
    CostCell(e.cost);
    StrpTimeFormatRoundTrip(e.interval.start);
  }

  lemma ParseRowOf(cells: Row, e: DailyElectricity)
    requires |cells| >= 4 && e.interval.end == e.interval.start
    requires e.interval.billingPeriodEnd.None? && !e.isEstimate
    requires StrpTime(cells[0]) == Some(e.interval.start)
    requires ParseFloat(cells[1]) == Some(e.consumption)
    requires ParseFloat(RemoveAll(cells[2], '$')) == Some(e.cost)
    ensures ParseRow(cells) == Ok(e)
  {
  }

  /** A cost written with a dollar sign reads back as that cost once the sign is removed. */
  lemma CostCell(cost: Decimal)
    ensures RemoveAll("$" + FormatDecimal(cost), '$') == FormatDecimal(cost)
    ensures ParseFloat(RemoveAll("$" + FormatDecimal(cost), '$')) == Some(cost)
  {
    var text := FormatDecimal(cost);
    NoDollar(cost);
    assert ("$" + text)[1..] == text;
    ParseFormatRoundTrip(cost);
  }

  lemma NoDollar(d: Decimal)
    ensures '$' !in FormatDecimal(d)
  {
    var digits := PaddedDigits(d);
    forall i | 0 <= i < |digits| ensures digits[i] != '$' { assert IsDigit(digits[i]); }
    var cut := |digits| - d.scale;
    assert '$' !in digits[..cut];
    assert '$' !in digits[cut..];
  }

  /** The rows kept by the loop: those with at least four cells, in order. */
  function Retained(rows: seq<Row>): (r: seq<Row>)
    ensures |r| <= |rows|
    ensures forall k | 0 <= k < |r| :: |r[k]| >= 4
  {
    if rows == [] then []
    else
      var last := rows[|rows| - 1];
      Retained(rows[..|rows| - 1]) + (if |last| < 4 then [] else [last])
  }

  /** Filtering distributes over concatenation: every row is kept or dropped on its own, and
      the kept rows stay in their order. */
  lemma {:induction false} RetainedAppend(a: seq<Row>, b: seq<Row>)
    ensures Retained(a + b) == Retained(a) + Retained(b)
  {
    if b == [] {
      assert a + b == a;
    } else {
      var n := |b| - 1;
      assert (a + b)[..|a + b| - 1] == a + b[..n];
      assert (a + b)[|a + b| - 1] == b[n];
      RetainedAppend(a, b[..n]);
    }
  }

  /** A single row is kept exactly when it has at least four cells. */
  lemma RetainedSingle(x: Row)
    ensures Retained([x]) == if |x| >= 4 then [x] else []
  {
    assert [x][..0] == [];
  }

  /** The list the parsing loop builds from the rows after the header: rows with fewer than
      four cells are skipped; the first row that does not parse aborts the whole list. */
  function ParseRows(rows: seq<Row>): (r: Result<seq<DailyElectricity>, Error>)
    ensures r.Err? ==> r.error.ValueError?
  {
    if rows == [] then Ok([])
    else
      match ParseRows(rows[..|rows| - 1])
      case Err(e) => Err(e)
      case Ok(done) =>
        var last := rows[|rows| - 1];
        if |last| < 4 then Ok(done)
        else
          match ParseRow(last)
          case Err(e) => Err(e)
          case Ok(record) => Ok(done + [record])
  }

  /** The list is built exactly when every retained row parses, and then it holds one record
      per retained row, in row order. */
  lemma {:induction false} ParseRowsRetained(rows: seq<Row>)
    ensures ParseRows(rows).Ok? <==> forall k | 0 <= k < |Retained(rows)| :: ParseRow(Retained(rows)[k]).Ok?
    ensures ParseRows(rows).Ok? ==>
      |ParseRows(rows).value| == |Retained(rows)|
      && forall k | 0 <= k < |Retained(rows)| :: ParseRow(Retained(rows)[k]) == Ok(ParseRows(rows).value[k])
  {
    if rows != [] {
      var init := rows[..|rows| - 1];
      var last := rows[|rows| - 1];
      ParseRowsRetained(init);
      var r0 := Retained(init);
      assert Retained(rows) == r0 + (if |last| < 4 then [] else [last]);
      if |last| >= 4 {
        assert Retained(rows)[|r0|] == last;
        assert forall k | 0 <= k < |r0| :: Retained(rows)[k] == r0[k];
        if ParseRows(init).Err? {
          var k :| 0 <= k < |r0| && ParseRow(r0[k]).Err?;
          assert ParseRow(Retained(rows)[k]).Err?;
        }
      } else {
        assert Retained(rows) == r0;
      }
    }
  }

  /** When the list is not built, the error is that of the first retained row that does not parse. */
  lemma {:induction false} ParseRowsFirstFailure(rows: seq<Row>)
    requires ParseRows(rows).Err?
    ensures exists k | 0 <= k < |Retained(rows)| ::
      ParseRow(Retained(rows)[k]) == Err(ParseRows(rows).error)
      && forall j | 0 <= j < k :: ParseRow(Retained(rows)[j]).Ok?
  {
    var init := rows[..|rows| - 1];
    var last := rows[|rows| - 1];
    var r0 := Retained(init);
    var kept := Retained(rows);
    RetainedExtends(rows);
    if ParseRows(init).Err? {
      ParseRowsFirstFailure(init);
      var k :| 0 <= k < |r0| && ParseRow(r0[k]) == Err(ParseRows(init).error)
        && forall j | 0 <= j < k :: ParseRow(r0[j]).Ok?;
      assert ParseRows(rows).error == ParseRows(init).error;
      assert kept[k] == r0[k];
      assert forall j | 0 <= j < k :: ParseRow(kept[j]).Ok?;
    } else {
      ParseRowsRetained(init);
      assert |last| >= 4 && ParseRow(last) == Err(ParseRows(rows).error);
      assert kept[|r0|] == last;
      assert forall j | 0 <= j < |r0| :: ParseRow(kept[j]).Ok?;
    }
  }

  /** The rows kept from a list are those kept from all but its last row, then that row if it
      has four cells. */
  lemma RetainedExtends(rows: seq<Row>)
    requires rows != []
    ensures var r0 := Retained(rows[..|rows| - 1]);
      && |Retained(rows)| >= |r0|
      && (forall j | 0 <= j < |r0| :: Retained(rows)[j] == r0[j])
      && (|rows[|rows| - 1]| >= 4 <==> |Retained(rows)| == |r0| + 1)
      && (|rows[|rows| - 1]| >= 4 ==> Retained(rows)[|r0|] == rows[|rows| - 1])
  {
  }

  /** Once a prefix of the rows fails, the whole list fails the same way. */
  lemma {:induction false} ParseRowsPrefixFailure(rows: seq<Row>, n: nat)
    requires n <= |rows| && ParseRows(rows[..n]).Err?
    ensures ParseRows(rows) == ParseRows(rows[..n])
    decreases |rows|
  {
    if n < |rows| {
      var init := rows[..|rows| - 1];
      assert init[..n] == rows[..n];
      ParseRowsPrefixFailure(init, n);
    } else {
      assert rows[..n] == rows;
    }
  }

  /** The list built from one more row. */
  lemma ParseRowsSnoc(rows: seq<Row>, i: nat)
    requires i < |rows|
    ensures ParseRows(rows[..i + 1])
      == match ParseRows(rows[..i])
         case Err(e) => Err(e)
         case Ok(done) =>
           if |rows[i]| < 4 then Ok(done)
           else match ParseRow(rows[i]) case Err(e) => Err(e) case Ok(x) => Ok(done + [x])
  {
    assert rows[..i + 1][..i] == rows[..i];
  }

  /** The fixed rate constants. */
  const CurrentRates := Rates(Decimal(false, 954, 4), Decimal(false, 1427, 4), Decimal(false, 13320, 1))

  const TableNotFound := InvalidHtml("Consumption table not found")

  /** `_parse_consumption_data` as a function of the document and the client's account. */
  function ParseConsumption(doc: Document, account: Option<Account>): (r: Result<DailyUsage, Error>)
    ensures doc.table.None? ==> r == Err(TableNotFound)
    ensures r.Ok? ==> r.value.account == account && r.value.rates == CurrentRates && |r.value.electricity| > 0
  {
    match doc.table
    case None => Err(TableNotFound)
    case Some(rows) =>
      match ParseRows(DropFirst(rows))
      case Err(e) => Err(e)
      case Ok(electricity) =>
        if |electricity| == 0 then Err(IndexError)
        else
          Ok(DailyUsage(account, NewInterval(electricity[0].interval.start, Last(electricity).interval.end),
                        CurrentRates, electricity))
  }

  /** `_parse_consumption_data`: walks the rows after the header, skipping those with fewer
      than four cells and appending one record per other row. */
  method ParseConsumptionData(doc: Document, account: Option<Account>) returns (r: Result<DailyUsage, Error>)
    ensures r == ParseConsumption(doc, account)
  {
    if doc.table.None? {
      return Err(TableNotFound);
    }
    var body := DropFirst(doc.table.value);
    var electricity: seq<DailyElectricity> := [];
    for i := 0 to |body|
      invariant ParseRows(body[..i]) == Ok(electricity)
    {
      var cells := body[i];
      ParseRowsSnoc(body, i);
      if |cells| < 4 {
        continue;
      }
      var row := ParseRow(cells);
      if row.Err? {
        ParseRowsPrefixFailure(body, i + 1);
        return Err(row.error);
      }
      electricity := electricity + [row.value];
    }
    assert body[..|body|] == body;
    if |electricity| == 0 {
      return Err(IndexError);
    }
    r := Ok(DailyUsage(account, NewInterval(electricity[0].interval.start, electricity[|electricity| - 1].interval.end),
                       CurrentRates, electricity));
  }

  /** What a parse of a document with a consumption table yields: it succeeds exactly when at
      least one row after the header has four cells and all such rows parse; it then holds one
      record per such row, in row order, spans the first to the last of their days, and carries
      the fixed rates and the given account. */
  lemma {:induction false} ParseConsumptionRetained(doc: Document, account: Option<Account>)
    requires doc.table.Some?
    ensures
      var kept := Retained(DropFirst(doc.table.value));
      var r := ParseConsumption(doc, account);
      && (r.Ok? <==> |kept| >= 1 && forall k | 0 <= k < |kept| :: ParseRow(kept[k]).Ok?)
      && (r.Ok? ==>
            && |r.value.electricity| == |kept|
            && (forall k | 0 <= k < |kept| :: ParseRow(kept[k]) == Ok(r.value.electricity[k]))
            && r.value.interval == Interval(StrpTime(kept[0][0]).value, StrpTime(kept[|kept| - 1][0]).value, None)
            && r.value.rates == CurrentRates
            && r.value.account == account)
  {
    var rows := DropFirst(doc.table.value);
    var kept := Retained(rows);
    ParseRowsRetained(rows);
    var parsed := ParseRows(rows);
    var r := ParseConsumption(doc, account);
    if parsed.Err? {
      assert r.Err?;
      assert !(forall k | 0 <= k < |kept| :: ParseRow(kept[k]).Ok?);
    } else if |parsed.value| == 0 {
      assert r.Err? && |kept| == 0;
    } else {
      var e := parsed.value;
      assert r == Ok(DailyUsage(account, NewInterval(e[0].interval.start, Last(e).interval.end), CurrentRates, e));
      SnapshotSpan(kept, e);
    }
  }

  /** The first and last readings take their days from the first and last retained rows. */
  lemma SnapshotSpan(kept: seq<Row>, e: seq<DailyElectricity>)
    requires |kept| == |e| > 0
    requires forall k | 0 <= k < |kept| :: |kept[k]| >= 4 && ParseRow(kept[k]) == Ok(e[k])
    ensures StrpTime(kept[0][0]) == Some(e[0].interval.start)
    ensures StrpTime(kept[|kept| - 1][0]) == Some(e[|e| - 1].interval.end)
  {
    var n := |kept| - 1;
    assert |kept[0]| >= 4 && ParseRow(kept[0]) == Ok(e[0]);
    assert |kept[n]| >= 4 && ParseRow(kept[n]) == Ok(e[n]);
  }

  /** Without a table the parse fails with InvalidHtml; with no row of four cells after the
      header it fails on the empty list, with IndexError. */
  lemma ParseConsumptionEmpty(doc: Document, account: Option<Account>)
    ensures doc.table.None? ==> ParseConsumption(doc, account) == Err(InvalidHtml("Consumption table not found"))
    ensures doc.table.Some? && Retained(DropFirst(doc.table.value)) == [] ==>
      ParseConsumption(doc, account) == Err(IndexError)
  {
    if doc.table.Some? {
      ParseRowsRetained(DropFirst(doc.table.value));
    }
  }

  /** A row of four cells that does not parse is not skipped: the whole parse fails, with the
      ValueError of the first such row. */
  lemma MalformedRowAborts(doc: Document, account: Option<Account>, k: nat)
    requires doc.table.Some?
    requires k < |Retained(DropFirst(doc.table.value))| && ParseRow(Retained(DropFirst(doc.table.value))[k]).Err?
    ensures ParseConsumption(doc, account).Err? && ParseConsumption(doc, account).error.ValueError?
  {
    var rows := DropFirst(doc.table.value);
    ParseRowsRetained(rows);
    ParseRowsFirstFailure(rows);
    var k' :| 0 <= k' < |Retained(rows)| && ParseRow(Retained(rows)[k']) == Err(ParseRows(rows).error);
    ParseRowOutcome(Retained(rows)[k']);
  }

  /** The first row is skipped whatever it holds. */
  lemma HeaderRowIgnored(elements: seq<Element>, h1: Row, h2: Row, rows: seq<Row>, account: Option<Account>)
    ensures ParseConsumption(Document(elements, Some([h1] + rows)), account)
         == ParseConsumption(Document(elements, Some([h2] + rows)), account)
  {
    assert DropFirst([h1] + rows) == rows == DropFirst([h2] + rows);
  }

  /** A reading as the portal renders it: date, consumption, cost with a dollar sign, and a
      fourth cell the parser ignores. */
  function PortalRow(e: DailyElectricity): (r: Row)
    requires ValidDate(e.interval.start)
    ensures |r| == 4
  {
    [FormatDate(e.interval.start), FormatDecimal(e.consumption), "$" + FormatDecimal(e.cost), ""]
  }

  lemma PortalRowParses(e: DailyElectricity)
    requires ValidDate(e.interval.start) && e.interval.end == e.interval.start
    requires e.interval.billingPeriodEnd.None? && !e.isEstimate
    ensures ParseRow(PortalRow(e)) == Ok(e)
  {
    RowRoundTrip(PortalRow(e), e);
  }

  /** Any table of two portal rows under a header parses to those two readings, spanning the
      first day to the second. */
  lemma TwoPortalRows(es: seq<Element>, h: Row, e1: DailyElectricity, e2: DailyElectricity, account: Option<Account>)
    requires ValidDate(e1.interval.start) && e1.interval.end == e1.interval.start
    requires e1.interval.billingPeriodEnd.None? && !e1.isEstimate
    requires ValidDate(e2.interval.start) && e2.interval.end == e2.interval.start
    requires e2.interval.billingPeriodEnd.None? && !e2.isEstimate
    ensures ParseConsumption(Document(es, Some([h, PortalRow(e1), PortalRow(e2)])), account)
      == Ok(DailyUsage(account, Interval(e1.interval.start, e2.interval.end, None), CurrentRates, [e1, e2]))
  {
    PortalRowParses(e1);
    PortalRowParses(e2);
    TwoRowTable(es, h, PortalRow(e1), PortalRow(e2), e1, e2, account);
  }

  lemma TwoRowTable(es: seq<Element>, h: Row, r1: Row, r2: Row, e1: DailyElectricity, e2: DailyElectricity, account: Option<Account>)
    requires |r1| >= 4 && |r2| >= 4 && ParseRow(r1) == Ok(e1) && ParseRow(r2) == Ok(e2)
    ensures ParseConsumption(Document(es, Some([h, r1, r2])), account)
      == Ok(DailyUsage(account, Interval(e1.interval.start, e2.interval.end, None), CurrentRates, [e1, e2]))
  {
    TwoRows(r1, r2, e1, e2);
    assert DropFirst([h, r1, r2]) == [r1, r2];
    assert Last([e1, e2]) == e2;
  }

  lemma TwoRows(r1: Row, r2: Row, e1: DailyElectricity, e2: DailyElectricity)
    requires |r1| >= 4 && |r2| >= 4 && ParseRow(r1) == Ok(e1) && ParseRow(r2) == Ok(e2)
    ensures ParseRows([r1, r2]) == Ok([e1, e2])
  {
    var none: seq<Row> := [];
    var nothing: seq<DailyElectricity> := [];
    ParseRowsAppend(none, r1, nothing, e1);
    ParseRowsAppend(none + [r1], r2, nothing + [e1], e2);
    assert none + [r1] + [r2] == [r1, r2];
    assert nothing + [e1] + [e2] == [e1, e2];
  }

  /** One more row of four cells that parses adds its record at the end. */
  lemma ParseRowsAppend(rows: seq<Row>, row: Row, done: seq<DailyElectricity>, e: DailyElectricity)
    requires ParseRows(rows) == Ok(done) && |row| >= 4 && ParseRow(row) == Ok(e)
    ensures ParseRows(rows + [row]) == Ok(done + [e])
  {
    assert (rows + [row])[..|rows|] == rows;
  }

  /** The two readings of the worked example: 10.5 kWh for $1.00 on Jan 1 2024 and 12.0 kWh
      for $1.20 on Jan 2 2024. */
  const FirstDay := DailyElectricity(Decimal(false, 105, 1), Decimal(false, 100, 2), Interval(Date(2024, 1, 1), Date(2024, 1, 1), None), false)
  const SecondDay := DailyElectricity(Decimal(false, 120, 1), Decimal(false, 120, 2), Interval(Date(2024, 1, 2), Date(2024, 1, 2), None), false)

  /** The two-day table, with its header row. */
  const ExampleTable: seq<Row> := [["Date", "Consumption (kWh)", "Cost", "Details"], PortalRow(FirstDay), PortalRow(SecondDay)]

  lemma ExampleYear()
    ensures PadLeft(NatToDigits(2024), 4) == "2024"
  {
    assert NatToDigits(20) == "20";
    assert NatToDigits(202) == "202";
  }

  lemma ExampleFirstDate()
    ensures FormatDate(Date(2024, 1, 1)) == "Jan 1, 2024"
  {
    ExampleYear();
    assert Capitalized("jan") == "Jan";
    assert MonthAbbreviations[0] == "jan";
  }

  lemma ExampleSecondDate()
    ensures FormatDate(Date(2024, 1, 2)) == "Jan 2, 2024"
  {
    ExampleYear();
    assert Capitalized("jan") == "Jan";
    assert MonthAbbreviations[0] == "jan";
  }

  lemma ExampleDigits()
    ensures NatToDigits(105) == "105" && NatToDigits(100) == "100" && NatToDigits(120) == "120"
  {
    assert NatToDigits(10) == "10";
    assert NatToDigits(12) == "12";
  }

  lemma ExamplePadded()
    ensures PaddedDigits(Decimal(false, 105, 1)) == "105" && PaddedDigits(Decimal(false, 120, 1)) == "120"
    ensures PaddedDigits(Decimal(false, 100, 2)) == "100" && PaddedDigits(Decimal(false, 120, 2)) == "120"
  {
    ExampleDigits();
  }

  lemma ExampleConsumptions()
    ensures FormatDecimal(Decimal(false, 105, 1)) == "10.5" && FormatDecimal(Decimal(false, 120, 1)) == "12.0"
  {
    ExamplePadded();
  }

  lemma ExampleCosts()
    ensures FormatDecimal(Decimal(false, 100, 2)) == "1.00" && FormatDecimal(Decimal(false, 120, 2)) == "1.20"
  {
    ExamplePadded();
  }

  /** The example rows read as the portal shows them. */
  lemma ExampleTableText()
    ensures ExampleTable[1] == ["Jan 1, 2024", "10.5", "$1.00", ""]
    ensures ExampleTable[2] == ["Jan 2, 2024", "12.0", "$1.20", ""]
  {
    ExampleFirstDate();
    ExampleSecondDate();
    ExampleConsumptions();
    ExampleCosts();
    assert FirstDay.cost == Decimal(false, 100, 2) && SecondDay.cost == Decimal(false, 120, 2);
    assert ExampleTable[1] == PortalRow(FirstDay);
    assert ExampleTable[2] == PortalRow(SecondDay);
    assert "$" + "1.00" == "$1.00" && "$" + "1.20" == "$1.20";
  }

  /** The two-day table yields two readings, spanning Jan 1 to Jan 2 2024. */
  lemma ExampleTableParses()
    ensures ParseConsumption(Document([], Some(ExampleTable)), None)
      == Ok(DailyUsage(None, Interval(FirstDay.interval.start, SecondDay.interval.end, None), CurrentRates, [FirstDay, SecondDay]))
  {
    var header := ExampleTable[0];
    assert ExampleTable == [header, PortalRow(FirstDay), PortalRow(SecondDay)];
    TwoPortalRows([], header, FirstDay, SecondDay, None);
  }

  /** The same days written as three-cell rows are all skipped, so parsing fails on the empty
      list rather than yielding two readings. */
  lemma ThreeCellRowsAreDropped()
    ensures ParseConsumption(Document([], Some([["Date", "Consumption (kWh)", "Cost"],
                                                ["Jan 1, 2024", "10.5", "$1.00"],
                                                ["Jan 2, 2024", "12.0", "$1.20"]])), None)
      == Err(IndexError)
  {
    var rows: seq<Row> := [["Date", "Consumption (kWh)", "Cost"], ["Jan 1, 2024", "10.5", "$1.00"], ["Jan 2, 2024", "12.0", "$1.20"]];
    var body := DropFirst(rows);
    assert body == [rows[1], rows[2]];
    assert body[..1] == [rows[1]];
    assert [rows[1]][..0] == [];
    assert ParseRows(body[..1]) == Ok([]);
  }
}
