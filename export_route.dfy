/** The export endpoint: the final selections become one spreadsheet row each, with
    'N/A' or 0 for missing values and lists joined by "; ". Writing the rows out as CSV
    text is left to the CSV library and is not modelled. */
module ExportRoute {
  import opened Wrappers
  import opened Strings
  import opened Json
  import opened Types

  const NotAvailable := "N/A"
  const ListSeparator := "; "
  const InvalidResults := "Invalid results data"
  const ExportFailed := "Failed to export results"

  /** The `results` member of the request: absent (or another falsy value), present but
      not an array, or a list of selections. */
  datatype ResultsField = Absent | NotAnArray | Items(selections: seq<FinalSelection>)

  datatype CsvRow = CsvRow(
    rank: real,
    name: string,
    email: string,
    phone: string,
    role: string,
    matchPercentage: real,
    yearsExperience: real,
    skills: string,
    strengths: string,
    concerns: string,
    uniqueQualities: string,
    reasoning: string,
    location: string,
    portfolio: JsonValue,
    github: JsonValue,
    linkedin: JsonValue)

  datatype ExportResponse = BadRequest(error: string) | ServerError(error: string) | Csv(rows: seq<CsvRow>)

  /** `s || 'N/A'` for an optional string. */
  function TextOr(s: Option<string>): (r: string)
    ensures r == NotAvailable <==> s.None? || s.value == "" || s.value == NotAvailable
    ensures r != NotAvailable ==> s == Some(r)
  {
    if s.Some? && s.value != "" then s.value else NotAvailable
  }

  /** `v || 'N/A'` for an optional JSON value. */
  function ValueOr(v: Option<JsonValue>): (r: JsonValue)
    ensures r == JStr(NotAvailable) <==> !Truthy(v) || v == Some(JStr(NotAvailable))
    ensures r != JStr(NotAvailable) ==> v == Some(r)
  {
    if Truthy(v) then v.value else JStr(NotAvailable)
  }

  /** `years || 0` */
  function YearsOr(y: Option<real>): (r: real)
    ensures r == 0.0 <==> y.None? || y.value == 0.0
    ensures r != 0.0 ==> y == Some(r)
  {
    if y.Some? && y.value != 0.0 then y.value else 0.0
  }

  /** The row for one selection. */
  function ExportRow(s: FinalSelection): CsvRow {
    var c := s.candidate;
    CsvRow(s.rank, c.name, c.email, TextOr(c.phone), s.role, s.matchPercentage, YearsOr(c.yearsOfExperience),
           Join(c.skills, ListSeparator), Join(s.strengths, ListSeparator), Join(s.concerns, ListSeparator),
           Join(s.uniqueQualities, ListSeparator), s.detailedReasoning, TextOr(c.location),
           ValueOr(c.portfolio), ValueOr(c.github), ValueOr(c.linkedin))
  }

  /** `results.map(...)`: one row per selection, in order. */
  function ExportRows(results: seq<FinalSelection>): (rows: seq<CsvRow>)
    ensures |rows| == |results|
    ensures forall i :: 0 <= i < |results| ==> rows[i] == ExportRow(results[i])
  {
    seq(|results|, i requires 0 <= i < |results| => ExportRow(results[i]))
  }

  /** `POST /api/export`; `body` is `Err` when the request is not JSON. */
  function Export(body: Result<ResultsField>): (r: ExportResponse)
    ensures r.BadRequest? <==> body.Ok? && !body.value.Items?
    ensures r.BadRequest? ==> r.error == InvalidResults
    ensures r.Csv? <==> body.Ok? && body.value.Items?
    ensures r.Csv? ==> |r.rows| == |body.value.selections|
    ensures r.Csv? ==> r.rows == ExportRows(body.value.selections)
    ensures body.Err? ==> r == ServerError(if body.message == "" then ExportFailed else body.message)
  {
    if body.Err? then ServerError(if body.message == "" then ExportFailed else body.message)
    else if !body.value.Items? then BadRequest(InvalidResults)
    else Csv(ExportRows(body.value.selections))
  }

  /** Rank, name, email, role, match and reasoning are copied verbatim; the others are
      the selection's own values whenever those are present and not 'N/A' or 0. */
  lemma ExportRowFields(s: FinalSelection)
    ensures var row := ExportRow(s);
            row.rank == s.rank && row.name == s.candidate.name && row.email == s.candidate.email
            && row.role == s.role && row.matchPercentage == s.matchPercentage
            && row.reasoning == s.detailedReasoning
    ensures var row := ExportRow(s);
            (row.phone == NotAvailable <==> s.candidate.phone.None? || s.candidate.phone.value in {"", NotAvailable})
            && (row.location == NotAvailable <==> s.candidate.location.None? || s.candidate.location.value in {"", NotAvailable})
            && (row.yearsExperience == 0.0 <==> s.candidate.yearsOfExperience.None? || s.candidate.yearsOfExperience.value == 0.0)
  {
  }

  predicate NoSemicolon(x: string) {
    forall j :: 0 <= j < |x| ==> x[j] != ';'
  }

  /** Splitting a piece without separators followed by a separator. */
  lemma {:induction false} SplitAfterPiece(a: string, b: string, c: char)
    requires forall j :: 0 <= j < |a| ==> a[j] != c
    ensures Split(a + [c] + b, {c}) == [a] + Split(b, {c})
  {
    if a == [] {
      assert [] + [c] + b == [c] + b;
      assert ([c] + b)[1..] == b;
    } else {
      var s := a + [c] + b;
      assert s[0] == a[0] && s[1..] == a[1..] + [c] + b;
      SplitAfterPiece(a[1..], b, c);
      var rest := Split(s[1..], {c});
      assert rest == [a[1..]] + Split(b, {c});
      assert [a[0]] + a[1..] == a;
    }
  }

  /** Splitting a joined list back on ';': when no item holds a ';', the pieces are the
      items, every one after the first with the blank of the separator in front. */
  lemma {:induction false} JoinedListSplitsBack(xs: seq<string>)
    requires xs != [] && forall i :: 0 <= i < |xs| ==> NoSemicolon(xs[i])
    ensures var pieces := Split(Join(xs, ListSeparator), {';'});
            |pieces| == |xs| && pieces[0] == xs[0]
            && forall i :: 1 <= i < |xs| ==> pieces[i] == " " + xs[i]
  {
    if |xs| == 1 {
      SplitWithout(xs[0]);
    } else {
      var rest := xs[1..];
      var tail := Join(rest, ListSeparator);
      assert Join(xs, ListSeparator) == xs[0] + [';'] + ([' '] + tail);
      SplitAfterPiece(xs[0], [' '] + tail, ';');
      JoinedListSplitsBack(rest);
      var pieces := Split([' '] + tail, {';'});
      assert pieces == [" " + Split(tail, {';'})[0]] + Split(tail, {';'})[1..];
      forall i | 1 <= i < |xs| ensures Split(Join(xs, ListSeparator), {';'})[i] == " " + xs[i] {
        if i > 1 {
          assert Split(tail, {';'})[i - 1] == " " + rest[i - 1];
        }
      }
    }
  }

  /** A string without separators splits into itself. */
  lemma {:induction false} SplitWithout(x: string)
    requires NoSemicolon(x)
    ensures Split(x, {';'}) == [x]
  {
    if x != [] {
      SplitWithout(x[1..]);
      assert [x[0]] + x[1..] == x;
    }
  }
}
