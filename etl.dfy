/** The job pipeline of etl.py: configuration, the paginated fetch of the
    job list, the validator and the reference-column transform. */
module Etl {
  import opened PyValues
  import opened Flattening
  import opened Frames

  /** The page size every request asks for. */
  const PageSize: nat := 100

  /** One GET of the job list: its URL and its query parameters. */
  datatype Request = Request(url: string, dateFrom: string, dateTo: string, pageSize: nat, page: nat)

  /** What one request gives: the records under the body's `data` key (an
      empty list when the key is absent), or an HTTP error status. */
  datatype PageResult = Page(data: seq<Record>) | HttpError(status: int, body: string)

  /** The remote API, as a function from request to response. */
  type Api = Request -> PageResult

  /** A response that ends the fetch: an HTTP error or an empty page. */
  predicate EndsFetch(r: PageResult) {
    r.HttpError? || r.data == []
  }

  /** The records a response contributes. */
  function Records(r: PageResult): seq<Record> {
    if r.Page? then r.data else []
  }

  /** A data-quality complaint with the number of rows it concerns. */
  datatype Issue = MissingTechnicians(count: nat) | InvalidDates(count: nat)

  /** The pair `(is_valid, issues)` that `validate_data` returns. */
  datatype Report = Report(isValid: bool, issues: seq<Issue>)

  const Technician: string := "technician"
  const ScheduledStart: string := "scheduledStart"

  /** The reference columns `transform_data` flattens, in order. */
  const ReferenceColumns: seq<string> := ["technician", "customer", "site", "type", "createdBy"]

  /** `pd.to_datetime` itself is not modelled: it is a parameter giving the
      instant a cell denotes, if it can be read as a date. */
  type DateParser = Value -> Option<int>

  /** The number a string of decimal digits denotes. */
  function DigitsValue(s: string): nat
    requires forall i :: 0 <= i < |s| ==> '0' <= s[i] <= '9'
  {
    if s == [] then 0 else 10 * DigitsValue(s[..|s| - 1]) + (s[|s| - 1] as int - '0' as int)
  }

  /** Decimal digits of a count, as an f-string renders it: no leading zero,
      and they denote the count. */
  function Decimal(n: nat): (s: string)
    ensures |s| >= 1 && (|s| > 1 ==> s[0] != '0')
    ensures forall i :: 0 <= i < |s| ==> '0' <= s[i] <= '9'
    ensures DigitsValue(s) == n
  {
    var d := [(('0' as int) + n % 10) as char];
    if n < 10 then d else Decimal(n / 10) + d
  }

  /** Different counts render differently. */
  lemma DecimalInjective(m: nat, n: nat)
    requires Decimal(m) == Decimal(n)
    ensures m == n
  {
    assert DigitsValue(Decimal(m)) == DigitsValue(Decimal(n));
  }

  /** The number of decimal digits `s` starts with. */
  function DigitRun(s: string): nat {
    if s != [] && '0' <= s[0] <= '9' then 1 + DigitRun(s[1..]) else 0
  }

  /** Digits followed by a text that starts with a non-digit: the run of
      leading digits is exactly the digits. */
  lemma {:induction false} DigitRunOf(d: string, x: string)
    requires forall i :: 0 <= i < |d| ==> '0' <= d[i] <= '9'
    requires |x| > 0 && !('0' <= x[0] <= '9')
    ensures DigitRun(d + x) == |d|
  {
    if d == [] {
      assert d + x == x;
    } else {
      assert (d + x)[1..] == d[1..] + x;
      DigitRunOf(d[1..], x);
    }
  }

  /** The text of an issue: the fixed opening, the count, then the kind. */
  const Opening: string := "Found "
  const TechniciansText: string := " rows with missing or unknown technicians"
  const DatesText: string := " rows with invalid scheduleStart dates"

  /** The text that names the kind of an issue. */
  function KindText(issue: Issue): string {
    if issue.MissingTechnicians? then TechniciansText else DatesText
  }

  /** The text of an issue: the string `validate_data` logs and returns. */
  function Message(issue: Issue): string {
    Opening + Decimal(issue.count) + KindText(issue)
  }

  /** The two kind texts start with a space and differ. */
  lemma KindTexts()
    ensures TechniciansText[0] == ' ' && DatesText[0] == ' '
    ensures TechniciansText != DatesText
  {
    assert TechniciansText[11] != DatesText[11];
  }

  /** A fixed opening, then digits, then a text that starts with a
      non-digit: the digits and the text can be read back. */
  lemma {:induction false} SplitAtDigits(p: string, d: string, x: string, e: string, y: string)
    requires forall i :: 0 <= i < |d| ==> '0' <= d[i] <= '9'
    requires forall i :: 0 <= i < |e| ==> '0' <= e[i] <= '9'
    requires |x| > 0 && !('0' <= x[0] <= '9') && |y| > 0 && !('0' <= y[0] <= '9')
    requires p + d + x == p + e + y
    ensures d == e && x == y
  {
    assert d + x == (p + d + x)[|p|..];
    assert e + y == (p + e + y)[|p|..];
    DigitRunOf(d, x);
    DigitRunOf(e, y);
    assert d == (d + x)[..|d|] && e == (e + y)[..|e|];
    assert x == (d + x)[|d|..] && y == (e + y)[|e|..];
  }

  /** The strings `validate_data` returns name the issue and its count
      unambiguously, so a list of `Issue`s carries the same information. */
  lemma MessageInjective(a: Issue, b: Issue)
    requires Message(a) == Message(b)
    ensures a == b
  {
    KindTexts();
    SplitAtDigits(Opening, Decimal(a.count), KindText(a), Decimal(b.count), KindText(b));
    DecimalInjective(a.count, b.count);
  }

  /** The number of cells of `column` that satisfy `p` (`mask.sum()`). */
  function CountWhere(column: seq<Value>, p: Value -> bool): (n: nat)
    ensures n <= |column|
    ensures n == 0 <==> forall i :: 0 <= i < |column| ==> !p(column[i])
  {
    if column == [] then 0
    else (if p(column[0]) then 1 else 0) + CountWhere(column[1..], p)
  }

  /** The technician check: null, or the flattener's sentinel. */
  predicate MissingTechnician(v: Value) {
    v.Null? || v == Unknown
  }

  predicate IsNull(v: Value) {
    v.Null?
  }

  /** One cell of `pd.to_datetime(..., errors='coerce')`: a missing cell stays
      missing, an unreadable one becomes NaT. */
  function ToDatetime(parseDate: DateParser, v: Value): (r: Value)
    ensures r.Null? <==> v.Null? || parseDate(v).None?
  {
    if v.Null? then Null
    else match parseDate(v)
      case Some(t) => Time(t)
      case None => Null
  }

  /** The coerced column, cell by cell. */
  function CoerceDates(parseDate: DateParser, column: seq<Value>): seq<Value> {
    seq(|column|, i requires 0 <= i < |column| => ToDatetime(parseDate, column[i]))
  }

  /** What `validate_data` reports for a table with the given columns. */
  function Validate(parseDate: DateParser, columns: map<string, seq<Value>>): (r: Outcome<Report>)
    ensures r.Raised? <==> Technician !in columns || ScheduledStart !in columns
    ensures r.Raised? ==> r.exc == KeyError(if Technician !in columns then Technician else ScheduledStart)
    ensures r.Ok? ==> |r.value.issues| <= 2 && (r.value.isValid <==> r.value.issues == [])
    ensures r.Ok? ==>
      ((exists k :: 0 <= k < |r.value.issues| && r.value.issues[k].MissingTechnicians?) <==>
       (exists i :: 0 <= i < |columns[Technician]| && MissingTechnician(columns[Technician][i])))
    ensures r.Ok? ==>
      ((exists k :: 0 <= k < |r.value.issues| && r.value.issues[k].InvalidDates?) <==>
       (exists i :: 0 <= i < |columns[ScheduledStart]| &&
          (columns[ScheduledStart][i].Null? || parseDate(columns[ScheduledStart][i]).None?)))
    ensures r.Ok? ==> forall k :: 0 <= k < |r.value.issues| ==>
      match r.value.issues[k]
      case MissingTechnicians(n) => k == 0 && n == CountWhere(columns[Technician], MissingTechnician)
      case InvalidDates(n) =>
        k == |r.value.issues| - 1 && n == CountWhere(CoerceDates(parseDate, columns[ScheduledStart]), IsNull)
  {
    if Technician !in columns then Raised(KeyError(Technician))
    else
      var missing := CountWhere(columns[Technician], MissingTechnician);
      var first := if missing > 0 then [MissingTechnicians(missing)] else [];
      if ScheduledStart !in columns then Raised(KeyError(ScheduledStart))
      else
        var coerced := CoerceDates(parseDate, columns[ScheduledStart]);
        var invalid := CountWhere(coerced, IsNull);
        var issues := first + if invalid > 0 then [InvalidDates(invalid)] else [];
        assert missing > 0 ==> issues[0].MissingTechnicians?;
        assert invalid > 0 ==> issues[|issues| - 1].InvalidDates?;
        assert forall i :: 0 <= i < |coerced| ==>
          (IsNull(coerced[i]) <==> columns[ScheduledStart][i].Null? || parseDate(columns[ScheduledStart][i]).None?);
        Ok(Report(|issues| == 0, issues))
  }

  /** Both checks always run: a table with a missing technician in one row
      and an unreadable date in another gets both issues, and is not valid. */
  lemma BothChecksRun(parseDate: DateParser, columns: map<string, seq<Value>>, i: nat, j: nat)
    requires Technician in columns && ScheduledStart in columns
    requires i < |columns[Technician]| && MissingTechnician(columns[Technician][i])
    requires j < |columns[ScheduledStart]| && parseDate(columns[ScheduledStart][j]).None?
    ensures var r := Validate(parseDate, columns);
      r.Ok? && !r.value.isValid &&
      r.value.issues == [MissingTechnicians(CountWhere(columns[Technician], MissingTechnician)),
                         InvalidDates(CountWhere(CoerceDates(parseDate, columns[ScheduledStart]), IsNull))]
  {
    var coerced := CoerceDates(parseDate, columns[ScheduledStart]);
    assert IsNull(coerced[j]);
  }

  /** `apply(flatener.flatten_json)` on one column: the flattened cells, or
      the exception of the first cell that raises. */
  function ApplyFlatten(f: JsonFlatener, loads: Loads, column: seq<Value>): (r: Outcome<seq<Value>>)
    ensures r.Ok? <==> forall i :: 0 <= i < |column| ==> f.FlattenJson(loads, column[i]).Ok?
    ensures r.Ok? ==> |r.value| == |column|
    ensures r.Ok? ==> forall i :: 0 <= i < |column| ==> r.value[i] == f.FlattenJson(loads, column[i]).value
    ensures r.Raised? ==> r.exc == AttributeError
  {
    if column == [] then Ok([])
    else
      match f.FlattenJson(loads, column[0])
      case Raised(e) => Raised(e)
      case Ok(v) =>
        match ApplyFlatten(f, loads, column[1..])
        case Raised(e) => Raised(e)
        case Ok(rest) => Ok([v] + rest)
  }

  /** The columns after the loop of `transform_data` has run over some
      column names, and the exception that stopped it, if any. */
  datatype Transformed = Transformed(columns: map<string, seq<Value>>, error: Option<Exception>)

  /** The flattener `transform_data` creates. */
  const NameFlatener: JsonFlatener := JsonFlatener(DefaultKey)

  /** One pass of the loop: `df[name] = df[name].apply(flatten_json)`. */
  function FlattenColumn(loads: Loads, columns: map<string, seq<Value>>, name: string): Transformed {
    if name !in columns then Transformed(columns, Some(KeyError(name)))
    else match ApplyFlatten(NameFlatener, loads, columns[name])
      case Raised(e) => Transformed(columns, Some(e))
      case Ok(c) => Transformed(columns[name := c], None)
  }

  /** The loop over `names`, stopping at the first exception; the passes
      before it have already replaced their columns. */
  function TransformColumns(loads: Loads, columns: map<string, seq<Value>>, names: seq<string>): Transformed
    decreases |names|
  {
    if names == [] then Transformed(columns, None)
    else
      var before := TransformColumns(loads, columns, names[..|names| - 1]);
      if before.error.Some? then before
      else FlattenColumn(loads, before.columns, names[|names| - 1])
  }

  /** Once a pass has raised, the later passes do not run. */
  lemma {:induction false} TransformStopsAtError(loads: Loads, columns: map<string, seq<Value>>, names: seq<string>, m: nat)
    requires m <= |names|
    requires TransformColumns(loads, columns, names[..m]).error.Some?
    ensures TransformColumns(loads, columns, names) == TransformColumns(loads, columns, names[..m])
    decreases |names|
  {
    if m < |names| {
      var init := names[..|names| - 1];
      assert init[..m] == names[..m];
      TransformStopsAtError(loads, columns, init, m);
    } else {
      assert names[..m] == names;
    }
  }

  /** Whatever happens, the transform keeps the set of columns and the
      length of each. */
  lemma {:induction false} TransformKeepsShape(loads: Loads, columns: map<string, seq<Value>>, names: seq<string>)
    ensures var t := TransformColumns(loads, columns, names);
      t.columns.Keys == columns.Keys && forall c :: c in columns ==> |t.columns[c]| == |columns[c]|
    decreases |names|
  {
    if names != [] {
      TransformKeepsShape(loads, columns, names[..|names| - 1]);
    }
  }

  /** When no exception is raised, every named column holds the flattening of
      its old cells, and every other column is untouched. */
  lemma {:induction false} TransformSucceeded(loads: Loads, columns: map<string, seq<Value>>, names: seq<string>)
    requires forall i, j :: 0 <= i < j < |names| ==> names[i] != names[j]
    requires TransformColumns(loads, columns, names).error == None
    ensures var t := TransformColumns(loads, columns, names).columns;
      t.Keys == columns.Keys &&
      (forall c :: c in columns && c !in names ==> t[c] == columns[c]) &&
      (forall c :: c in names ==> c in columns && ApplyFlatten(NameFlatener, loads, columns[c]) == Ok(t[c]))
    decreases |names|
  {
    if names != [] {
      var init := names[..|names| - 1];
      var last := names[|names| - 1];
      TransformSucceeded(loads, columns, init);
      assert forall i :: 0 <= i < |init| ==> init[i] == names[i] != last;
      forall c | c in names
        ensures c in init || c == last
      {
        var k :| 0 <= k < |names| && names[k] == c;
        if k < |names| - 1 { assert init[k] == c; }
      }
    }
  }

  /** The transform of the reference columns: the five columns are distinct,
      so on success each holds the flattening of its old cells. */
  lemma ReferenceColumnsFlattened(loads: Loads, columns: map<string, seq<Value>>)
    requires TransformColumns(loads, columns, ReferenceColumns).error == None
    ensures var t := TransformColumns(loads, columns, ReferenceColumns).columns;
      t.Keys == columns.Keys &&
      (forall c :: c in columns && c !in ReferenceColumns ==> t[c] == columns[c]) &&
      (forall c :: c in ReferenceColumns ==>
         c in columns && |t[c]| == |columns[c]| &&
         forall i :: 0 <= i < |columns[c]| ==>
           NameFlatener.FlattenJson(loads, columns[c][i]).Ok? && t[c][i] == NameFlatener.FlattenJson(loads, columns[c][i]).value)
  {
    TransformSucceeded(loads, columns, ReferenceColumns);
  }

  /** The ETL object. Its fields are set once by `Init` and never change.
      `credentials` is the text `<domain>:<api_key>` before base64 encoding. */
  datatype SynchroteamETL = SynchroteamETL(apiUrl: string, credentials: string) {

    /** `__init__`: a missing or empty key or URL is a ValueError; the domain
        is not checked. */
    static function Init(apiKey: Option<string>, apiUrl: Option<string>, domain: Option<string>): (r: Outcome<SynchroteamETL>)
      ensures r.Raised? <==> !Truthy(apiKey) || !Truthy(apiUrl)
      ensures r.Raised? ==> r.exc == ValueError
      ensures r.Ok? ==> r.value.apiUrl == apiUrl.value
      ensures r.Ok? ==> r.value.credentials == Format(domain) + ":" + apiKey.value
    {
      if !Truthy(apiKey) || !Truthy(apiUrl) then Raised(ValueError)
      else Ok(SynchroteamETL(apiUrl.value, Format(domain) + ":" + apiKey.value))
    }

    /** The request for one page of jobs in a date window. */
    function PageRequest(startDate: string, endDate: string, page: nat): Request {
      Request(apiUrl + "/job/list", startDate, endDate, PageSize, page)
    }

    /** The records of pages `lo` .. `hi - 1`, in request order. */
    function PagesBetween(api: Api, startDate: string, endDate: string, lo: nat, hi: nat): seq<Record>
      decreases hi - lo
    {
      if hi <= lo then []
      else PagesBetween(api, startDate, endDate, lo, hi - 1) + Records(api(PageRequest(startDate, endDate, hi - 1)))
    }

    /** The outcome of a fetch that requested pages 1 .. `last`: `last` is the
        first page that ended the fetch, and `jobs` the records of the pages
        before it. */
    predicate FetchedUpTo(api: Api, startDate: string, endDate: string, jobs: seq<Record>, last: nat) {
      && 1 <= last
      && EndsFetch(api(PageRequest(startDate, endDate, last)))
      && (forall p :: 1 <= p < last ==> !EndsFetch(api(PageRequest(startDate, endDate, p))))
      && jobs == PagesBetween(api, startDate, endDate, 1, last)
    }

    /** The records of consecutive page ranges concatenate, in order. */
    lemma {:induction false} PagesBetweenSplit(api: Api, startDate: string, endDate: string, lo: nat, mid: nat, hi: nat)
      requires lo <= mid <= hi
      ensures PagesBetween(api, startDate, endDate, lo, hi)
           == PagesBetween(api, startDate, endDate, lo, mid) + PagesBetween(api, startDate, endDate, mid, hi)
      decreases hi - mid
    {
      if mid < hi {
        PagesBetweenSplit(api, startDate, endDate, lo, mid, hi - 1);
      }
    }

    /** Nothing is dropped, reordered or merged: the fetched records number
        the sum of the page sizes, and the records of page `p` sit, in their
        own order, right after those of the pages before it. */
    lemma PageRecordsInPlace(api: Api, startDate: string, endDate: string, p: nat, hi: nat, j: nat)
      requires 1 <= p < hi
      requires j < |Records(api(PageRequest(startDate, endDate, p)))|
      ensures var before := PagesBetween(api, startDate, endDate, 1, p);
        |before| + j < |PagesBetween(api, startDate, endDate, 1, hi)| &&
        PagesBetween(api, startDate, endDate, 1, hi)[|before| + j] == Records(api(PageRequest(startDate, endDate, p)))[j]
    {
      PagesBetweenSplit(api, startDate, endDate, 1, p + 1, hi);
      var page := Records(api(PageRequest(startDate, endDate, p)));
      var upTo := PagesBetween(api, startDate, endDate, 1, p + 1);
      assert upTo == PagesBetween(api, startDate, endDate, 1, p) + page;
      assert upTo[|PagesBetween(api, startDate, endDate, 1, p)| + j] == page[j];
    }

    /** A fetch has one outcome: the pages requested and the records kept are
        determined by the API's answers. */
    lemma FetchedUpToUnique(api: Api, startDate: string, endDate: string,
                            jobs: seq<Record>, last: nat, jobs': seq<Record>, last': nat)
      requires FetchedUpTo(api, startDate, endDate, jobs, last)
      requires FetchedUpTo(api, startDate, endDate, jobs', last')
      ensures last == last' && jobs == jobs'
    {
    }

    /** An HTTP error on page `k`, after non-empty pages 1 .. k-1, stops the
        fetch there without a retry, and the records of pages 1 .. k-1 are
        kept. */
    lemma HttpErrorKeepsEarlierPages(api: Api, startDate: string, endDate: string, k: nat, jobs: seq<Record>, last: nat)
      requires 1 <= k
      requires forall p :: 1 <= p < k ==> !EndsFetch(api(PageRequest(startDate, endDate, p)))
      requires api(PageRequest(startDate, endDate, k)).HttpError?
      requires FetchedUpTo(api, startDate, endDate, jobs, last)
      ensures last == k && jobs == PagesBetween(api, startDate, endDate, 1, k)
    {
    }

    /** Two pages of 100 and 37 records, then an empty page: the fetch keeps
        the 137 records, page 1's first. */
    lemma TwoPageFetch(api: Api, startDate: string, endDate: string, jobs: seq<Record>, last: nat)
      requires |Records(api(PageRequest(startDate, endDate, 1)))| == 100
      requires |Records(api(PageRequest(startDate, endDate, 2)))| == 37
      requires api(PageRequest(startDate, endDate, 3)) == Page([])
      requires FetchedUpTo(api, startDate, endDate, jobs, last)
      ensures last == 3 && |jobs| == 137
      ensures jobs == Records(api(PageRequest(startDate, endDate, 1))) + Records(api(PageRequest(startDate, endDate, 2)))
    {
      assert PagesBetween(api, startDate, endDate, 1, 1) == [];
    }

    /** The loop of `fetch_jobs`. The source loop has no bound; here some page
        is assumed to end it (an empty page or an HTTP error). */
    method CollectPages(api: Api, startDate: string, endDate: string)
        returns (allJobs: seq<Record>, ghost requested: seq<Request>)
      requires exists n :: 1 <= n && EndsFetch(api(PageRequest(startDate, endDate, n)))
      ensures forall k :: 0 <= k < |requested| ==> requested[k] == PageRequest(startDate, endDate, k + 1)
      ensures FetchedUpTo(api, startDate, endDate, allJobs, |requested|)
    {
      ghost var bound :| 1 <= bound && EndsFetch(api(PageRequest(startDate, endDate, bound)));
      allJobs := [];
      requested := [];
      var page := 1;
      while true
        invariant 1 <= page <= bound
        invariant |requested| == page - 1
        invariant forall k :: 0 <= k < |requested| ==> requested[k] == PageRequest(startDate, endDate, k + 1)
        invariant forall p :: 1 <= p < page ==> !EndsFetch(api(PageRequest(startDate, endDate, p)))
        invariant allJobs == PagesBetween(api, startDate, endDate, 1, page)
        decreases bound - page
      {
        var request := PageRequest(startDate, endDate, page);
        var response := api(request);
        requested := requested + [request];
        if response.HttpError? {
          assert FetchedUpTo(api, startDate, endDate, allJobs, page);
          return;
        }
        var jobs := response.data;
        if jobs == [] {
          assert FetchedUpTo(api, startDate, endDate, allJobs, page);
          return;
        }
        allJobs := allJobs + jobs;
        page := page + 1;
      }
    }

    /** `fetch_jobs`: the loop, then `pd.DataFrame(all_jobs)`. */
    method FetchJobs(api: Api, startDate: string, endDate: string)
        returns (df: Frame, ghost jobs: seq<Record>, ghost requested: seq<Request>)
      requires exists n :: 1 <= n && EndsFetch(api(PageRequest(startDate, endDate, n)))
      ensures fresh(df) && df.Valid()
      ensures forall k :: 0 <= k < |requested| ==> requested[k] == PageRequest(startDate, endDate, k + 1)
      ensures FetchedUpTo(api, startDate, endDate, jobs, |requested|)
      ensures df.rows == |jobs| && df.columns == Table(jobs)
    {
      var allJobs;
      allJobs, requested := CollectPages(api, startDate, endDate);
      jobs := allJobs;
      df := new Frame(allJobs);
    }

    /** `validate_data`: the technician check, then the date coercion written
        back into the table, then the date check. */
    method ValidateData(parseDate: DateParser, df: Frame) returns (r: Outcome<Report>)
      requires df.Valid()
      modifies df
      ensures df.Valid() && df.rows == old(df.rows)
      ensures r == Validate(parseDate, old(df.columns))
      ensures r.Ok? ==> df.columns == old(df.columns)[ScheduledStart := CoerceDates(parseDate, old(df.columns)[ScheduledStart])]
      ensures r.Raised? ==> df.columns == old(df.columns)
    {
      var issues: seq<Issue> := [];
      var technicians := df.Column(Technician);
      if technicians.Raised? {
        return Raised(technicians.exc);
      }
      var missing := CountWhere(technicians.value, MissingTechnician);
      if missing > 0 {
        issues := issues + [MissingTechnicians(missing)];
      }
      var starts := df.Column(ScheduledStart);
      if starts.Raised? {
        return Raised(starts.exc);
      }
      var coerced := CoerceDates(parseDate, starts.value);
      df.SetColumn(ScheduledStart, coerced);
      var invalid := CountWhere(coerced, IsNull);
      if invalid > 0 {
        issues := issues + [InvalidDates(invalid)];
      }
      assert issues == (if missing > 0 then [MissingTechnicians(missing)] else [])
                     + (if invalid > 0 then [InvalidDates(invalid)] else []);
      return Ok(Report(|issues| == 0, issues));
    }

    /** `transform_data`: flattens the five reference columns in place, in
        order, with a flattener on the key "name". An exception leaves the
        columns done so far replaced. */
    method TransformData(loads: Loads, df: Frame) returns (r: Outcome<Frame>)
      requires df.Valid()
      modifies df
      ensures df.Valid() && df.rows == old(df.rows)
      ensures df.columns == TransformColumns(loads, old(df.columns), ReferenceColumns).columns
      ensures r.Raised? <==> TransformColumns(loads, old(df.columns), ReferenceColumns).error.Some?
      ensures r.Raised? ==> Some(r.exc) == TransformColumns(loads, old(df.columns), ReferenceColumns).error
      ensures r.Ok? ==> r.value == df
    {
      var flatener := JsonFlatener(DefaultKey);
      var k := 0;
      while k < |ReferenceColumns|
        invariant 0 <= k <= |ReferenceColumns|
        invariant df.Valid() && df.rows == old(df.rows)
        invariant TransformColumns(loads, old(df.columns), ReferenceColumns[..k]) == Transformed(df.columns, None)
      {
        var column := ReferenceColumns[k];
        assert ReferenceColumns[..k + 1][..k] == ReferenceColumns[..k];
        var cells := df.Column(column);
        if cells.Raised? {
          TransformStopsAtError(loads, old(df.columns), ReferenceColumns, k + 1);
          return Raised(cells.exc);
        }
        var flat := ApplyFlatten(flatener, loads, cells.value);
        if flat.Raised? {
          TransformStopsAtError(loads, old(df.columns), ReferenceColumns, k + 1);
          return Raised(flat.exc);
        }
        df.SetColumn(column, flat.value);
        k := k + 1;
      }
      assert ReferenceColumns[..k] == ReferenceColumns;
      return Ok(df);
    }
  }
}
