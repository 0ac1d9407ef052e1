/** The effigy table plugin: its column list (main.go:55-69) and
    `generate` (main.go:71-100), which builds the request, calls the API
    and assembles the single result row. */
module Effigy {
  import opened Errors
  import opened Request
  import opened Api

  datatype ColumnType = Text

  /** table.ColumnDefinition. */
  datatype ColumnDefinition = ColumnDefinition(name: string, kind: ColumnType)

  /** table.NewPlugin's name and columns. */
  datatype Plugin = Plugin(name: string, columns: seq<ColumnDefinition>)

  /** A row handed back to osquery: column name to value. */
  type ResultRow = map<string, string>

  const StatusSuccess: string := "success"

  /** The names of a plugin's columns. */
  function ColumnNames(p: Plugin): set<string> {
    set c | c in p.columns :: c.name
  }

  /** Table (main.go:55-69): the "effigy" table with nine text columns in
      a fixed order, no name twice. */
  function Table(): (p: Plugin)
    ensures p.name == "effigy"
    ensures |p.columns| == 9
    ensures seq(|p.columns|, i requires 0 <= i < |p.columns| => p.columns[i].name) == [
      "latest_efi_version", "efi_version", "efi_version_status",
      "latest_os_version", "os_version", "os_version_status",
      "latest_build_number", "build_number", "build_number_status"]
    ensures forall i | 0 <= i < |p.columns| :: p.columns[i].kind == Text
    ensures forall i, j | 0 <= i < j < |p.columns| :: p.columns[i].name != p.columns[j].name
  {
    Plugin("effigy", [
      ColumnDefinition("latest_efi_version", Text),
      ColumnDefinition("efi_version", Text),
      ColumnDefinition("efi_version_status", Text),
      ColumnDefinition("latest_os_version", Text),
      ColumnDefinition("os_version", Text),
      ColumnDefinition("os_version_status", Text),
      ColumnDefinition("latest_build_number", Text),
      ColumnDefinition("build_number", Text),
      ColumnDefinition("build_number_status", Text)])
  }

  /** The names of the table's columns, as a set. */
  lemma TableColumnNames()
    ensures ColumnNames(Table()) == {
      "latest_efi_version", "efi_version", "efi_version_status",
      "latest_os_version", "os_version", "os_version_status",
      "latest_build_number", "build_number", "build_number_status"}
  {
  }

  /** The row literal of generate (main.go:86-98): exactly the table's
      columns; each "current" column from the request, each "latest"
      column from the response message, and every status "success". */
  function AssembleRow(req: EffigyRequest, resp: EffigyResponse): (row: ResultRow)
    ensures row.Keys == {
      "latest_efi_version", "efi_version", "efi_version_status",
      "latest_os_version", "os_version", "os_version_status",
      "latest_build_number", "build_number", "build_number_status"}
    ensures row["efi_version"] == req.romVersion
    ensures row["os_version"] == req.osVersion
    ensures row["build_number"] == req.buildNumber
    ensures row["latest_efi_version"] == resp.latestEFIVersion.msg
    ensures row["latest_os_version"] == resp.latestOSVersion.msg
    ensures row["latest_build_number"] == resp.latestBuildNumber.msg
    ensures row["efi_version_status"] == row["os_version_status"] == row["build_number_status"] == StatusSuccess
  {
    var row := map[
      "latest_efi_version" := resp.latestEFIVersion.msg,
      "efi_version" := req.romVersion,
      "efi_version_status" := StatusSuccess,
      "latest_os_version" := resp.latestOSVersion.msg,
      "os_version" := req.osVersion,
      "os_version_status" := StatusSuccess,
      "latest_build_number" := resp.latestBuildNumber.msg,
      "build_number" := req.buildNumber,
      "build_number_status" := StatusSuccess];
    row
  }

  /** The row has exactly the columns the table declares. */
  lemma RowHasTableColumns(req: EffigyRequest, resp: EffigyResponse)
    ensures AssembleRow(req, resp).Keys == ColumnNames(Table())
  {
  }

  /** What generate returns, given osquery's answers and the HTTP exchange:
      either exactly one row with the table's columns, or an error that
      comes unchanged from buildRequest or from callAPI. */
  function Generated(osquery: QueryRow, exchange: PostRequest -> HttpOutcome): (r: Result<seq<ResultRow>>)
    ensures r.Ok? ==> |r.value| == 1
    ensures r.Ok? <==> BuildRequest(osquery).Ok? && Interpret(exchange(PostFor(BuildRequest(osquery).value))).Ok?
    ensures BuildRequest(osquery).Err? ==> r == Err(BuildRequest(osquery).error)
    ensures BuildRequest(osquery).Ok? && r.Err? ==>
      r.error == Interpret(exchange(PostFor(BuildRequest(osquery).value))).error
  {
    match BuildRequest(osquery)
    case Err(e) => Err(e)
    case Ok(req) =>
      match Interpret(exchange(PostFor(req)))
      case Err(e) => Err(e)
      case Ok(resp) => Ok([AssembleRow(req, resp)])
  }

  /** A successful generate hands back exactly one row, and its keys are
      exactly the columns the table declares. */
  lemma GeneratedRowMatchesTable(osquery: QueryRow, exchange: PostRequest -> HttpOutcome)
    requires Generated(osquery, exchange).Ok?
    ensures |Generated(osquery, exchange).value| == 1
    ensures Generated(osquery, exchange).value[0].Keys == ColumnNames(Table())
  {
    var req := BuildRequest(osquery).value;
    RowHasTableColumns(req, Interpret(exchange(PostFor(req))).value);
  }

  /** What generate writes to stderr: the diagnostic of the one API call,
      if the request could be built. */
  function GenerateLog(osquery: QueryRow, exchange: PostRequest -> HttpOutcome): seq<byte> {
    match BuildRequest(osquery)
    case Err(_) => []
    case Ok(req) => Diagnostic(exchange(PostFor(req)))
  }

  /** The Posts generate makes: one, if the request could be built, and
      none otherwise. */
  function GeneratePosts(osquery: QueryRow): seq<PostRequest> {
    match BuildRequest(osquery)
    case Err(_) => []
    case Ok(req) => [PostFor(req)]
  }

  /** generate (main.go:72-100). The query context is never consulted and
      is left out. */
  method Generate(osquery: QueryRow, client: HttpClient, stderr: DiagnosticStream)
    returns (r: Result<seq<ResultRow>>)
    modifies client, stderr
    ensures r == Generated(osquery, client.exchange)
    ensures client.sent == old(client.sent) + GeneratePosts(osquery)
    ensures stderr.written == old(stderr.written) + GenerateLog(osquery, client.exchange)
  {
    var req := BuildRequest(osquery);
    if req.Err? {
      return Err(req.error);
    }
    var resp := CallAPI(client, stderr, req.value);
    if resp.Err? {
      return Err(resp.error);
    }
    var result := [AssembleRow(req.value, resp.value)];
    return Ok(result);
  }

  /** When a query fails the HTTP exchange is irrelevant: nothing is posted,
      nothing is logged and the result is the same for every transport. */
  lemma FailedBuildSkipsApi(osquery: QueryRow, e1: PostRequest -> HttpOutcome, e2: PostRequest -> HttpOutcome)
    requires !AllAnswered(osquery)
    ensures Generated(osquery, e1) == Generated(osquery, e2)
    ensures Generated(osquery, e1).Err?
    ensures GeneratePosts(osquery) == [] && GenerateLog(osquery, e1) == []
  {
  }

  /** A non-200 reply (a 503, say) yields no rows, an error quoting the
      status line, and the reply body on stderr. */
  lemma FailedStatusIsReported(osquery: QueryRow, exchange: PostRequest -> HttpOutcome)
    requires AllAnswered(osquery)
    requires var o := exchange(PostFor(BuildRequest(osquery).value)); o.Reply? && o.statusCode != StatusOK
    ensures var o := exchange(PostFor(BuildRequest(osquery).value));
      && Generated(osquery, exchange).Err?
      && Contains(Message(Generated(osquery, exchange).error), o.status)
      && GenerateLog(osquery, exchange) == o.body
  {
  }

  /** A 200 reply yields one row whose "latest" columns are the decoded
      messages and whose "current" columns are the osquery facts, the
      efi_version column holding platform_info's version. */
  lemma SuccessRowContents(osquery: QueryRow, exchange: PostRequest -> HttpOutcome)
    requires AllAnswered(osquery)
    requires var o := exchange(PostFor(BuildRequest(osquery).value)); o.Reply? && o.statusCode == StatusOK
    ensures var req := BuildRequest(osquery).value;
      var resp := exchange(PostFor(req)).decoding.filled;
      var row := AssembleRow(req, resp);
      && Generated(osquery, exchange) == Ok([row])
      && row["efi_version"] == Get(osquery(PlatformInfoQuery).value, "version")
      && row["os_version"] == Get(osquery(OsVersionQuery).value, "version")
      && row["build_number"] == Get(osquery(OsVersionQuery).value, "build")
      && row["latest_efi_version"] == resp.latestEFIVersion.msg
      && row["latest_os_version"] == resp.latestOSVersion.msg
      && row["latest_build_number"] == resp.latestBuildNumber.msg
  {
    BuildRequestFields(osquery);
  }
}
