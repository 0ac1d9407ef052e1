/** The outbound advisory request and how `buildRequest` fills it from the
    osquery tables (main.go:102-156). */
module Request {
  import opened Errors

  /** One row returned by osquery: column name to value. */
  type Facts = map<string, string>

  /** ExtensionManagerClient.QueryRow, seen from this program: an SQL text
      answered by one row or an error. */
  type QueryRow = string -> Result<Facts>

  const SystemInfoQuery: string := "select * from system_info"
  const OsVersionQuery: string := "select * from os_version"
  const SmcKeysQuery: string := "select value from smc_keys where key = 'RVBF'"
  const PlatformInfoQuery: string := "select * from platform_info"

  /** The four queries in the order `buildRequest` issues them. */
  const Queries: seq<string> := [SystemInfoQuery, OsVersionQuery, SmcKeysQuery, PlatformInfoQuery]

  /** The message each query's failure is wrapped with, index for index.
      The platform_info query reuses the smc_keys text. */
  const QueryContexts: seq<string> :=
    ["query system info table", "query os_version table", "query smc_keys table", "query smc_keys table"]

  const PlaceholderMACAddress: string := "b4:bf:b4:b1:b6:bc"
  const PlaceholderSystemUUID: string := "12345678-1234-1234-1234-1234567890AB"
  const PlaceholderHashedUUID: string := "foobar"
  const PlaceholderBoardID: string := "Mac-66E35819EE2D0D05"

  /** effigyRequest, fields in declaration order. */
  datatype EffigyRequest = EffigyRequest(
    boardID: string,
    smcVersion: string,
    buildNumber: string,
    romVersion: string,
    hardwareVersion: string,
    osVersion: string,
    systemUUID: string,
    macAddress: string,
    hashedUUID: string)

  /** Go's `m[key]` on a map[string]string: a missing key reads as "". */
  function Get(m: Facts, key: string): string {
    if key in m then m[key] else ""
  }

  /** The four fields that are not yet sourced from osquery hold their
      fixed literals. */
  predicate HasPlaceholders(r: EffigyRequest) {
    && r.macAddress == PlaceholderMACAddress
    && r.systemUUID == PlaceholderSystemUUID
    && r.hashedUUID == PlaceholderHashedUUID
    && r.boardID == PlaceholderBoardID
  }

  /** Every one of the four queries answered with a row. */
  predicate AllAnswered(osquery: QueryRow) {
    forall i | 0 <= i < |Queries| :: osquery(Queries[i]).Ok?
  }

  /** Reference definition of the stopping point: the index of the first
      query, at or after `from`, whose answer is an error. */
  function FirstFailure(osquery: QueryRow, from: nat): (k: Option<nat>)
    ensures k.Some? ==> from <= k.value < |Queries| && osquery(Queries[k.value]).Err?
    ensures k.Some? ==> forall i | from <= i < k.value :: osquery(Queries[i]).Ok?
    ensures k.None? ==> forall i | from <= i < |Queries| :: osquery(Queries[i]).Ok?
    decreases |Queries| - from
  {
    if from >= |Queries| then None
    else if osquery(Queries[from]).Err? then Some(from)
    else FirstFailure(osquery, from + 1)
  }

  /** buildRequest (main.go:124-156): four queries in a fixed order, the
      first failure returned wrapped with that query's context, and on
      success five fields looked up from the rows and four placeholders. */
  function BuildRequest(osquery: QueryRow): (r: Result<EffigyRequest>)
    ensures r.Ok? <==> AllAnswered(osquery)
    ensures r.Ok? ==> HasPlaceholders(r.value)
    ensures r.Err? ==> r.error.Wrapped? && r.error.message in QueryContexts
  {
    var systemInfo := osquery(SystemInfoQuery);
    if systemInfo.Err? then
      assert osquery(Queries[0]).Err?;
      Err(Wrapped("query system info table", systemInfo.error))
    else
      var osVersion := osquery(OsVersionQuery);
      if osVersion.Err? then
        assert osquery(Queries[1]).Err?;
        Err(Wrapped("query os_version table", osVersion.error))
      else
        var smcRaw := osquery(SmcKeysQuery);
        if smcRaw.Err? then
          assert osquery(Queries[2]).Err?;
          Err(Wrapped("query smc_keys table", smcRaw.error))
        else
          var platformInfo := osquery(PlatformInfoQuery);
          if platformInfo.Err? then
            assert osquery(Queries[3]).Err?;
            Err(Wrapped("query smc_keys table", platformInfo.error))
          else
            assert forall i | 0 <= i < |Queries| :: osquery(Queries[i]).Ok?;
            Ok(EffigyRequest(
              boardID := PlaceholderBoardID,
              smcVersion := Get(smcRaw.value, "value"),
              buildNumber := Get(osVersion.value, "build"),
              romVersion := Get(platformInfo.value, "version"),
              hardwareVersion := Get(systemInfo.value, "hardware_model"),
              osVersion := Get(osVersion.value, "version"),
              systemUUID := PlaceholderSystemUUID,
              macAddress := PlaceholderMACAddress,
              hashedUUID := PlaceholderHashedUUID))
  }

  /** On success the five sourced fields are exactly the named columns of
      the query rows, a missing column giving "". The firmware version
      sent as rom_ver is platform_info's `version`, not the SMC value. */
  lemma BuildRequestFields(osquery: QueryRow)
    requires AllAnswered(osquery)
    ensures BuildRequest(osquery).Ok?
    ensures var r := BuildRequest(osquery).value;
      && r.buildNumber == Get(osquery(OsVersionQuery).value, "build")
      && r.smcVersion == Get(osquery(SmcKeysQuery).value, "value")
      && r.hardwareVersion == Get(osquery(SystemInfoQuery).value, "hardware_model")
      && r.osVersion == Get(osquery(OsVersionQuery).value, "version")
      && r.romVersion == Get(osquery(PlatformInfoQuery).value, "version")
  {
  }

  /** Failure order: the error returned is the first failing query's own
      error, wrapped with that query's context, and no other. */
  lemma BuildRequestStopsAtFirstFailure(osquery: QueryRow)
    ensures BuildRequest(osquery).Err? <==> FirstFailure(osquery, 0).Some?
    ensures FirstFailure(osquery, 0).Some? ==>
      var k := FirstFailure(osquery, 0).value;
      BuildRequest(osquery).error == Wrapped(QueryContexts[k], osquery(Queries[k]).error)
  {
  }

  /** The queries after the first failing one are never consulted: two
      oracles that agree up to and including it give the same result. */
  lemma BuildRequestIgnoresLaterQueries(q1: QueryRow, q2: QueryRow, k: nat)
    requires FirstFailure(q1, 0) == Some(k)
    requires forall i | 0 <= i <= k :: q1(Queries[i]) == q2(Queries[i])
    ensures BuildRequest(q1) == BuildRequest(q2)
  {
  }

  /** The error text names the failing query and ends with the text of
      the error osquery returned. */
  lemma BuildRequestErrorText(osquery: QueryRow)
    requires BuildRequest(osquery).Err?
    ensures FirstFailure(osquery, 0).Some?
    ensures var k := FirstFailure(osquery, 0).value;
      var text := Message(BuildRequest(osquery).error);
      && StartsWith(text, QueryContexts[k] + ": ")
      && EndsWith(text, Cause(osquery(Queries[k]).error).text)
  {
    BuildRequestStopsAtFirstFailure(osquery);
    var k := FirstFailure(osquery, 0).value;
    var e := BuildRequest(osquery).error;
    assert Cause(e) == Cause(osquery(Queries[k]).error);
    assert StartsWith(Message(e), QueryContexts[k] + ": ");
  }

  /** JSON object keys of effigyRequest's fields, from its struct tags. */
  const RequestWireKeys: seq<string> :=
    ["board_id", "smc_ver", "build_num", "rom_ver", "hw_ver", "os_ver", "sys_uuid", "mac_addr", "hashed_uuid"]

  /** The JSON object json.Encoder writes for a request, as its key/value
      pairs in field order. */
  function EncodeRequest(r: EffigyRequest): (fields: seq<(string, string)>)
    ensures |fields| == |RequestWireKeys|
    ensures forall i | 0 <= i < |fields| :: fields[i].0 == RequestWireKeys[i]
  {
    [("board_id", r.boardID), ("smc_ver", r.smcVersion), ("build_num", r.buildNumber),
     ("rom_ver", r.romVersion), ("hw_ver", r.hardwareVersion), ("os_ver", r.osVersion),
     ("sys_uuid", r.systemUUID), ("mac_addr", r.macAddress), ("hashed_uuid", r.hashedUUID)]
  }

  /** The value of the first pair with key `key`. */
  function WireLookup(fields: seq<(string, string)>, key: string): Option<string>
  {
    if fields == [] then None
    else if fields[0].0 == key then Some(fields[0].1)
    else WireLookup(fields[1..], key)
  }

  /** Looking up a key that no earlier pair carries finds its pair. */
  lemma {:induction false} WireLookupFirst(fields: seq<(string, string)>, j: nat)
    requires j < |fields|
    requires forall i | 0 <= i < j :: fields[i].0 != fields[j].0
    ensures WireLookup(fields, fields[j].0) == Some(fields[j].1)
  {
    if j > 0 {
      WireLookupFirst(fields[1..], j - 1);
    }
  }

  /** What the receiving end reads back out of the encoded object: each
      field under its tag. */
  function DecodeRequest(fields: seq<(string, string)>): Option<EffigyRequest> {
    var board, smc, build := WireLookup(fields, "board_id"), WireLookup(fields, "smc_ver"), WireLookup(fields, "build_num");
    var rom, hw, os := WireLookup(fields, "rom_ver"), WireLookup(fields, "hw_ver"), WireLookup(fields, "os_ver");
    var sys, mac, hashed := WireLookup(fields, "sys_uuid"), WireLookup(fields, "mac_addr"), WireLookup(fields, "hashed_uuid");
    if board.Some? && smc.Some? && build.Some? && rom.Some? && hw.Some? && os.Some?
       && sys.Some? && mac.Some? && hashed.Some?
    then Some(EffigyRequest(board.value, smc.value, build.value, rom.value, hw.value, os.value,
                            sys.value, mac.value, hashed.value))
    else None
  }

  /** The nine tags are distinct, so the encoding loses no field. */
  lemma {:induction false} EncodeRequestLossless(r: EffigyRequest)
    ensures DecodeRequest(EncodeRequest(r)) == Some(r)
  {
    var fields := EncodeRequest(r);
    assert WireLookup(fields, "board_id") == Some(r.boardID) by { WireLookupFirst(fields, 0); }
    assert WireLookup(fields, "smc_ver") == Some(r.smcVersion) by { WireLookupFirst(fields, 1); }
    assert WireLookup(fields, "build_num") == Some(r.buildNumber) by { WireLookupFirst(fields, 2); }
    assert WireLookup(fields, "rom_ver") == Some(r.romVersion) by { WireLookupFirst(fields, 3); }
    assert WireLookup(fields, "hw_ver") == Some(r.hardwareVersion) by { WireLookupFirst(fields, 4); }
    assert WireLookup(fields, "os_ver") == Some(r.osVersion) by { WireLookupFirst(fields, 5); }
    assert WireLookup(fields, "sys_uuid") == Some(r.systemUUID) by { WireLookupFirst(fields, 6); }
    assert WireLookup(fields, "mac_addr") == Some(r.macAddress) by { WireLookupFirst(fields, 7); }
    assert WireLookup(fields, "hashed_uuid") == Some(r.hashedUUID) by { WireLookupFirst(fields, 8); }
  }
}
