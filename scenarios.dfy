/** Concrete runs of the model: a MacBook whose facts are all present,
    answered once by a service in good health and once by one that is
    unavailable. */
module Scenarios {
  import opened Errors
  import opened Request
  import opened Api
  import opened Effigy

  /** osquery on the example machine. */
  function MacBookOsquery(sql: string): Result<Facts> {
    if sql == SystemInfoQuery then Ok(map["hardware_model" := "MacBookPro15,1"])
    else if sql == OsVersionQuery then Ok(map["build" := "19H2", "version" := "10.15.7"])
    else if sql == SmcKeysQuery then Ok(map["value" := "1.23"])
    else if sql == PlatformInfoQuery then Ok(map["version" := "426.0.0.0.0"])
    else Err(Foreign("no such table"))
  }

  const LatestAdvice: EffigyResponse :=
    EffigyResponse(Msg("1.2.3"), Msg("10.1"), Msg("B100"))

  /** A service that answers every request with 200 and whose reply
      decodes to LatestAdvice. The body bytes are not modelled here (they
      are left empty): on a 200 only the decoding is read. */
  function HealthyService(p: PostRequest): HttpOutcome {
    Reply(StatusOK, "200 OK", [], Decoding(LatestAdvice, None))
  }

  /** "oops", the body the unavailable service sends. */
  const OutageBody: seq<byte> := [0x6f, 0x6f, 0x70, 0x73]

  /** A service that answers every request with 503. */
  function UnavailableService(p: PostRequest): HttpOutcome {
    var zero := EffigyResponse(Msg(""), Msg(""), Msg(""));
    Reply(503, "503 Service Unavailable", OutageBody, Decoding(zero, Some(Foreign("invalid character 'o'"))))
  }

  const MacBookRequest: EffigyRequest := EffigyRequest(
    PlaceholderBoardID, "1.23", "19H2", "426.0.0.0.0", "MacBookPro15,1", "10.15.7",
    PlaceholderSystemUUID, PlaceholderMACAddress, PlaceholderHashedUUID)

  /** The machine's request carries its five facts and the placeholders. */
  lemma MacBookScenarioRequest()
    ensures BuildRequest(MacBookOsquery) == Ok(MacBookRequest)
  {
  }

  /** The machine's row pairs its facts with the advice. efi_version is
      platform_info's version, not the SMC value "1.23". */
  lemma HealthyScenario()
    ensures Generated(MacBookOsquery, HealthyService) == Ok([map[
      "latest_efi_version" := "1.2.3", "efi_version" := "426.0.0.0.0", "efi_version_status" := "success",
      "latest_os_version" := "10.1", "os_version" := "10.15.7", "os_version_status" := "success",
      "latest_build_number" := "B100", "build_number" := "19H2", "build_number_status" := "success"]])
    ensures GenerateLog(MacBookOsquery, HealthyService) == []
  {
    MacBookScenarioRequest();
    var o := HealthyService(PostFor(MacBookRequest));
    assert Interpret(o) == Ok(LatestAdvice);
    var row := AssembleRow(MacBookRequest, LatestAdvice);
    assert Generated(MacBookOsquery, HealthyService) == Ok([row]);
  }

  /** With the service down, generate yields no rows, an error that quotes
      "503", and the body on stderr. */
  lemma UnavailableScenario()
    ensures Generated(MacBookOsquery, UnavailableService).Err?
    ensures Contains(Message(Generated(MacBookOsquery, UnavailableService).error), "503")
    ensures GenerateLog(MacBookOsquery, UnavailableService) == OutageBody
  {
    MacBookScenarioRequest();
    FailedStatusIsReported(MacBookOsquery, UnavailableService);
    var text := Message(Generated(MacBookOsquery, UnavailableService).error);
    assert StartsWith("503 Service Unavailable", "503");
    ContainsPrefix(text, "503 Service Unavailable", "503");
  }

  /** Two invocations against the same answers give the same row, each
      posts once to the advisory endpoint, and nothing reaches stderr. */
  method RepeatedInvocation() {
    var client := new HttpClient(HealthyService);
    var stderr := new DiagnosticStream();
    MacBookScenarioRequest();
    var first := Generate(MacBookOsquery, client, stderr);
    var second := Generate(MacBookOsquery, client, stderr);
    assert first == second && first.Ok? && |first.value| == 1;
    assert client.sent == [PostFor(MacBookRequest), PostFor(MacBookRequest)];
    assert stderr.written == [];
  }
}
