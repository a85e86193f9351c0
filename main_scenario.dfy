/**
 Concrete uses of the two clients: the sample run of the entry point (two
 categories, one sentence, two person-name matches), and the configuration-order
 cases of both clients.
 */
module MainScenario {
  import opened DlpWire
  import opened InspectContent

  const SampleInfoTypes: seq<string> := ["EMAIL_ADDRESS", "PERSON_NAME"]
  const SampleInput := "Hello I am Luli, She is my sister, Tracy!!!"

  /** What the service reports for the sample input: two person names. */
  function SampleResponse(): InspectContentResponse
  {
    InspectContentResponse([
      Finding(InfoType("PERSON_NAME"), 11, 4, "Luli"),
      Finding(InfoType("PERSON_NAME"), 35, 5, "Tracy")
    ])
  }

  /** The sample run: both quotes sit at their offsets in the input, and the
      results keep the service's order with end = start + length. */
  lemma SampleRunResults()
    ensures SampleInput[11..15] == "Luli" && SampleInput[35..40] == "Tracy"
    ensures FormatFindings(SampleResponse().findings) == [
              InspectResult("PERSON_NAME", 11, 15, "Luli"),
              InspectResult("PERSON_NAME", 35, 40, "Tracy")
            ]
  {
    assert SampleInput[11] == 'L' && SampleInput[12] == 'u' && SampleInput[13] == 'l' && SampleInput[14] == 'i';
    assert SampleInput[35] == 'T' && SampleInput[36] == 'r' && SampleInput[37] == 'a'
        && SampleInput[38] == 'c' && SampleInput[39] == 'y';
  }

  /** The inspection client configured as in the entry point, run against a
      service that answers with the sample response. */
  method SampleRun() returns (r: Result<seq<InspectResult>>)
    ensures r == Success([
              InspectResult("PERSON_NAME", 11, 15, "Luli"),
              InspectResult("PERSON_NAME", 35, 40, "Tracy")
            ])
  {
    var client := new RunInspectContent("localhost:50051");
    client.SetInfoTypes(SampleInfoTypes);
    r := client.Run(SampleInput, _ => Replied(SampleResponse()));
    SampleRunResults();
  }

  /** Running before configuring fails on the missing attribute, for both
      clients, before anything reaches the service. */
  method RunBeforeConfigure() returns (inspect: Result<seq<InspectResult>>, deidentify: Result<DeidentifyContentRequest>)
    ensures inspect == Failure(AttributeError("inspect_config"))
    ensures deidentify == Failure(AttributeError("inspect_config"))
  {
    var inspector := new RunInspectContent("localhost:50051");
    inspect := inspector.Run(SampleInput, _ => Replied(SampleResponse()));
    var deidentifier := new RunDeidentifyContent("localhost:50051");
    deidentify := deidentifier.GetRequestClass(SampleInput);
  }

  /** An empty list of categories is accepted: both clients build a request
      whose scan configuration lists no info type. */
  method EmptyCategoryList() returns (inspect: Result<InspectContentRequest>, deidentify: Result<DeidentifyContentRequest>)
    ensures inspect.Success? && inspect.value.inspectConfig.infoTypes == []
    ensures deidentify.Success? && deidentify.value.inspectConfig.infoTypes == []
    ensures deidentify.Success? ==>
              deidentify.value.deidentifyConfig.infoTypeTransformations.transformations
              == [InfoTypeTransformation(ReplaceWithInfoTypeConfig, [])]
  {
    var inspector := new RunInspectContent("localhost:50051");
    inspector.SetInfoTypes([]);
    inspect := inspector.GetRequestClass(SampleInput);
    var deidentifier := new RunDeidentifyContent("localhost:50051");
    deidentifier.SetInfoTypes([]);
    deidentify := deidentifier.GetRequestClass(SampleInput);
  }

  /** Configuring twice keeps only the second list, and the address given to
      the constructor. */
  method Reconfigure() returns (request: Result<DeidentifyContentRequest>, server: string)
    ensures request.Success?
    ensures NamesOf(request.value.inspectConfig.infoTypes) == ["PERSON_NAME"]
    ensures var covered := CoveredInfoTypes(request.value.deidentifyConfig.infoTypeTransformations.transformations);
            NamesOf(covered) == ["PERSON_NAME"]
    ensures server == "localhost:50051"
  {
    var deidentifier := new RunDeidentifyContent("localhost:50051");
    deidentifier.SetInfoTypes(SampleInfoTypes);
    deidentifier.SetInfoTypes(["PERSON_NAME"]);
    request := deidentifier.GetRequestClass("Hello my name is Melissa!!!");
    server := deidentifier.server;
  }
}
