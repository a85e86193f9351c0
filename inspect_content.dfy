/**
 The two clients of the data-loss-prevention service, with everything that
 touches the network cut away: how a list of category names becomes the scan
 configuration (and, for de-identification, the transformation policy), how a
 request is assembled from the stored configuration, and how the findings of an
 inspection response are flattened into caller-facing results. The remote call
 itself is a function parameter.
 */
module InspectContent {
  import opened DlpWire

  /** The message of the `ValueError` raised by the request guard. */
  const NotBuiltMessage := "Infotypes should be build before run."

  // ---------------------------------------------------------------------------
  // Configuration building
  // ---------------------------------------------------------------------------

  /** `[{"name": t} for t in names]`: one info type per name, in order. */
  function InfoTypesOf(names: seq<string>): (r: seq<InfoType>)
    ensures |r| == |names|
    ensures forall i :: 0 <= i < |names| ==> r[i] == InfoType(names[i])
  {
    if names == [] then [] else [InfoType(names[0])] + InfoTypesOf(names[1..])
  }

  /** The category names a list of info types stands for. */
  function NamesOf(infoTypes: seq<InfoType>): seq<string>
  {
    if infoTypes == [] then [] else [infoTypes[0].name] + NamesOf(infoTypes[1..])
  }

  /** Reading the names back out of the built info types gives the input list:
      nothing is dropped, added, reordered or renamed. */
  lemma {:induction false} NamesRoundTrip(names: seq<string>)
    ensures NamesOf(InfoTypesOf(names)) == names
  {
    if names != [] {
      assert InfoTypesOf(names)[1..] == InfoTypesOf(names[1..]);
      NamesRoundTrip(names[1..]);
    }
  }

  /** The scan configuration `set_info_types` stores for a list of names. */
  function BuildInspectConfig(names: seq<string>): (c: InspectConfig)
    ensures NamesOf(c.infoTypes) == names
    ensures |c.infoTypes| == |names|
    ensures forall i :: 0 <= i < |names| ==> c.infoTypes[i] == InfoType(names[i])
  {
    NamesRoundTrip(names);
    InspectConfig(InfoTypesOf(names))
  }

  /** The configuration is stored as a dictionary whose one key is always
      `"info_types"`, whatever the list of names. */
  function ConfigKeys(c: InspectConfig): set<string>
  {
    {"info_types"}
  }

  /** Python truthiness of that dictionary: it has at least one key. */
  predicate IsTruthy(c: InspectConfig)
  {
    ConfigKeys(c) != {}
  }

  /** The request guard `if not self.inspect_config` never fires: every stored
      configuration is truthy, including the one built from an empty list. */
  lemma GuardNeverFires(c: InspectConfig)
    ensures IsTruthy(c)
    ensures IsTruthy(BuildInspectConfig([]))
  {
  }

  /** Every info type that some transformation of the policy rewrites, rule by
      rule, with multiplicity. */
  function CoveredInfoTypes(transformations: seq<InfoTypeTransformation>): seq<InfoType>
  {
    if transformations == [] then []
    else transformations[0].infoTypes + CoveredInfoTypes(transformations[1..])
  }

  /** The transformation policy derived from a scan configuration: a single
      rule over exactly the configuration's info types. That its primitive is
      replace-with-info-type holds by its type, which has no other primitive. */
  function DeriveDeidentifyConfig(c: InspectConfig): (d: DeidentifyConfig)
    ensures |d.infoTypeTransformations.transformations| == 1
    ensures CoveredInfoTypes(d.infoTypeTransformations.transformations) == c.infoTypes
  {
    var rule := InfoTypeTransformation(ReplaceWithInfoTypeConfig, c.infoTypes);
    assert CoveredInfoTypes([rule]) == c.infoTypes + CoveredInfoTypes([]);
    DeidentifyConfig(InfoTypeTransformations([rule]))
  }

  /** The policy built from a list of names covers exactly those names, in the
      same order, each as many times as it was supplied. */
  lemma DeidentifyCoversEachCategory(names: seq<string>)
    ensures var d := DeriveDeidentifyConfig(BuildInspectConfig(names));
            NamesOf(CoveredInfoTypes(d.infoTypeTransformations.transformations)) == names
    ensures var d := DeriveDeidentifyConfig(BuildInspectConfig(names));
            multiset(NamesOf(CoveredInfoTypes(d.infoTypeTransformations.transformations))) == multiset(names)
  {
  }

  // ---------------------------------------------------------------------------
  // Request construction
  // ---------------------------------------------------------------------------

  /** `{"value": content}`: the content is wrapped as it is. */
  function ContentToItem(content: string): (item: ContentItem)
    ensures item.value == content
  {
    ContentItem(content)
  }

  // ---------------------------------------------------------------------------
  // Response normalisation
  // ---------------------------------------------------------------------------

  /** The finding a result was made from, read back: the end index minus the
      start index is the length. */
  function RecoverFinding(r: InspectResult): Finding
  {
    Finding(InfoType(r.infoType), r.startIdx, r.endIdx - r.startIdx, r.context)
  }

  /** One finding flattened into the result dictionary: its category name, its
      offset as start, offset plus length as end, and its quote as context. */
  function FormatFinding(f: Finding): (r: InspectResult)
    ensures r.infoType == f.infoType.name && r.context == f.quote
    ensures r.startIdx == f.byteOffset && r.endIdx - r.startIdx == f.byteLength
    ensures RecoverFinding(r) == f
  {
    InspectResult(f.infoType.name, f.byteOffset, f.byteOffset + f.byteLength, f.quote)
  }

  /** The findings of a response flattened one by one, in the service's order. */
  function FormatFindings(findings: seq<Finding>): (r: seq<InspectResult>)
    ensures |r| == |findings|
    ensures forall i :: 0 <= i < |findings| ==> r[i] == FormatFinding(findings[i])
  {
    if findings == [] then [] else [FormatFinding(findings[0])] + FormatFindings(findings[1..])
  }

  /** The findings read back from a list of results. */
  function RecoverFindings(results: seq<InspectResult>): seq<Finding>
  {
    if results == [] then [] else [RecoverFinding(results[0])] + RecoverFindings(results[1..])
  }

  /** Normalisation loses nothing: the findings, with their order and
      multiplicity, can be read back from the results. */
  lemma {:induction false} NormalisationLosesNothing(findings: seq<Finding>)
    ensures RecoverFindings(FormatFindings(findings)) == findings
  {
    if findings != [] {
      assert FormatFindings(findings)[1..] == FormatFindings(findings[1..]);
      NormalisationLosesNothing(findings[1..]);
    }
  }

  /** Normalising two batches of findings one after the other is normalising
      them together: results are neither re-sorted nor merged across findings. */
  lemma FormatFindingsAppend(a: seq<Finding>, b: seq<Finding>)
    ensures FormatFindings(a + b) == FormatFindings(a) + FormatFindings(b)
  {
  }

  // ---------------------------------------------------------------------------
  // The inspection client
  // ---------------------------------------------------------------------------

  class RunInspectContent {
    /** The service address; assigned once by the constructor. */
    const server: string
    /** `None` until `SetInfoTypes` assigns the instance attribute. */
    var inspectConfig: Option<InspectConfig>

    constructor (grpcServer: string)
      ensures server == grpcServer
      ensures inspectConfig == None
    {
      server := grpcServer;
      inspectConfig := None;
    }

    /** Stores the scan configuration for `infoTypes`, replacing any earlier one. */
    method SetInfoTypes(infoTypes: seq<string>)
      modifies this
      ensures inspectConfig == Some(BuildInspectConfig(infoTypes))
    {
      inspectConfig := Some(BuildInspectConfig(infoTypes));
    }

    /** The request for `content`: fails only while no configuration has been
        stored (the guard on the stored dictionary never fires, even for an
        empty list of names). */
    method GetRequestClass(content: string) returns (r: Result<InspectContentRequest>)
      ensures inspectConfig.None? ==> r == Failure(AttributeError("inspect_config"))
      ensures inspectConfig.Some? ==> r.Success?
      ensures r.Success? ==> r.value.item.value == content
      ensures r.Success? ==> Some(r.value.inspectConfig) == inspectConfig
    {
      if inspectConfig.None? {
        return Failure(AttributeError("inspect_config"));
      }
      var config := inspectConfig.value;
      if !IsTruthy(config) {
        return Failure(ValueError(NotBuiltMessage));
      }
      r := Success(InspectContentRequest(ContentToItem(content), config));
    }

    /** The results for a response: one per finding, in the service's order. */
    method FormatResponse(response: InspectContentResponse) returns (results: seq<InspectResult>)
      ensures results == FormatFindings(response.findings)
      ensures response.findings == [] ==> results == []
    {
      results := [];
      var findings := response.findings;
      if |findings| > 0 {
        for i := 0 to |findings|
          invariant |results| == i
          invariant forall k :: 0 <= k < i ==> results[k] == FormatFinding(findings[k])
        {
          results := results + [FormatFinding(findings[i])];
        }
      }
    }

    /** One inspection: build the request, hand it to `service` (the remote
        call), and normalise what comes back; a failed call surfaces as an
        `RpcError` carrying the call's detail. */
    method Run(content: string, service: InspectContentRequest -> RpcOutcome<InspectContentResponse>)
      returns (r: Result<seq<InspectResult>>)
      ensures inspectConfig.None? ==> r == Failure(AttributeError("inspect_config"))
      ensures inspectConfig.Some? ==>
                var sent := InspectContentRequest(ContentItem(content), inspectConfig.value);
                match service(sent)
                case CallFailed(detail) => r == Failure(RpcError(detail))
                case Replied(response) => r == Success(FormatFindings(response.findings))
    {
      var request := GetRequestClass(content);
      if request.Failure? {
        return Failure(request.error);
      }
      var outcome := service(request.value);
      if outcome.CallFailed? {
        return Failure(RpcError(outcome.detail));
      }
      var results := FormatResponse(outcome.response);
      r := Success(results);
    }
  }

  // ---------------------------------------------------------------------------
  // The de-identification client
  // ---------------------------------------------------------------------------

  class RunDeidentifyContent {
    /** The service address; assigned once by the constructor. */
    const server: string
    /** `None` until `SetInfoTypes` assigns the instance attribute. */
    var inspectConfig: Option<InspectConfig>
    /** `None` until `SetDeidentifyConfig` assigns the instance attribute. */
    var deidentifyConfig: Option<DeidentifyConfig>

    /** Both attributes are assigned together, and the policy is always the one
        derived from the stored scan configuration. */
    ghost predicate Valid()
      reads this
    {
      match inspectConfig
      case None => deidentifyConfig == None
      case Some(c) => deidentifyConfig == Some(DeriveDeidentifyConfig(c))
    }

    constructor (grpcServer: string)
      ensures server == grpcServer
      ensures inspectConfig == None && deidentifyConfig == None
      ensures Valid()
    {
      server := grpcServer;
      inspectConfig := None;
      deidentifyConfig := None;
    }

    /** Stores the scan configuration for `infoTypes` and the policy derived
        from it, replacing any earlier ones. */
    method SetInfoTypes(infoTypes: seq<string>)
      modifies this
      ensures inspectConfig == Some(BuildInspectConfig(infoTypes))
      ensures deidentifyConfig == Some(DeriveDeidentifyConfig(BuildInspectConfig(infoTypes)))
      ensures Valid()
    {
      inspectConfig := Some(BuildInspectConfig(infoTypes));
      var _ := SetDeidentifyConfig();
    }

    /** Derives the policy from the stored scan configuration; reading a scan
        configuration that was never stored fails. */
    method SetDeidentifyConfig() returns (r: Result<()>)
      modifies this`deidentifyConfig
      ensures inspectConfig.None? ==>
                r == Failure(AttributeError("inspect_config")) && deidentifyConfig == old(deidentifyConfig)
      ensures inspectConfig.Some? ==>
                r.Success? && deidentifyConfig == Some(DeriveDeidentifyConfig(inspectConfig.value))
      ensures inspectConfig.Some? ==> Valid()
    {
      if inspectConfig.None? {
        return Failure(AttributeError("inspect_config"));
      }
      deidentifyConfig := Some(DeriveDeidentifyConfig(inspectConfig.value));
      r := Success(());
    }

    /** The request for `content`, carrying both stored configurations. */
    method GetRequestClass(content: string) returns (r: Result<DeidentifyContentRequest>)
      ensures inspectConfig.None? ==> r == Failure(AttributeError("inspect_config"))
      ensures inspectConfig.Some? && deidentifyConfig.None? ==> r == Failure(AttributeError("deidentify_config"))
      ensures r.Success? <==> inspectConfig.Some? && deidentifyConfig.Some?
      ensures r.Success? ==> r.value.item.value == content
      ensures r.Success? ==> Some(r.value.inspectConfig) == inspectConfig
      ensures r.Success? ==> Some(r.value.deidentifyConfig) == deidentifyConfig
      ensures Valid() ==> (r.Success? <==> inspectConfig.Some?)
      ensures Valid() && r.Success? ==>
                CoveredInfoTypes(r.value.deidentifyConfig.infoTypeTransformations.transformations)
                == r.value.inspectConfig.infoTypes
    {
      if inspectConfig.None? {
        return Failure(AttributeError("inspect_config"));
      }
      var config := inspectConfig.value;
      if !IsTruthy(config) {
        return Failure(ValueError(NotBuiltMessage));
      }
      if deidentifyConfig.None? {
        return Failure(AttributeError("deidentify_config"));
      }
      r := Success(DeidentifyContentRequest(ContentToItem(content), deidentifyConfig.value, config));
    }
  }
}
