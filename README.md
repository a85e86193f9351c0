# dlp-grpc-client: configuration, requests and normalised results

This project models the client core of `dlp-grpc-client` in Dafny. That client
sends free text to a remote data-loss-prevention service. It has two classes,
`RunInspectContent` and `RunDeidentifyContent`, and the model keeps the local
logic of both:

- **Configuration building.** A list of category names ("info types") becomes
  the scan configuration `{"info_types": [{"name": t}, ...]}`. The
  de-identification client also derives a transformation policy from it: one
  replace-with-info-type rule whose `info_types` is that same list.
- **Request construction.** The content is wrapped as `{"value": content}`, and
  the request carries the stored configuration(s) as they are.
- **Response normalisation.** Each finding `(info_type.name, byte_offset,
  byte_length, quote)` becomes `{info_type, start_idx, end_idx =
  byte_offset + byte_length, context = quote}`. Results keep the service's
  order.

Files:

- `wire.dfy` (module `DlpWire`): the request and response messages as
  datatypes, plus `Error`, `Option`, `Result` and the outcome of a remote call,
  `RpcOutcome`.
- `inspect_content.dfy` (module `InspectContent`): the pure builders and
  normaliser, and the two client classes. A client's state is its optional
  stored configuration. `None` means the Python attribute was never assigned.
- `main_scenario.dfy` (module `MainScenario`): the entry point's sample run,
  plus the configuration-order cases of both clients.

The remote call is a parameter of `RunInspectContent.Run`. It is a function
from the request to either the service's reply or the detail of a failed call.
A reply is normalised; a failure becomes an `RpcError` carrying that detail.

Where the code and the intended design differ, the model follows the code:

- **An empty category list is accepted.** The request guard
  `if not self.inspect_config` tests whether a dictionary is truthy. That
  dictionary always has the one key `"info_types"`, so the guard never fires.
  No configuration error exists, and an empty list yields a request with an
  empty scan configuration (`GuardNeverFires`, `MainScenario.EmptyCategoryList`).
- **Running an unconfigured client fails differently.** It fails because the
  instance attribute is missing: a Python `AttributeError`, modelled as
  `AttributeError("inspect_config")`. It does not fail through the client's
  `ValueError`, which no input can reach.
- **The sample's second offset is 35.** In the entry point's sample sentence,
  "Tracy" starts at character 35, so the concrete response in
  `MainScenario.SampleResponse` reports offset 35.

## Model

| member | source | states |
|---|---|---|
| `InspectContent.InfoTypesOf` | src/app/InspectContent.py:12 | the comprehension yields one info type per name, same length, entry i is `{"name": names[i]}` |
| `InspectContent.NamesRoundTrip` | src/app/InspectContent.py:11-12 | reading the names back from the built info types gives exactly the input list (nothing dropped, added, reordered or renamed) |
| `InspectContent.BuildInspectConfig` | src/app/InspectContent.py:68-69 | the stored scan configuration lists the input names in order, one entry per name, and its names read back to the input |
| `InspectContent.DeriveDeidentifyConfig` | src/app/InspectContent.py:72-82 | the policy has exactly one transformation, and the info types it covers are exactly the scan configuration's (its primitive is replace-with-info-type by its type, which has no other primitive) |
| `InspectContent.GuardNeverFires` | src/app/InspectContent.py:26-27 | the guard's truthiness test on the stored dictionary holds for every configuration, the empty one included, so its `ValueError` is unreachable (the same guard stands at src/app/InspectContent.py:107-108) |
| `InspectContent.ContentToItem` | src/app/InspectContent.py:36-37 | the item's value is the content, unchanged (the de-identify client's copy is src/app/InspectContent.py:118-119) |
| `InspectContent.DeidentifyCoversEachCategory` | src/app/InspectContent.py:68-82 | the policy built from a name list covers exactly those names in the same order, each as many times as supplied (same multiset) |
| `InspectContent.FormatFinding` | src/app/InspectContent.py:46-60 | the call to `_get_inspect_result` and the dictionary it returns: a result's info type is the finding's category name, start is its offset, end minus start is its length, context is its quote, and the finding can be read back from the result |
| `InspectContent.FormatFindings` | src/app/InspectContent.py:42-53 | exactly one result per finding, result i made from finding i (service order kept) |
| `InspectContent.NormalisationLosesNothing` | src/app/InspectContent.py:42-60 | the findings, with their order and multiplicity, are recovered from the results: no re-sorting, de-duplication or loss |
| `InspectContent.FormatFindingsAppend` | src/app/InspectContent.py:44-52 | normalising a concatenation of findings is concatenating their normalisations: each finding is flattened independently, in place |
| `InspectContent.RunInspectContent.constructor` | src/app/InspectContent.py:8-9 | stores the server address; no configuration is stored yet |
| `InspectContent.RunInspectContent.SetInfoTypes` | src/app/InspectContent.py:11-12 | the stored configuration is the one built from the new list only, replacing any earlier one; the server is a constant and cannot change |
| `InspectContent.RunInspectContent.GetRequestClass` | src/app/InspectContent.py:25-37 | fails with the missing-attribute error exactly when nothing is stored; otherwise succeeds, even for an empty list, with item value equal to the content and the stored configuration unchanged |
| `InspectContent.RunInspectContent.FormatResponse` | src/app/InspectContent.py:40-53 | the loop's results equal the normalisation of the response's findings; zero findings give an empty list, not an error |
| `InspectContent.RunInspectContent.Run` | src/app/InspectContent.py:15-23 | unconfigured fails with the missing-attribute error; otherwise the service receives the request for the content and stored configuration, a failed call surfaces as an `RpcError` with the call's detail, and a reply's findings come back normalised |
| `InspectContent.RunDeidentifyContent.constructor` | src/app/InspectContent.py:64-65 | stores the server address; neither configuration is stored yet; the two-configuration invariant holds |
| `InspectContent.RunDeidentifyContent.SetInfoTypes` | src/app/InspectContent.py:68-70 | both stored configurations are derived from the new list only, and the policy is the one derived from the scan configuration |
| `InspectContent.RunDeidentifyContent.SetDeidentifyConfig` | src/app/InspectContent.py:72-82 | stores the policy derived from the stored scan configuration; without one it fails with the missing-attribute error and changes nothing; with one it restores the two-configuration invariant |
| `InspectContent.RunDeidentifyContent.GetRequestClass` | src/app/InspectContent.py:106-119 | fails on whichever attribute is missing, otherwise carries the content and both stored configurations unchanged; on a valid client it succeeds exactly when configured, and the policy covers exactly the request's info types |
| `MainScenario.SampleRunResults` | src/main.py:6-10 | for the sample sentence the two quotes sit at their offsets, and the results are the two person names in order with end = start + length |
| `MainScenario.SampleRun` | src/main.py:5-10 | the client configured as in the entry point and run against the sample response returns those two results |
| `MainScenario.RunBeforeConfigure` | src/app/InspectContent.py:25-27 | both clients, when run unconfigured, fail on the missing `inspect_config` attribute (for the de-identify client at its guard, src/app/InspectContent.py:106-108) |
| `MainScenario.EmptyCategoryList` | src/app/InspectContent.py:106-115 | an empty category list still yields requests from both clients, with an empty scan configuration and a single rule over no info types |
| `MainScenario.Reconfigure` | src/app/InspectContent.py:68-70 | configuring twice leaves only the second list in both configurations, and the server address unchanged |

## Left out

- The transport is not modelled: the gRPC channel, the stub, and the `InspectContent` and `DeidentifyContent` remote calls (src/app/InspectContent.py:17-21, 99-103). This is network I/O. The inspection call is a function parameter of `RunInspectContent.Run`, and its failure is a detail string mapped to `RpcError`. Channel opening and closing are not modelled. The stored `server` address is therefore never read: the code opens its channel to it (src/app/InspectContent.py:17), and the model has no channel.
- `RunDeidentifyContent.run` (src/app/InspectContent.py:97-104) is not modelled. It sends the request that `RunDeidentifyContent.GetRequestClass` builds and returns the service's response untouched, with no local logic.
- Protobuf message classes and the `isinstance` assertion on the response (src/app/InspectContent.py:29, 41, 73, 110) are not modelled. The messages are datatypes here, so a response of the wrong type cannot be written.
- The commented-out alternative de-identification configuration (src/app/InspectContent.py:83-94) is dead code and is not modelled.
- The entry point's `print` and its fixed endpoint (src/main.py) are not modelled. They are process glue. Its sample run appears only as `MainScenario`.
- Offsets are not interpreted as bytes or as characters. The code never checks them, so the model takes them as unbounded integers. Python integers do not wrap, so neither does `end_idx`.
- The helper `_content_to_item` appears twice in the code, once per class. Here it is the single function `ContentToItem`.
- The helper `_get_inspect_result` (src/app/InspectContent.py:54-60) only builds the result dictionary from its four arguments. Here it is the result constructor inside `FormatFinding`.
- Concurrent use of one client is not modelled. The code has no locking.
