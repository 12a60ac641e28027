# Sensitivity computation: wire codec and client envelope

This project models the core of farao-sensitivity-computation-server in Dafny:

- **Factor-catalogue codec** (`JsonSensitivityInputs`). `write` walks every contingency's factor list, then the base case. It collects functions and variables into insertion-ordered maps keyed by raw id, and records each scope's function ids as an ordered set. `read` rebuilds every scope as the cross product of its function ids with all catalogue variables. The strict compatibility table of `makeSensitivityFactor` builds each factor.
- **Result codec** (`JsonSensitivityOutputs`). `write` flattens an analysis result into `(fun, var, value, funRef, varRef)` records per scope. `read` regroups them by `(fun, var)` and answers, in order, the factors that the caller's provider lists for each scope.
- **Decoded provider** (`InternalSensitivityInputsProvider`): an immutable scope → factor-list lookup.
- **Function-kind suffix** (`JsonSensitivityUtil.getSuffix`).
- **Remote client** (`SensitivityComputationClient`):
  - the working-variant save/switch/restore around network serialisation;
  - the three-part multipart body;
  - resolution of the server URI against the configured base URL;
  - the four transport timeouts derived from the configured number of seconds;
  - `run` end to end.

Modules, one per file:

| file | module | what |
|---|---|---|
| wrappers.dfy | Wrappers | `Option`, `Result` |
| linked_collections.dfy | LinkedCollections | Java's `LinkedHashSet` (a duplicate-free sequence) and `LinkedHashMap` (a duplicate-free key sequence beside a map), with their ordering and overwrite lemmas |
| sensitivity.dfy | Sensitivity | functions, variables, factors, contingencies, errors; `Network`, a class whose working variant changes in place |
| json_sensitivity_util.dfy | JsonSensitivityUtil | `getSuffix` |
| internal_sensitivity_inputs_provider.dfy | InternalSensitivityInputsProvider | the provider value and its queries |
| json_sensitivity_inputs.dfy | JsonSensitivityInputs | specification functions `Encode`/`Decode`; methods `Write`/`Read` with their loops, proved equal to them |
| json_sensitivity_inputs_properties.dfy | JsonSensitivityInputsProperties | what the encoded document holds |
| json_sensitivity_inputs_round_trip.dfy | JsonSensitivityInputsRoundTrip | decoded-scope shape, conditional round trip, the contingency lookup as written |
| json_sensitivity_outputs.dfy | JsonSensitivityOutputs | result writer and reader, conditional round trip |
| sensitivity_computation_client.dfy | SensitivityComputationClient | URI, network bytes, body, timeouts, `run` |

How it is modelled:

- Java exceptions become `Result` errors:
  - `NullPointer` for a dereferenced missing entry;
  - `UnrecognizableFactor` / `UnrecognizableFunction` for the two `PowsyblException`s;
  - `VariantNotFound` for an unknown variant;
  - `Io` for a failing serialiser;
  - `Transport` for a failed exchange, which the code itself never reports (see Left out).
- Java `null` becomes `Option`.
- Each loop of the source is a `while` loop in a method. The method is proved equal to a recursive specification function, and the properties are lemmas about that function.
- The Java maps and sets that are iterated in hash order (`HashSet` of records, `HashMap` of results) are Dafny `set`s and `map`s, visited in an unspecified order through `:|`.
- The decoder parses each scope's function ids into a `HashSet` too. The model decodes them in document order, and proves that a scope's success, size and factor set do not depend on that order (`CrossProductOrderIndependent`).

Where the written description of the protocol and the code disagree, the model follows the code:

- Function keys are raw ids. No kind suffix is appended (JsonSensitivityInputs.java:47,49,57,59), and `getSuffix` is called nowhere in the modelled files. So a flow and an intensity function that share an id collapse into one entry (`RawIdsCollide`).
- Contingency scopes are visited before the base case, not after.
- On a repeated key, `LinkedHashMap.put` keeps the first position but stores the value put last. A later duplicate is therefore not ignored (`EncodeFunctionEntries`).
- The decoder is the strict variant: an unsupported pair fails the whole read.
- The body has three parts: `networkFile`, `inputsFile` and `parametersFile`. The contingencies travel inside `inputsFile`. The request goes to `<base directory>api/v1/sensitivity-computation`.
- The read and write timeouts are not the connect timeout (see Findings).

## Model

| member | source | states |
|---|---|---|
| Sensitivity.Network.SetWorkingVariant | sensitivity-computation-client/src/main/java/com/farao_community/farao/sensitivity/client/SensitivityComputationClient.java:123 | switching succeeds exactly for a variant the network holds and then makes it the working variant; an unknown variant is refused with `VariantNotFound` and changes nothing |
| JsonSensitivityUtil.GetSuffix | sensitivity-computation-api/src/main/java/com/farao_community/farao/sensitivity/api/JsonSensitivityUtil.java:13-21 | a flow function gets " - F" exactly when it is a flow function, an intensity function " - I" likewise, and any other class is exactly the unrecognizable-function error |
| JsonSensitivityUtil.SuffixedKeysDiffer | sensitivity-computation-api/src/main/java/com/farao_community/farao/sensitivity/api/JsonSensitivityUtil.java:13-18 | a flow and an intensity function sharing an id get different suffixed keys |
| JsonSensitivityUtil.SuffixDependsOnKindOnly | sensitivity-computation-api/src/main/java/com/farao_community/farao/sensitivity/api/JsonSensitivityUtil.java:13-21 | two functions of one class get the same suffix whatever their ids |
| InternalSensitivityInputsProvider.Provider.GetAdditionalFactorsFor | sensitivity-computation-api/src/main/java/com/farao_community/farao/sensitivity/api/InternalSensitivityInputsProvider.java:55-57 | the list stored under the id, and null exactly when the map lacks the id |
| InternalSensitivityInputsProvider.QueriesReturnConstructorArguments | sensitivity-computation-api/src/main/java/com/farao_community/farao/sensitivity/api/InternalSensitivityInputsProvider.java:30-57 | every query returns what the constructor was given, whichever network it is asked about |
| LinkedCollections.DedupOrder | sensitivity-computation-api/src/main/java/com/farao_community/farao/sensitivity/api/JsonSensitivityInputs.java:44-47 | a LinkedHashSet after adding a list holds exactly the list's elements, each once, ordered by first appearance |
| LinkedCollections.PutAllKeys | sensitivity-computation-api/src/main/java/com/farao_community/farao/sensitivity/api/JsonSensitivityInputs.java:48-49 | the keys of a LinkedHashMap after a series of puts are the old keys followed by the new keys in first-appearance order |
| LinkedCollections.PutAllLastWins | sensitivity-computation-api/src/main/java/com/farao_community/farao/sensitivity/api/JsonSensitivityInputs.java:48-49 | on a repeated key the entry holds the value put last |
| LinkedCollections.PutAllUntouched | sensitivity-computation-api/src/main/java/com/farao_community/farao/sensitivity/api/JsonSensitivityInputs.java:58-59 | a key no later put carries keeps its value |
| JsonSensitivityInputs.Write | sensitivity-computation-api/src/main/java/com/farao_community/farao/sensitivity/api/JsonSensitivityInputs.java:38-60 | the loops build exactly the document `Encode` specifies: null-pointer failure for a contingency without a list, otherwise the catalogue maps of all visited factors and the per-scope id sets |
| JsonSensitivityInputs.WriteScope | sensitivity-computation-api/src/main/java/com/farao_community/farao/sensitivity/api/JsonSensitivityInputs.java:46-50 | one scope's loop yields its function-id set and extends both catalogue maps by exactly the scope's factors |
| JsonSensitivityInputs.ListsOneMore | sensitivity-computation-api/src/main/java/com/farao_community/farao/sensitivity/api/JsonSensitivityInputs.java:42-52 | one more listed contingency that has a list appends its factors to the visited ones and its function-id set, under the contingency, to the set map |
| JsonSensitivityInputs.MakeSensitivityFactor | sensitivity-computation-api/src/main/java/com/farao_community/farao/sensitivity/api/JsonSensitivityInputs.java:135-150 | succeeds exactly for a resolved function whose (function, variable) classes are one of the four table pairs, builds the table's factor class from them, and otherwise fails with the unrecognizable-factor error |
| JsonSensitivityInputs.Read | sensitivity-computation-api/src/main/java/com/farao_community/farao/sensitivity/api/JsonSensitivityInputs.java:83-129 | the loops return exactly `Decode`: the base case, then each contingency of the document in order, each scope crossing its ids (taken in document order) with the catalogue variables; the first unsupported pair fails the whole read |
| JsonSensitivityInputs.ReadScope | sensitivity-computation-api/src/main/java/com/farao_community/farao/sensitivity/api/JsonSensitivityInputs.java:103-109 | the nested loops of one scope return exactly the cross product of its ids with the catalogue variables |
| JsonSensitivityInputs.PrefixErrorPropagates | sensitivity-computation-api/src/main/java/com/farao_community/farao/sensitivity/api/JsonSensitivityInputs.java:117-127 | once one contingency's scope fails, decoding all contingencies fails |
| JsonSensitivityInputsProperties.EncodeFunctionCatalogue | sensitivity-computation-api/src/main/java/com/farao_community/farao/sensitivity/api/JsonSensitivityInputs.java:40-59 | the function map's keys are exactly the function ids of the visited factors, each once, in order of first appearance |
| JsonSensitivityInputsProperties.EncodeFunctionEntries | sensitivity-computation-api/src/main/java/com/farao_community/farao/sensitivity/api/JsonSensitivityInputs.java:49 | the entry under an id holds the function of the last visited factor with that id |
| JsonSensitivityInputsProperties.EncodeVariableCatalogue | sensitivity-computation-api/src/main/java/com/farao_community/farao/sensitivity/api/JsonSensitivityInputs.java:39-58 | the variable map's keys are exactly the variable ids of the visited factors, each once, in order of first appearance |
| JsonSensitivityInputsProperties.EncodeVariableEntries | sensitivity-computation-api/src/main/java/com/farao_community/farao/sensitivity/api/JsonSensitivityInputs.java:48 | the entry under an id holds the variable of the last visited factor with that id |
| JsonSensitivityInputsProperties.ContingencyFunctionsComeFirst | sensitivity-computation-api/src/main/java/com/farao_community/farao/sensitivity/api/JsonSensitivityInputs.java:42-60 | a function id that a contingency factor references precedes, in the function map, every id only the base case references |
| JsonSensitivityInputsProperties.FunctionIdSetMeaning | sensitivity-computation-api/src/main/java/com/farao_community/farao/sensitivity/api/JsonSensitivityInputs.java:44-47 | a scope's set holds exactly its factors' function ids, each once, in first-appearance order |
| JsonSensitivityInputsProperties.EncodeScopeSets | sensitivity-computation-api/src/main/java/com/farao_community/farao/sensitivity/api/JsonSensitivityInputs.java:41-57 | the base case's set, and for every listed contingency, even one without factors, an entry holding its set; contingency keys in list order |
| JsonSensitivityInputsProperties.RawIdsCollide | sensitivity-computation-api/src/main/java/com/farao_community/farao/sensitivity/api/JsonSensitivityInputs.java:57-59 | a flow and an intensity function with the same id end up as one key holding the intensity function, put last |
| JsonSensitivityInputsProperties.EncodeIgnoresCommonFactors | sensitivity-computation-api/src/main/java/com/farao_community/farao/sensitivity/api/JsonSensitivityInputs.java:45-54 | changing the common factors never changes the document |
| JsonSensitivityInputsProperties.EncodeFailsOnMissingList | sensitivity-computation-api/src/main/java/com/farao_community/farao/sensitivity/api/JsonSensitivityInputs.java:45-46 | a listed contingency whose id the provider has no list for makes `write` fail with a null dereference |
| JsonSensitivityInputsRoundTrip.RowShape | sensitivity-computation-api/src/main/java/com/farao_community/farao/sensitivity/api/JsonSensitivityInputs.java:106-108 | a row succeeds exactly when every variable pairs with the function, and holds one factor per variable in variable order |
| JsonSensitivityInputsRoundTrip.CrossProductOk | sensitivity-computation-api/src/main/java/com/farao_community/farao/sensitivity/api/JsonSensitivityInputs.java:103-109 | a scope decodes exactly when every (id, variable) pair it crosses is supported |
| JsonSensitivityInputsRoundTrip.CrossProductLength | sensitivity-computation-api/src/main/java/com/farao_community/farao/sensitivity/api/JsonSensitivityInputs.java:103-109 | a decoded scope has \|ids\| × \|variables\| factors |
| JsonSensitivityInputsRoundTrip.CrossProductAt | sensitivity-computation-api/src/main/java/com/farao_community/farao/sensitivity/api/JsonSensitivityInputs.java:103-109 | function-major order: factor i·\|variables\| + j is the one built from the i-th id and the j-th variable |
| JsonSensitivityInputsRoundTrip.CrossProductSound | sensitivity-computation-api/src/main/java/com/farao_community/farao/sensitivity/api/JsonSensitivityInputs.java:103-109 | every decoded factor is built from some (id, variable) pair of the scope |
| JsonSensitivityInputsRoundTrip.CrossProductMembers | sensitivity-computation-api/src/main/java/com/farao_community/farao/sensitivity/api/JsonSensitivityInputs.java:103-109 | a factor is in a decoded scope exactly when some (id, variable) pair builds it |
| JsonSensitivityInputsRoundTrip.CrossProductOrderIndependent | sensitivity-computation-api/src/main/java/com/farao_community/farao/sensitivity/api/JsonSensitivityInputs.java:101-109 | any reordering of a scope's ids, as hash-order iteration of the parsed set gives, decodes or fails alike, to the same number of factors and the same factors |
| JsonSensitivityInputsRoundTrip.DecodeContingenciesShape | sensitivity-computation-api/src/main/java/com/farao_community/farao/sensitivity/api/JsonSensitivityInputs.java:116-127 | the contingency map decodes exactly when every scope does; its keys are the contingency ids; under each id it holds the decoded scope of the last contingency with that id, so a later contingency with the same id replaces an earlier one |
| JsonSensitivityInputsRoundTrip.DecodeContingenciesLastWins | sensitivity-computation-api/src/main/java/com/farao_community/farao/sensitivity/api/JsonSensitivityInputs.java:119-127 | for a contingency no later contingency shares an id with, the map holds an entry under its id, and that entry is its own decoded scope |
| JsonSensitivityInputsRoundTrip.DecodeOkIff | sensitivity-computation-api/src/main/java/com/farao_community/farao/sensitivity/api/JsonSensitivityInputs.java:83-129 | `read` succeeds exactly when the base case and every contingency scope decode, and otherwise fails with the unrecognizable-factor error |
| JsonSensitivityInputsRoundTrip.DecodeShape | sensitivity-computation-api/src/main/java/com/farao_community/farao/sensitivity/api/JsonSensitivityInputs.java:116-129 | a decoded provider has no common factors, the decoded base case, the document's contingencies in order, an entry per contingency id, and under each id the decoded set of the last contingency with that id |
| JsonSensitivityInputsRoundTrip.ScopeRoundTrip | sensitivity-computation-api/src/main/java/com/farao_community/farao/sensitivity/api/JsonSensitivityInputs.java:103-109 | a scope that crosses its functions with every catalogue variable decodes from its own id set to exactly its own factor set |
| JsonSensitivityInputsRoundTrip.EncodedFunctions | sensitivity-computation-api/src/main/java/com/farao_community/farao/sensitivity/api/JsonSensitivityInputs.java:49-59 | when ids identify functions, the encoded function map holds every visited function under its id |
| JsonSensitivityInputsRoundTrip.EncodedVariables | sensitivity-computation-api/src/main/java/com/farao_community/farao/sensitivity/api/JsonSensitivityInputs.java:48-58 | when ids identify variables, the encoded variable map holds exactly the visited variables |
| JsonSensitivityInputsRoundTrip.RoundTrip | sensitivity-computation-api/src/main/java/com/farao_community/farao/sensitivity/api/JsonSensitivityInputs.java:38-129 | if ids identify functions and variables, every factor is well typed and every scope crosses its functions with all catalogue variables, then read(write(p)) succeeds with no common factors, the contingencies once each in list order, and the same factor set for the base case and for every contingency |
| JsonSensitivityInputsRoundTrip.DecodeAsWrittenFailsOnContingencies | sensitivity-computation-api/src/main/java/com/farao_community/farao/sensitivity/api/JsonSensitivityInputs.java:120 | the lookup as written agrees with the corrected one without contingencies, and fails with a null dereference on every document with one whose base case decodes, whatever its contingency sets hold |
| JsonSensitivityInputsRoundTrip.ContingencyLookupCounterexample | sensitivity-computation-api/src/main/java/com/farao_community/farao/sensitivity/api/JsonSensitivityInputs.java:120 | a one-contingency document: the corrected decoder returns the contingency with an empty scope, the code as written throws |
| JsonSensitivityInputsRoundTrip.RoundTripAsWrittenFails | sensitivity-computation-api/src/main/java/com/farao_community/farao/sensitivity/api/JsonSensitivityInputs.java:117-121 | as written, write then read fails for every provider listing a contingency, even under the round-trip assumptions |
| JsonSensitivityOutputs.Write | sensitivity-computation-api/src/main/java/com/farao_community/farao/sensitivity/api/JsonSensitivityOutputs.java:21-66 | the document carries the header fields, one record per base-case value in list order, and for exactly the result's contingency ids their records in list order |
| JsonSensitivityOutputs.WriteRecords | sensitivity-computation-api/src/main/java/com/farao_community/farao/sensitivity/api/JsonSensitivityOutputs.java:33-41 | one record per value, in order, carrying the function id, the variable id and the numbers |
| JsonSensitivityOutputs.Regroup | sensitivity-computation-api/src/main/java/com/farao_community/farao/sensitivity/api/JsonSensitivityOutputs.java:95-107 | the regrouped map has an entry for exactly the pairs some record carries, each holding the numbers of a record with that pair |
| JsonSensitivityOutputs.Lookup | sensitivity-computation-api/src/main/java/com/farao_community/farao/sensitivity/api/JsonSensitivityOutputs.java:111 | the numbers under a factor's pair, and null exactly when the pair was not regrouped |
| JsonSensitivityOutputs.AssociateValues | sensitivity-computation-api/src/main/java/com/farao_community/farao/sensitivity/api/JsonSensitivityOutputs.java:108-113 | the factor loop returns exactly `Associate`: a value per factor in factor order, stopping with a null dereference at the first factor without numbers |
| JsonSensitivityOutputs.AssociateShape | sensitivity-computation-api/src/main/java/com/farao_community/farao/sensitivity/api/JsonSensitivityOutputs.java:108-113 | the factor loop succeeds exactly when every factor's pair was regrouped, and then gives factor i the numbers under its pair |
| JsonSensitivityOutputs.ScopeRead | sensitivity-computation-api/src/main/java/com/farao_community/farao/sensitivity/api/JsonSensitivityOutputs.java:95-113 | a scope reads exactly when its records cover the factors, and then answers each factor in order from a record with its pair |
| JsonSensitivityOutputs.ReadBasecase | sensitivity-computation-api/src/main/java/com/farao_community/farao/sensitivity/api/JsonSensitivityOutputs.java:93-113 | the base case reads exactly when its records cover the provider's base-case factors, answering them in provider order; otherwise a null dereference |
| JsonSensitivityOutputs.ReadContingencies | sensitivity-computation-api/src/main/java/com/farao_community/farao/sensitivity/api/JsonSensitivityOutputs.java:117-142 | succeeds exactly when every contingency id of the document has a provider list covered by its records; the result has exactly the document's ids, each answering the provider's list in order |
| JsonSensitivityOutputs.Read | sensitivity-computation-api/src/main/java/com/farao_community/farao/sensitivity/api/JsonSensitivityOutputs.java:68-146 | succeeds exactly when every scope is covered, fails otherwise with a null dereference, and returns the header fields unchanged and every scope answered in provider order |
| JsonSensitivityOutputs.RegroupingOfDistinctPairs | sensitivity-computation-api/src/main/java/com/farao_community/farao/sensitivity/api/JsonSensitivityOutputs.java:95-107 | with one record per pair, regrouping keeps every record's numbers under its pair |
| JsonSensitivityOutputs.RecordsCover | sensitivity-computation-api/src/main/java/com/farao_community/farao/sensitivity/api/JsonSensitivityOutputs.java:31-42 | written records cover every factor a value answers |
| JsonSensitivityOutputs.ScopeRoundTrip | sensitivity-computation-api/src/main/java/com/farao_community/farao/sensitivity/api/JsonSensitivityOutputs.java:95-113 | reading back a written scope with distinct pairs gives each factor the numbers of the value answering its pair |
| JsonSensitivityOutputs.WrittenResultReads | sensitivity-computation-api/src/main/java/com/farao_community/farao/sensitivity/api/JsonSensitivityOutputs.java:31-60 | when each scope's values answer the provider's factors with distinct pairs, reading the written result succeeds |
| JsonSensitivityOutputs.RoundTrip | sensitivity-computation-api/src/main/java/com/farao_community/farao/sensitivity/api/JsonSensitivityOutputs.java:95-146 | under that assumption read(write(r)) keeps the header fields and contingency ids, and gives every provider factor of every scope, in provider order, the numbers r held for its pair |
| SensitivityComputationClient.Directory | sensitivity-computation-client/src/main/java/com/farao_community/farao/sensitivity/client/SensitivityComputationClient.java:109-110 | a prefix of the path that is empty or ends in a slash, after which the path has no slash |
| SensitivityComputationClient.ServerUriResolvesAgainstBase | sensitivity-computation-client/src/main/java/com/farao_community/farao/sensitivity/client/SensitivityComputationClient.java:108-111 | the resolved URI keeps the base's scheme and authority, has no query or fragment, and its path is a prefix of the base path that is empty or ends in a slash, with no slash in the rest of the base path, followed by the service path |
| SensitivityComputationClient.TrailingSlashKeepsPath | sensitivity-computation-client/src/main/java/com/farao_community/farao/sensitivity/client/SensitivityComputationClient.java:108-111 | a base path ending in a slash is kept whole and the service path appended |
| SensitivityComputationClient.LastSegmentReplaced | sensitivity-computation-client/src/main/java/com/farao_community/farao/sensitivity/client/SensitivityComputationClient.java:108-111 | a base path's last segment without a trailing slash is replaced by the service path |
| SensitivityComputationClient.DefaultServerUri | sensitivity-computation-client/src/main/java/com/farao_community/farao/sensitivity/client/SensitivityComputationClientConfig.java:18 | the default base URL http://localhost:8080/ yields http://localhost:8080/api/v1/sensitivity-computation |
| SensitivityComputationClient.EmptyBasePathGluesAuthority | sensitivity-computation-client/src/main/java/com/farao_community/farao/sensitivity/client/SensitivityComputationClient.java:109-110 | a base URL with an empty path gets the service path glued to the authority with no slash between them |
| SensitivityComputationClient.NetworkBytes | sensitivity-computation-client/src/main/java/com/farao_community/farao/sensitivity/client/SensitivityComputationClient.java:121-128 | the export succeeds exactly for a known variant and a writer that does not fail, and is then taken at the requested variant; otherwise the switch's or the writer's error |
| SensitivityComputationClient.GetNetworkBytes | sensitivity-computation-client/src/main/java/com/farao_community/farao/sensitivity/client/SensitivityComputationClient.java:121-128 | the network is written at `workingStateId`, and the working variant afterwards is the one before, except after a failing write, which leaves it switched |
| SensitivityComputationClient.BodyBuilder.AddPart | sensitivity-computation-client/src/main/java/com/farao_community/farao/sensitivity/client/SensitivityComputationClient.java:115-117 | a part is appended after those already added |
| SensitivityComputationClient.Body | sensitivity-computation-client/src/main/java/com/farao_community/farao/sensitivity/client/SensitivityComputationClient.java:113-119 | the body exists exactly when both writers succeed and is then the three parts; otherwise the first failing writer's error |
| SensitivityComputationClient.BuildBody | sensitivity-computation-client/src/main/java/com/farao_community/farao/sensitivity/client/SensitivityComputationClient.java:114-118 | the builder yields exactly networkFile (XML, network.xiidm), inputsFile (JSON, inputs.json), parametersFile (JSON, parameters.json), in that order |
| SensitivityComputationClient.RequestBodyIsBody | sensitivity-computation-client/src/main/java/com/farao_community/farao/sensitivity/client/SensitivityComputationClient.java:113-119 | the three parts determine the body |
| SensitivityComputationClient.CreateBody | sensitivity-computation-client/src/main/java/com/farao_community/farao/sensitivity/client/SensitivityComputationClient.java:113-132 | the body built from the network export and the encoded inputs, with the working variant restored unless the network writer failed |
| SensitivityComputationClient.WrapInt32 | sensitivity-computation-client/src/main/java/com/farao_community/farao/sensitivity/client/SensitivityComputationClient.java:61 | Java `int` arithmetic: the value itself when it fits, otherwise the value congruent to it modulo 2^32 |
| SensitivityComputationClient.TimeoutsAsWritten | sensitivity-computation-client/src/main/java/com/farao_community/farao/sensitivity/client/SensitivityComputationClient.java:60-78 | as written, the connect and response limits are the `int` product seconds×1000 in ms, while the read and write limits are a thousand times that |
| SensitivityComputationClient.CorrectedTimeouts | sensitivity-computation-client/src/main/java/com/farao_community/farao/sensitivity/client/SensitivityComputationClient.java:60-78 | with the handlers given seconds, the read and write limits are the configured seconds in milliseconds |
| SensitivityComputationClient.CorrectedTimeoutsAgree | sensitivity-computation-client/src/main/java/com/farao_community/farao/sensitivity/client/SensitivityComputationClient.java:61-78 | corrected, all four limits equal the configured seconds × 1000 ms for every timeout that fits |
| SensitivityComputationClient.AsWrittenHandlersWaitThousandfold | sensitivity-computation-client/src/main/java/com/farao_community/farao/sensitivity/client/SensitivityComputationClient.java:65-66 | as written, every positive timeout gives read and write limits of seconds × 1 000 000 ms, never the connect limit |
| SensitivityComputationClient.ThirtySecondsExample | sensitivity-computation-client/src/main/java/com/farao_community/farao/sensitivity/client/SensitivityComputationClient.java:65-66 | 30 s configured: read and write limits of 30 000 s as written, 30 s corrected |
| SensitivityComputationClient.ProductWraps | sensitivity-computation-client/src/main/java/com/farao_community/farao/sensitivity/client/SensitivityComputationClient.java:61 | from 2147484 to 4294967 s the `int` product overflows exactly once, to seconds×1000 − 2^32 ms, a negative limit |
| SensitivityComputationClient.ProductWrapsBackToPositive | sensitivity-computation-client/src/main/java/com/farao_community/farao/sensitivity/client/SensitivityComputationClient.java:61 | further on the product wraps back: 4294968 s gives a limit of 704 ms |
| SensitivityComputationClient.Run | sensitivity-computation-client/src/main/java/com/farao_community/farao/sensitivity/client/SensitivityComputationClient.java:59-84 | a request is sent exactly when the body can be built, to the resolved server URI with the body and the corrected limits (`CorrectedTimeouts`); the working variant is restored unless the network writer failed; a writer error, or the reader's outcome against the caller's own provider, is returned already complete (a transport failure: see Left out) |

## Left out

- JSON text: token handling, Jackson's polymorphic (de)serialisation of functions and variables, the `Contingency` map-key encoding, pretty printing and UTF-8. Each document is modelled as its parts.
- Number text: writing and parsing doubles. The three numbers of a result travel as an opaque triple of `real`s.
- Foreign serialisers: `NetworkXml.write` and `JsonSensitivityAnalysisParameters.write` are library calls. The network export is an abstract `NetworkFile` whose failure is the `writeFails` parameter. The parameters arrive already serialised as a string.
- Transport and concurrency: WebClient, Netty and Reactor, the actual enforcement of the limits, and the piped-stream hand-off between the subscriber and the parser. `run` receives the server's reply, or a transport failure, as the `reply` parameter. `webClient.delete()` is left out too.
- `SensitivityComputationClient.Run`: the configured base URL arrives already split into components. `URI.create`'s parsing and its syntax errors are not modelled.
- `SensitivityComputationClient.ServerUri`: dot segments inside the base path ("/a/../") are not normalised; the model only removes the reference's own "./".
- The configuration's timeout: the configuration class in this snapshot has no `getTimeOutInSeconds`. The timeout is a parameter of `Run`, of Java type `int`.
- `SensitivityComputationClientFactory` is not part of this model. It calls a configuration loader and a two-argument constructor that do not exist in this snapshot.
- `getName` and `getVersion` are the constants `ProviderName` and `ProviderVersion`, with no property to state.
- The server (`SensitivityComputationServerService`, `SensitivityComputationServerController`, `SensitivityComputationApplication`) is not part of this model: it is glue around the external analysis engine.
- JsonSensitivityInputs.Read: each decoded scope follows the document's id order, while the code iterates the `HashSet` Jackson parses the ids into, in hash order. So the order of the factors within a scope is not modelled. Their success, number and set are the same either way (`CrossProductOrderIndependent`). Rows `JsonSensitivityInputs.Read`, `ReadScope`, `CrossProductAt` and `DecodeShape` describe the document-order decoding.
- SensitivityComputationClient.Run: a failed exchange returns `Err(Transport)` in the model. The code has no such path: the response stream is subscribed with only a release consumer (SensitivityComputationClient.java:100), so on a transport error the reader waits on a pipe nobody closes. The model stands in an error for that hang.
- `JsonSensitivityOutputs.Regroup`: among several records with the same (fun, var) pair, which one wins depends on `HashSet` iteration order. The contract says only that the kept numbers come from one of them. `RegroupingOfDistinctPairs` pins the value down when pairs are distinct.
- `JsonSensitivityInputsRoundTrip.RoundTrip`: the round trip is proved for the factor sets of each scope (membership both ways), not for list order or multiplicity. A decoded scope is in function-major order and a provider's list need not be.

## Findings

| source | as written | input that shows it | evidently intended | confidence | as-written member | corrected member |
|---|---|---|---|---|---|---|
| sensitivity-computation-api/src/main/java/com/farao_community/farao/sensitivity/api/JsonSensitivityInputs.java:120 | `sensitivityFunctionStringMap.get(contingencyId)` looks up a `String` in a map keyed by `Contingency`, gets null, and the for-each over it throws | a document with one contingency "C1" and an empty set: the lookup yields null and `read` throws instead of returning "C1" with an empty scope | look the set up by the contingency itself (`get(contingency)`) | not executed | JsonSensitivityInputsRoundTrip.ContingencyLookupCounterexample | JsonSensitivityInputsRoundTrip.RoundTrip |
| sensitivity-computation-client/src/main/java/com/farao_community/farao/sensitivity/client/SensitivityComputationClient.java:65-66 | `new ReadTimeoutHandler(t*1000)` and `new WriteTimeoutHandler(t*1000)`: the single-`int` constructors take seconds, so the read and write limits are t×1000 seconds | a 30 s timeout: connect and response limits of 30 s, read and write limits of 30 000 s | read and write limits of t seconds, like the other two | not executed | SensitivityComputationClient.ThirtySecondsExample | SensitivityComputationClient.CorrectedTimeoutsAgree |

In both rows the as-written behaviour has its own definition: `JsonSensitivityInputs.DecodeAsWritten` and `SensitivityComputationClient.TimeoutsAsWritten`. The rest of the model uses the corrected ones. `JsonSensitivityInputs.Read` returns `Decode`, and `SensitivityComputationClient.Run` sends `CorrectedTimeouts`.
