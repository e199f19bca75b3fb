# haoide core, modelled in Dafny

This project models the core of haoide, a Sublime Text plugin for Salesforce development. It
covers two parts of the plugin.

**The Metadata API client.** This is the `MetadataApi` object of `salesforce/api/metadata.py`. It
logs in, submits a retrieve or a deploy job, polls the job until it leaves its busy states,
downloads the result of a retrieve and reports the failures of a deployment. Session expiry is
detected by the `INVALID_SESSION_ID` marker, and the client then logs in again and resends the
request.

**The pure helpers of `util.py` that the plugin builds on:**

- the 15-to-18 character record id conversion;
- file path helpers;
- reading and writing `package.xml` manifests;
- the completion tables for Apex classes, symbol tables and sObject fields;
- the CSV rows written for validation and workflow rules.

The model has these modules:

- `Strings` and `Values` (strings.dfy, values.dfy): the parts of Python's `str`, `dict` and
  decoded-XML behaviour the code relies on. A dictionary is a sequence of key/value pairs in
  insertion order. Python's run-time exceptions are values of `Exc`, so an operation that raises
  returns the exception it raises; the exceptions the model does not produce are listed under
  "Left out".
- `RecordIds` (ids.dfy): `convert_15_to_18` and `chunks`.
- `Paths` (paths.dfy): `none_value`, `get_file_attr` and `get_folder_and_name`, on POSIX paths.
- `Package` (package.dfy): `build_package_types`, `parse_package`, `build_package_dict` and
  `build_package_xml`.
- `Completions` (completions.dfy): `parse_method`, `parse_properties`, `parse_all`,
  `parse_symbol_table` and `get_sobject_completion_list`.
- `CsvRows` (csvrows.dfy): the text `write_metadata_to_csv` writes.
- `Jobs` (jobs.dfy): what each operation of `MetadataApi` does, as functions from a `World` to a
  new `World`. A `World` holds the client's state (`metadata_url` and `result`) and the scripted
  environment: the replies of the login service and of the SOAP endpoint. It also holds the
  traces of what happened: login calls, requests sent, waits and log lines.
- `Client` (client.dfy): the class `MetadataApi`. Its fields mirror the `World`, and its methods
  change them in place, with the source's loops. Each method is proved equal to its function in
  `Jobs`.
- `JobProperties` (job_properties.dfy): what the retrieve and deploy jobs promise, proved of the
  `Jobs` functions and so of the class.

Imperative code with loops is modelled as methods with loop invariants, and each method is proved
equal to a specification function. The properties are lemmas about those functions.

### Behaviour worth knowing

The model follows the code as written in each of these cases.

- **Session expiry.** The code calls `retrieve` (metadata.py:190) or `deploy` (metadata.py:405)
  again with no bound on the number of retries. In the model each resend consumes one scripted
  reply, so the recursion ends when the script does; the call then ends in `RanOut`.
- **Exceptions.** Most failures come back as a dictionary with `success` false, but the code
  still raises on many decoded shapes, for example a missing `state`, `done` or `body`. The
  model returns these as `Threw(...)`.
- **Test-failure numbering.** A lone test failure (a dictionary) doubles the next number, as
  `index += index` at metadata.py:473 does, where a list of failures adds one. `LoneFailure` and
  `LoneFailureAgainstList` state this as written.

## Model

| member | source | states |
|---|---|---|
| RecordIds.ChunksConcat | util.py:332-343 | the chunks of a string, glued back together, give the string |
| RecordIds.ChunkAt | util.py:332-343 | chunk `i` is the slice `s[i*n : i*n+n]`, cut short at the end |
| RecordIds.FifteenChunks | util.py:332-343 | a 15-character id splits into three chunks of five |
| RecordIds.CmapCovers | util.py:317-325 | the `cmap` table has an entry for each of the 32 bit strings, and it is the alphabet letter at that bit string's value |
| RecordIds.ChunkChar | util.py:327-328 | the checksum character of a chunk is the alphabet letter at the value of its case bits |
| RecordIds.Convert15To18 | util.py:303-330 | `None` and any id that is not 15 characters come back unchanged; a 15-character id keeps its first 15 characters and gains 3 more |
| RecordIds.SuffixChar | util.py:327-330 | checksum character `i` is the checksum character of chunk `i` |
| RecordIds.ChunkCharIff | util.py:317-328 | two chunks get the same checksum character exactly when their upper-case positions agree |
| RecordIds.SameSuffixIffSameCasePattern | util.py:303-330 | two 15-character ids get the same checksum character `i` exactly when their chunks `i` have upper case in the same places |
| Paths.NoneValue | util.py:1394-1402 | the empty string exactly for a falsy value; a string value comes back as it is |
| Paths.SplitExt | util.py:2194-2196 | the two parts concatenate to the path; a non-empty extension starts at the last dot of the base name, and the base name before it is not all dots; the extension is empty exactly when every dot of the base name belongs to its leading run of dots |
| Paths.GetFileAttr | util.py:2194-2204 | the extension is that of `splitext`; the name is the part of the stem after its last backslash when it has one, otherwise after its last slash, and empty when it has neither |
| Paths.PathSplitParts | util.py:2221-2222 | `os.path.split`: the tail is the suffix without `/` that follows the last `/` (the whole path when there is none); the head is what precedes it, with trailing slashes removed unless it is all slashes |
| Paths.SplitPair | util.py:2223 | unpacking `split(".")` into two names succeeds exactly when there is one dot; the two parts are what is around it |
| Paths.GetFolderAndName | util.py:2220-2225 | succeeds exactly when the base name holds one dot; gives the parent directory's name and the base name up to the dot |
| Package.BuildPackageTypes | util.py:725-745 | the loop computes `PackageTypes` |
| Package.TypesFromLookup | util.py:725-745 | the loop succeeds exactly on well-formed entries; a type is present when some entry records it, and holds the members of the last such entry |
| Package.ParsePackage | util.py:1151-1200 | the loop computes `ParsedPackage` |
| Package.ElementsFromOk | util.py:1151-1200 | `parse_package` succeeds exactly when every entry yields an element |
| Package.ElementsFromAt | util.py:1151-1200 | on success there is one element per entry, in entry order |
| Package.ElementListsRecordedMembers | util.py:725-745 | for an entry that `build_package_types` records, `parse_package` writes those members, in order, then the name |
| Package.FileRecord | util.py:786-841 | the record keeps the full path; with `ignore_folder` the name and extension are split at the one dot; otherwise the name is the whole base name |
| Package.BuildPackageDict | util.py:786-841 | the loop computes `PackageDict` |
| Package.DictFromOk | util.py:786-841 | the loop raises exactly when a file it does not skip has no type |
| Package.DictFromGroups | util.py:786-841 | each type lists the records of its files in file order, after what it held before; types stay unique |
| Package.PackageDictGroups | util.py:786-841 | `build_package_dict` fails exactly when a file it does not skip raises; otherwise it groups the files by type in the order of `files` |
| Package.AddFileLookup | util.py:835-839 | appending a record changes only the list of its own type |
| Package.BuildPackageXml | util.py:843-878 | the loop computes `PackageXml` |
| Package.PackageXmlVersion | util.py:843-878 | the manifest starts with the fixed head and ends with the API version, which reads back as itself |
| Package.ManifestRoundTrip | util.py:725-745 | reading back a written manifest gives every type, under its shown name and in order, the names of its files; needs at least one file per type, distinct type names, and names without surrounding whitespace, `<` or `&` (the decoder strips whitespace and gives an empty element as `None`) |
| Package.ManifestEmptyType | util.py:843-878 | a type with no files makes the written manifest unreadable, with `KeyError('members')` |
| Package.BlankTextIsNone | util.py:725-745 | a name made only of whitespace reads back from the manifest as `None` |
| Completions.NumberedDistinct | util.py:1445-1447 | two tab stops of one snippet never carry the same number |
| Completions.DisplayParameters | util.py:1441-1443 | the loop lists `type name` for each parameter |
| Completions.NumberParameters | util.py:1445-1447 | the loop wraps the parameters as numbered tab stops |
| Completions.ParseMethod | util.py:1428-1452 | the loop assigns the completion of every method in turn |
| Completions.ParseMethodTable | util.py:1428-1452 | a method with an empty name gives no entry; the last method with a key wins; no parameters inserts `name()$0`; otherwise tab stops 1..n in order |
| Completions.ParseProperties | util.py:1454-1460 | the loop assigns the completion of every property in turn |
| Completions.ParsePropertiesTable | util.py:1454-1460 | every property name is a key, and it inserts the name followed by `$0` |
| Completions.CapitalizedParameters | util.py:523-525 | the loop lists the capitalised type and the name of each constructor parameter |
| Completions.ConstructorCompletion | util.py:519-533 | one constructor's completion, computed as `CtorEntry` |
| Completions.AddConstructors | util.py:518-533 | the constructor loop assigns each constructor's completion in order |
| Completions.AddProperties | util.py:535-539 | the property loop assigns each property's completion in order |
| Completions.AddMethods | util.py:541-560 | the method loop assigns each method's completion in order |
| Completions.MethodSnippet | util.py:542-560 | one method's key (visibility, name, displayed parameters, return type) and snippet, numbered placeholders when it has more than one parameter |
| Completions.AddInnerClass | util.py:562-581 | one completion per constructor of an inner class, or the class itself when it has none |
| Completions.ParseSymbolTable | util.py:509-583 | the sections are assigned in order: constructors, properties, methods, inner classes |
| Completions.OneParameterIsNumbered | util.py:548-557 | the one-parameter special case inserts what the general numbering would |
| Completions.SymbolTableLookup | util.py:509-583 | a label is present exactly when some member produces it, and it inserts what the last such member produces |
| Completions.Flatten | util.py:1492-1500 | a stored value holds at least one class |
| Completions.AddNamespace | util.py:1481-1507 | the loop over a namespace records each of its classes in order |
| Completions.ParseAll | util.py:1462-1509 | the loops compute `ApexCompletions` |
| Completions.AddClassStored | util.py:1492-1507 | recording a class appends it under its lower-cased name and leaves other names alone |
| Completions.AddClassesKeys | util.py:1462-1509 | recording classes keeps the lower-cased names of the table free of repeats |
| Completions.AddClassesStored | util.py:1462-1509 | after recording classes, a name holds what it held before plus the classes with that name, in order |
| Completions.ParseAllTable | util.py:1462-1509 | a lower-cased name is a key exactly when some class has it; it holds all such classes in order; it is the class itself when only one class has it |
| Completions.SortedKeys | util.py:259 | `sorted(d)` is an ascending permutation of the keys |
| Completions.AppendRelationships | util.py:265-273 | the relationship loop appends each relationship's completion in sorted order |
| Completions.GetSObjectCompletionList | util.py:246-275 | the loops compute `SObjectCompletions` |
| Completions.FieldCompletionsListed | util.py:257-262 | each field is listed once, in strictly ascending order, inserting its entry |
| Completions.RelationshipCompletionsListed | util.py:264-273 | each relationship is listed once, in strictly ascending order, with its sObject and tag |
| Completions.SObjectCompletionsShape | util.py:246-275 | fields first, then parent relationships `(c2p)`, then child relationships `(p2c)` only when asked for; each group complete and ordered |
| CsvRows.QuoteCell | util.py:1759-1763 | both branches wrap the escaped text in quotes |
| CsvRows.QuoteRoundTrip | util.py:1759-1763 | every written cell reads back as the text it was made from |
| CsvRows.Columns | util.py:1708 | the `sobject` column is dropped and every other column keeps its number of occurrences |
| CsvRows.ColumnsAppend | util.py:1708 | the columns of a concatenation are those of its parts in order, so the filter keeps the order of `columns` |
| CsvRows.DictListValue | util.py:1724-1732 | the loop over a list of dictionaries computes `DictListFrom` |
| CsvRows.DictValue | util.py:1740-1748 | the loop over a dictionary cell computes `DictTextFrom` |
| CsvRows.CellValue | util.py:1713-1764 | one cell computes `Cell` |
| CsvRows.RowValue | util.py:1711-1768 | the loop over columns computes `Row` |
| CsvRows.WriteMetadataRows | util.py:1692-1771 | the loop over rules computes `MetadataRows` |
| CsvRows.RowCellsShape | util.py:1711-1768 | one cell per column; empty for a missing key, otherwise the quoted decoded text; fails exactly on a non-dictionary rule or a value that cannot become text |
| CsvRows.RowStartsWithSObject | util.py:1711-1768 | each row starts with the sObject name and ends with a newline |
| CsvRows.SingleRuleOneRow | util.py:1702-1706 | a lone dictionary writes the same single row as a one-element list of it |
| CsvRows.DictListAccumulates | util.py:1724-1732 | `values` is not reset, so the second line repeats the first dictionary's values |
| Jobs.LoginSpec | salesforce/api/metadata.py:25-47 | consumes one login reply and records the call; the reply becomes the result; a failed login leaves `metadata_url` alone |
| Jobs.PostSpec | salesforce/api/metadata.py:90-91 | a post succeeds exactly when there is a `metadata_url` and a reply; it consumes the reply and records the request |
| Jobs.FailedSpec | salesforce/api/metadata.py:507-563 | the report sends and waits for nothing, leaves `self.result` alone and prints no test failure |
| Client.ComponentMessages | salesforce/api/metadata.py:516-533 | the loop builds the numbered component messages, or the first exception |
| Client.CoverageMessages | salesforce/api/metadata.py:547-549 | the loop keeps one message per warning whose name is a string |
| Client.CollectFailures | salesforce/api/metadata.py:516-535 | the component failures, or else the error message, of a failed deployment |
| Client.CollectWarnings | salesforce/api/metadata.py:537-549 | the coverage warnings of a failed deployment |
| Client.MetadataApi.constructor | salesforce/api/metadata.py:18-23 | a client that has not logged in: no `metadata_url`, no result, empty traces |
| Client.MetadataApi.Login | salesforce/api/metadata.py:25-47 | the new state is `LoginSpec` of the old |
| Jobs.CheckStatusSpec | salesforce/api/metadata.py:73-101 | sends at most one request, a `check_status` for the job, and exactly that one when it gives back a status; what it gives back is what it stores; waits, log and logins stay as they were |
| Jobs.CheckDeployStatusSpec | salesforce/api/metadata.py:314-357 | sends at most one request, a `check_deploy_status` for the job, and exactly that one when it gives back a status; waits, log and logins stay as they were |
| Jobs.CancelDeploymentSpec | salesforce/api/metadata.py:270-312 | sends nothing or one `cancel_deployment` for the job; what it gives back is what it stores |
| Jobs.StatusLine | salesforce/api/metadata.py:434-453 | the line printed for a poll carries the status it was given |
| Jobs.PollRound | salesforce/api/metadata.py:434-489 | one poll prints its status line first, then only test failures; a round that does not raise prints its status |
| Jobs.HasDebugLog | salesforce/api/metadata.py:576-577 | a missing or falsy header has no debug log; a dictionary header has one exactly when it holds `debugLog` |
| Client.MetadataApi.CheckStatus | salesforce/api/metadata.py:73-101 | the new state is `CheckStatusSpec` of the old; the decoded result is stored before it is marked, so it stays stored when marking raises |
| Client.MetadataApi.CheckRetrieveStatus | salesforce/api/metadata.py:103-140 | the new state is `CheckRetrieveStatusSpec` of the old |
| Client.MetadataApi.CancelDeployment | salesforce/api/metadata.py:270-312 | the new state is `CancelDeploymentSpec` of the old: at most one `cancel_deployment` request, and what it returns is what it stores |
| Client.MetadataApi.CheckDeployStatus | salesforce/api/metadata.py:314-357 | the new state is `CheckDeployStatusSpec` of the old |
| Client.MetadataApi.AwaitRetrieve | salesforce/api/metadata.py:221-226 | the polling loop ends in the state `PollStatus` gives |
| Client.MetadataApi.PrintMessages | salesforce/api/metadata.py:247-256 | prints each message's file and problem, up to the first exception |
| Client.MetadataApi.Download | salesforce/api/metadata.py:236-268 | the new state is `DownloadSpec` of the old |
| Client.MetadataApi.AfterPoll | salesforce/api/metadata.py:229-236 | the new state is `AfterPollSpec` of the old |
| Client.MetadataApi.RetrieveJob | salesforce/api/metadata.py:210-268 | the new state is `RetrieveJobSpec` of the old |
| Client.MetadataApi.Retrieve | salesforce/api/metadata.py:142-268 | the new state is `RetrieveSpec` of the old |
| Client.MetadataApi.ReportTestFailures | salesforce/api/metadata.py:457-489 | prints the new test failures of one poll, each with the lines of its stack trace, as `ProcessFailures` does |
| Client.MetadataApi.ReportRound | salesforce/api/metadata.py:434-489 | one round of the polling loop prints as `PollRound` does |
| Client.MetadataApi.ReportLoneFailure | salesforce/api/metadata.py:461-473 | prints a lone failure with its stack-trace lines when its id is new, and raises `TypeError` on an unhashable id, as `LoneFailure` does |
| Client.MetadataApi.ReportFailureList | salesforce/api/metadata.py:475-489 | the loop over a list of failures, printing each new one with its stack-trace lines and raising `TypeError` on an unhashable id, ends as `FailuresFrom` does |
| Client.MetadataApi.ReportFailed | salesforce/api/metadata.py:507-563 | the new state is `FailedSpec` of the old |
| Client.MetadataApi.AwaitDeploy | salesforce/api/metadata.py:433-570 | the polling loop and the report end in the state `DeployPoll` gives, returning the last answer |
| Client.MetadataApi.DeployJob | salesforce/api/metadata.py:427-584 | the new state is `DeployJobSpec` of the old, which stores the last status answer as `self.result` |
| Client.MetadataApi.Deploy | salesforce/api/metadata.py:359-584 | the new state is `DeploySpec` of the old |
| JobProperties.ResponseErrorShape | util.py:2151-2160 | an error status gives the fault code and string (status 500) or the error code and message, and `success` false; it exists exactly when both elements are present |
| JobProperties.ConvertErrorShape | salesforce/api/metadata.py:350-355 | the `KeyError` failure has `success` false, the conversion message and the missing key |
| JobProperties.PollStatusExit | salesforce/api/metadata.py:221-226 | the loop returns only a status whose `done` is not "false", and such a status returns at once |
| JobProperties.PollStatusRequests | salesforce/api/metadata.py:221-226 | every request of the loop is `check_status` for the job; a completed loop waited once per request |
| JobProperties.PollStatusFirstWait | salesforce/api/metadata.py:222-223 | the first wait is 2 seconds while "Queued", 1 otherwise |
| JobProperties.PollStatusWaits | salesforce/api/metadata.py:221-226 | each later wait follows the state printed after the previous poll |
| JobProperties.AfterPollDownloadsUnlessFailed | salesforce/api/metadata.py:229-236 | a "Failed" job is stored with no download; any other state sends `check_retrieve_status` for the job next |
| JobProperties.DownloadForcesFailure | salesforce/api/metadata.py:239-242 | an unsuccessful or "Failed" download is stored with `success` forced to false and the rest unchanged |
| JobProperties.RetrieveFirstPost | salesforce/api/metadata.py:171-176 | the first request of `retrieve` is the retrieve request with the caller's options |
| JobProperties.RetrieveSessionExpiry | salesforce/api/metadata.py:186-190 | an expired session logs in again with the expiry flag and resends the same retrieve request |
| JobProperties.DeployPollExit | salesforce/api/metadata.py:433-496 | polling goes on exactly while the status is busy: a completed loop gives back an answer whose status is not busy, and a status that is not busy ends the loop at once |
| JobProperties.ResponseErrorHasNoBody | util.py:2151-2160 | the failure made of an error status has no `body` key |
| JobProperties.CheckDeployStatusKeepsResult | salesforce/api/metadata.py:333-357 | `check_deploy_status` stores only the failure of an error status, and an answer it stores has no `body` |
| JobProperties.DeployPollKeepsResult | salesforce/api/metadata.py:427-570 | a polling loop that completes leaves `self.result` as it found it |
| JobProperties.DeployPollRequests | salesforce/api/metadata.py:491-496 | every poll request is `check_deploy_status` for the job |
| JobProperties.DeployPollWaits | salesforce/api/metadata.py:491-496 | a completed loop waited once per request |
| JobProperties.DeployPollFirstWait | salesforce/api/metadata.py:492-493 | the first wait is 2 seconds while "Pending", 1 while "InProgress" or "Canceling" |
| JobProperties.FailuresFromDedup | salesforce/api/metadata.py:476-478 | a list of failures prints no id twice, counting the ids printed before |
| JobProperties.LoneFailureDedup | salesforce/api/metadata.py:462-463 | a lone failure is printed only when its id is new |
| JobProperties.LoneFailureTrace | salesforce/api/metadata.py:461-468 | a new lone failure is printed with its number, id and message, and stack-trace lines that join back to the stack trace when it is a string |
| JobProperties.FailureListTrace | salesforce/api/metadata.py:476-486 | a new failure of a list is printed with its number, id and message, and stack-trace lines that join back to the stack trace when it is a string and are none otherwise |
| JobProperties.UnhashableIdRaises | salesforce/api/metadata.py:461-478 | an id that is a dictionary or a list raises `TypeError` before anything is printed, for a lone failure and for a list |
| JobProperties.DeployPrintsFailuresOnce | salesforce/api/metadata.py:359-570 | a whole deployment, replays included, prints each failed test id at most once |
| JobProperties.DeployJobPrintsFailuresOnce | salesforce/api/metadata.py:314-570 | once a deployment has an id, its status checks and polls print each failed test id at most once |
| JobProperties.FailuresFromNumbering | salesforce/api/metadata.py:476-489 | the failures of a list get consecutive numbers, and the counter ends one past the last |
| JobProperties.LoneFailureAgainstList | salesforce/api/metadata.py:461-489 | a lone failure prints like a one-element list but doubles the counter, and fails on a stack trace that is not a string |
| JobProperties.ComponentMessagesNumbered | salesforce/api/metadata.py:522-533 | one message per component failure, in order, numbered from 1; the report exists exactly when every failure has its file, type and problem |
| JobProperties.ComponentMessageNumbered | salesforce/api/metadata.py:524-525 | each component message starts with its number |
| JobProperties.LoneComponentFailure | salesforce/api/metadata.py:517-533 | a lone component failure is reported as the single message numbered 1, or fails as that message does |
| JobProperties.ComponentPosition | salesforce/api/metadata.py:522-533 | a component failure has a message exactly when it has its file name, problem type and problem; the message ends with its line and column, each shown as 0 when missing |
| JobProperties.WarningsListed | salesforce/api/metadata.py:547-549 | the coverage report exists exactly when every warning has a name, and a message when the name is a string; it is `name -- message` for each warning named by a string, in order |
| JobProperties.DeployStatusShape | salesforce/api/metadata.py:338-349 | a decoded status has `success` true, the debugging header (or `None`) and the result as body |
| JobProperties.CheckRetrieveStatusSuccess | salesforce/api/metadata.py:137-140 | an answer that is not an error is a success only when its status is below 399, and it is not stored |
| JobProperties.CheckStatusStoresResult | salesforce/api/metadata.py:73-101 | a dictionary result is returned and stored marked as a success, its other entries unchanged; any other result stays stored while marking raises `TypeError` |
| JobProperties.CheckDeployStatusKeyError | salesforce/api/metadata.py:333-357 | a result missing from any decoded answer gives the conversion failure naming the missing key, after one request, and leaves the stored result alone |
| JobProperties.CancelDeploymentLoginFails | salesforce/api/metadata.py:278-281 | a failed login sends nothing, and its result is returned and stored |
| JobProperties.CancelDeploymentKeyError | salesforce/api/metadata.py:298-312 | a result missing from any decoded answer gives the conversion failure naming the missing key, returned and stored, after one request |
| JobProperties.CancelDeploymentMarksSuccess | salesforce/api/metadata.py:298-312 | a dictionary result is returned and stored marked as a success, its other entries unchanged |
| JobProperties.DeployFirstPost | salesforce/api/metadata.py:388-391 | the first request of `deploy` is the deploy request with the caller's zip file |
| JobProperties.DeploySessionExpiry | salesforce/api/metadata.py:401-405 | an expired session logs in again with the expiry flag and resends the same deploy request |
| JobProperties.StatusLineCounts | salesforce/api/metadata.py:434-453 | without `stateDetail` the status is printed alone; with it, component counts while fewer are deployed than there are, test counts otherwise, then the detail; an unreadable component count raises what `int()` raises |
| JobProperties.DeployPollWaitsFollow | salesforce/api/metadata.py:433-496 | every wait of the polling loop is the delay of the status printed just before it: all printed statuses when the loop completes, all but the last when a round raises |
| JobProperties.DeployPollAnswer | salesforce/api/metadata.py:433-496 | a loop that starts from an answer marked as a success gives back one marked as a success |
| JobProperties.DeployJobStoresLastAnswer | salesforce/api/metadata.py:427-584 | a completed deployment returns `None` and stores its last status answer, marked as a success and no longer busy; when the first answer is already not busy, it is the one stored after a single request |
| JobProperties.ConvertErrorHasNoBody | salesforce/api/metadata.py:350-355 | the conversion failure has no `body` |

## Left out

- Network I/O, the SOAP envelope and `xmltodict` are not modelled. Each reply is given as a value:
  its status code, its raw text, the decoded document and the elements
  `getUniqueElementValueFromXmlString` would find. Any exception `requests.post` raises is
  `NetworkFailure`.
- `soap_login` is not part of this model. Its results are a scripted sequence of login replies.
- Time is left out: `time.sleep` is recorded as the number of seconds, and the "Total time" lines
  (metadata.py:264-266 and 572-574) are omitted.
- The log panel keeps the lines that carry data from a reply: states, retrieve messages, test
  failures with the lines of their stack traces, deploy status lines, error messages, component
  failures and coverage warnings. The deploy status lines at metadata.py:434-453 are kept as the
  status, the two counts and the detail, not as formatted text. Left out are the fixed banner
  lines, `write_start`, the session-expired notice (metadata.py:403), and the lines that only
  repeat the job id: "Request ID for the current deploy task" (metadata.py:420), "Request ID"
  (metadata.py:502, 511) and "Finished request ... successfully" (metadata.py:259, 569). The job
  id is recorded in the requests sent instead.
- The debug-log view opened at metadata.py:576-582 is a UI action and is left out. The model
  keeps only what decides the outcome: it reads `result["header"]["debugLog"]` when the test at
  metadata.py:577 passes, so a header that is a string containing "debugLog" raises `TypeError`
  before the result is stored.
- The "Canceled" branch of `deploy` (metadata.py:499-504) prints fixed lines and the job id. The
  model treats it as the success branch, because neither changes the state it records.
- `deploy_options` and the validate/deploy wording come from the plugin settings. They only
  affect the log text and the request body, so the deploy request carries the zip alone.
- `rename_metadata` is not part of the modelled core.
- Jobs.RetrieveSpec, Jobs.DeploySpec: the session-expiry recursion is bounded by the scripted
  replies, not by a counter, because the source has no bound.
- Strings.Lower, Strings.Capitalize, Strings.IsUpperChar: ASCII case mapping and case test only;
  Unicode case folding is not modelled.
- Values.Show: a dictionary or a list is shown as a fixed marker, not as Python's `repr`.
- Paths.GetFileAttr, Paths.GetFolderAndName: POSIX `os.path` only. Backslashes are ordinary
  characters to `split` and `splitext`.
- RecordIds.Chunks: requires `n > 0`. `range` with a zero step raises, and the only caller passes
  5.
- Package.DecodedManifest is this model's statement of how the XML decoder reads back a written
  manifest: text is stripped of ASCII whitespace and an empty element is `None`. It is an
  assumption about `xmltodict`, not a proved fact. Non-ASCII whitespace and XML escaping are not
  modelled, so `Package.ManifestRoundTrip` is stated for plain names only.
- Package.TypesFromLookup: `types[name]` with a name that is a dictionary or a list raises
  `TypeError` (unhashable) at util.py:741-743; the model looks such a name up like any other
  value and does not produce that exception.
- Values.IntOf: reads only unsigned decimal digits; `int()` also accepts a sign, surrounding
  whitespace and underscores between digits, which the model reports as `ValueError`.
- The Apex library and symbol-table inputs of `Completions` are typed records. The `KeyError`
  of a missing key that the code reads without testing is not modelled.
- `write_metadata_to_csv` writes utf-8 bytes to a file, and `urllib.parse.unquote(unescape(…))`
  runs on each cell. The model returns the text and takes that decoding as the parameter `decode`.
- The API version is a natural number. `"%s.0"` of a non-integer setting is not modelled.
