# Salesforce downloader — a Dafny model

This project models the Salesforce downloader of the GoodData connectors: the
class that describes each Salesforce object, restricts its fields to the ones
the user asked for, and downloads its main dataset. It first tries the bulk API
with an unfiltered SOQL query and passes the `CreatedDate` window as options.
If the bulk client raises, it asks the REST API for the same query with the
window added, and writes the rows to a CSV file. For each object it records
the fields it used and the files holding the data in `downloaded_info['objects']`.

Modules, one per concern of `lib/gooddata_connectors_downloader_salesforce/salesforce_downloader.rb`:

- `Records` (records.dfy): fields, API values (including the explicit-null
  marker `{"xsi:nil" => "true"}`), rows, and the `Option`/`Result` wrappers.
- `Soql` (soql.dfy): `construct_query`, with `Join`/`Split` and an independent
  "conjunction of the present bounds" definition of the date filter.
- `FieldRestriction` (field_restriction.dfy): the check of `limit_entity_fields`
  against the described names, and the order-preserving `keep_if` filter.
- `CsvShaping` (csv_shaping.dfy): cell unwrapping, `values_at` projection, and
  the header-then-rows CSV content, written by a loop.
- `Downloader` (downloader.dfy): `get_field_metadata`, `download_main_dataset`
  as an explicit bulk attempt followed by one REST attempt, and `download` as a
  loop over the entities. The loop is proved equal to a fold (`Run`) of one step
  per object (`ObjectStep`). Its properties are lemmas about that fold.

The remote clients are oracles held in `Clients`:
- `bulk` returns `BulkOk(files)` or `BulkFailed`, which stands for any StandardError (what the bare `rescue` catches);
- `rest` returns `RestOk(rows)` or `RestFailed`;
- `describe` returns the name/type/label records;
- `instanceUrl` is the server URL.

Every call to `bulk` and `rest` is recorded in a call log, so the order and
number of calls can be stated. `generate_filename`, `File.absolute_path` and
the data directory are parameters in `Env`. A written CSV file is a path plus
its rows of cells.

Behaviour of this code that a reader might not expect, modelled as written:
- The code does not refuse an empty field list. It builds `SELECT  FROM <obj>`.
- The window always filters on `CreatedDate`, not on a configurable timestamp column.
- There is no deleted-record download, resync pass, checkpoint, merge of
  partial files, or type mapping in this file.

## Model

| member | source | states |
|---|---|---|
| `Soql.ConstructQueryIsBaseAndWindow` | lib/gooddata_connectors_downloader_salesforce/salesforce_downloader.rb:153-168 | The early-return cascade equals the base query followed by " WHERE " and the conjunction of exactly the bounds present (both, only from, only to); the query is the base query unchanged if and only if neither bound is given |
| `Soql.QueryStartsWithSelectList` | lib/gooddata_connectors_downloader_salesforce/salesforce_downloader.rb:154 | For every name list and every pair of bounds, the query starts with "SELECT " and the names joined by ", " in the given order |
| `Soql.SelectListRoundTrip` | lib/gooddata_connectors_downloader_salesforce/salesforce_downloader.rb:154 | Every query starts with "SELECT " and the names joined by ", " in the given order; splitting that list at ", " gives back exactly the field names when none contains a comma |
| `Soql.SplitJoinRoundTrip` | lib/gooddata_connectors_downloader_salesforce/salesforce_downloader.rb:154 | `join` is undone by splitting at the separator for any non-empty list of parts free of the separator's first character |
| `Soql.JoinForgetsBoundaries` | lib/gooddata_connectors_downloader_salesforce/salesforce_downloader.rb:154 | For any parts before and after, `join` gives the same text for a part `a + sep + b` as for the two parts `a` and `b` |
| `Soql.NamesAreNotEscaped` | lib/gooddata_connectors_downloader_salesforce/salesforce_downloader.rb:154 | Identifiers are not quoted: for all field lists, a name `a, b` gives the same query as the names `a` and `b` in its place, although the lists differ; so the no-comma condition of the round trip cannot be dropped |
| `FieldRestriction.KeepIf` | lib/gooddata_connectors_downloader_salesforce/salesforce_downloader.rb:64 | The kept fields are exactly those of the list whose name is in the requested set: each such record as many times as it occurs in the list, any other record not at all; never more than there were |
| `FieldRestriction.KeepIfIsSubsequence` | lib/gooddata_connectors_downloader_salesforce/salesforce_downloader.rb:64 | The restricted list is a subsequence of the described list: original relative order, nothing added |
| `FieldRestriction.KeepIfIdempotent` | lib/gooddata_connectors_downloader_salesforce/salesforce_downloader.rb:64 | Filtering an already filtered list to the same names changes nothing |
| `FieldRestriction.Unavailable` | lib/gooddata_connectors_downloader_salesforce/salesforce_downloader.rb:55-58 | The unavailable names are exactly the requested names that no described field carries |
| `FieldRestriction.RestrictFields` | lib/gooddata_connectors_downloader_salesforce/salesforce_downloader.rb:51-65 | No user list leaves the fields unchanged; the step fails if and only if a requested name is not described, and the error carries exactly those names |
| `FieldRestriction.RestrictedFieldsAreRequested` | lib/gooddata_connectors_downloader_salesforce/salesforce_downloader.rb:54-64 | A successful restriction is the described fields filtered to the requested names: a subsequence whose set of names is exactly the requested set |
| `FieldRestriction.RestrictAgain` | lib/gooddata_connectors_downloader_salesforce/salesforce_downloader.rb:49-64 | Restricting the in-place restricted list again (an entity listed twice) succeeds and returns the same list |
| `CsvShaping.NormalizeUndoesWrapping` | lib/gooddata_connectors_downloader_salesforce/salesforce_downloader.rb:88-94 | An array becomes its first element (later elements dropped); an array whose first element is `{"xsi:nil"=>"true"}` becomes nil, as does an empty array; a non-array value passes unchanged |
| `CsvShaping.ExplicitNullReadsAsAbsent` | lib/gooddata_connectors_downloader_salesforce/salesforce_downloader.rb:88-94 | A row whose cell is an array starting with the explicit-null marker projects to the same CSV line as the row without that field |
| `CsvShaping.CsvContentShape` | lib/gooddata_connectors_downloader_salesforce/salesforce_downloader.rb:77-96 | The REST CSV has one line more than there are rows: the header is the field names, line k+1 is row k projected with `values_at`, and every line has exactly one cell per field |
| `CsvShaping.WriteCsv` | lib/gooddata_connectors_downloader_salesforce/salesforce_downloader.rb:77-96 | Writing the header and then appending each projected row yields the CSV content of the rows |
| `Downloader.FieldMetadata` | lib/gooddata_connectors_downloader_salesforce/salesforce_downloader.rb:28-32 | The metadata map has exactly the entities as keys, each mapped to its described fields |
| `Downloader.DownloadMainDataset` | lib/gooddata_connectors_downloader_salesforce/salesforce_downloader.rb:106-143 | The explicit bulk attempt, then on failure one REST attempt, yields exactly the outcome and call log of `MainDataset`, whose fallback behaviour the two lemmas below state |
| `Downloader.BulkSuccessUsesFiles` | lib/gooddata_connectors_downloader_salesforce/salesforce_downloader.rb:111-130 | When the bulk call succeeds the result is in files (the bulk file names), and the only call is the bulk one, whose query is the base query with no WHERE clause |
| `Downloader.BulkFailureFallsBackToRest` | lib/gooddata_connectors_downloader_salesforce/salesforce_downloader.rb:115-142 | When the bulk call fails, exactly one REST call follows, whose query is the bulk query plus the date window; the dates reach the bulk client only as options; the REST rows or the REST error are the result |
| `Downloader.RecordFacts` | lib/gooddata_connectors_downloader_salesforce/salesforce_downloader.rb:67-98 | Recording a main dataset appends its calls, installs the restricted metadata and adds an entry for that object only, holding its fields |
| `Downloader.DownloadObject` | lib/gooddata_connectors_downloader_salesforce/salesforce_downloader.rb:47-98 | One pass of the loop (restriction in place, main dataset, entry, CSV on the REST path) is the specified step |
| `Downloader.Download` | lib/gooddata_connectors_downloader_salesforce/salesforce_downloader.rb:34-102 | The loop over the entities computes the fold of the per-object step; the first error is raised and ends the loop; the metadata changes made by `keep_if` stay visible |
| `Downloader.ErrorIsFinal` | lib/gooddata_connectors_downloader_salesforce/salesforce_downloader.rb:46-100 | Once an error is raised for an object, the objects after it change nothing |
| `Downloader.StepFacts` | lib/gooddata_connectors_downloader_salesforce/salesforce_downloader.rb:46-98 | One object's step changes only that object's metadata and entry, makes bulk calls only for it, and records an entry only after a successful restriction |
| `Downloader.RunIsConsistent` | lib/gooddata_connectors_downloader_salesforce/salesforce_downloader.rb:46-100 | After any prefix of the entities: metadata keys unchanged, unprocessed entries untouched, bulk calls only for processed objects, and (without error) one entry per processed object holding its restricted fields |
| `Downloader.ObjectsOnePerEntity` | lib/gooddata_connectors_downloader_salesforce/salesforce_downloader.rb:46-83 | On success `downloaded_info['objects']` has exactly one entry per entity, holding the restricted fields, which the field metadata now holds as well |
| `Downloader.NoMissingMetadata` | lib/gooddata_connectors_downloader_salesforce/salesforce_downloader.rb:49 | If every entity has a metadata entry, the download never fails for want of one |
| `Downloader.DescribedMetadataIsComplete` | lib/gooddata_connectors_downloader_salesforce/salesforce_downloader.rb:28-32 | Downloading with the metadata built by `get_field_metadata` never fails for a missing entry |
| `Downloader.UnavailableFieldAborts` | lib/gooddata_connectors_downloader_salesforce/salesforce_downloader.rb:54-61 | If an entity's user list names a field it does not have, the download raises, and no bulk call is ever made for that entity |
| `Downloader.WrittenFilesAreRectangular` | lib/gooddata_connectors_downloader_salesforce/salesforce_downloader.rb:77-96 | Every CSV file written has a header line and the same number of cells on every line |
| `Downloader.RestEntryHasOneFile` | lib/gooddata_connectors_downloader_salesforce/salesforce_downloader.rb:77-83 | On the REST path the entry has exactly one file name, the absolute path of the file just written, whose header is the entry's field names and has as many cells as there are fields |
| `Downloader.BulkEntryUsesBulkFiles` | lib/gooddata_connectors_downloader_salesforce/salesforce_downloader.rb:70-74 | On the bulk path the entry lists the absolute paths of the bulk files, nothing is written, and the only new call is the unfiltered bulk query |

## Left out

- Client construction and the merge of clients into the global parameters (lines 16-25): credential and network setup in libraries not modelled.
- `@client.describe` and its mapping to name/type/label records (lines 146-151): the `describe` oracle of `Clients` returns those records directly.
- The bulk job itself (submission, polling, batching, files on disk) and the REST client's HTTP: both are oracles. Any StandardError from the bulk client is one `BulkFailed`.
- A REST query that fails partway through reading its rows (Restforce fetches pages lazily while the CSV is written): the model's REST oracle fails as a whole or returns all rows.
- CSV serialisation: `force_quotes` quoting and escaping, how nil and non-string values are rendered, and the file I/O of `CSV.open`. A CSV file is its path and its rows of cells.
- `generate_filename` (defined in a base class not shown here) and `File.absolute_path` are opaque functions in `Env`.
- An exception outside StandardError raised by the bulk client (Interrupt, SignalException, NoMemoryError): the bare `rescue` at line 131 does not catch it, so `download` ends with no REST attempt. The bulk oracle cannot raise such an exception.
- Logging (lines 113, 132-133).
- The date bounds are taken as already rendered text (`#{created_from}` interpolation). An absent bound is Ruby's nil. A bound given as `false` is not modelled.
- Floating-point cell values are not modelled (integers, strings, booleans, hashes, arrays and nil are).
- `lib/gooddata_connectors_downloader_salesforce.rb`: it only loads libraries and defines a middleware that builds the downloader. It is not part of this model.
- The integration test `spec/salesforce_downloader_spec.rb` needs live credentials. It asserts four objects, one file each, and a header as long as the field list. `ObjectsOnePerEntity` states the four objects. The one file and the header length are stated by `RestEntryHasOneFile` only on the REST path. The test runs with `single_batch`, which is the bulk path, and there the number of files and their headers are the bulk oracle's.
