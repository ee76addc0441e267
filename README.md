# SPOT to OMIE product synchronizer: a Dafny model

The synchronizer reads the product catalog of the SPOT supplier API and registers
in the OMIE ERP every product OMIE does not have yet. This project models three
pieces of its decision logic and proves what they guarantee.

- **The field mapper** (`SpotMapper`). It corrects known-bad NCM tariff codes
  (`fix_ncm` with its five-entry table) and builds the OMIE registration payload
  from a SPOT record (`map_spot_to_omie`). That includes the 120-character
  `descricao`.
- **The OMIE client** (`OmieClient`). It builds the authentication envelope of
  every call. It reads the reply to a product insertion: the body is checked for
  a fault before the HTTP status is. It also walks the paginated product listing.
  The HTTP transport is an input: one reply per request, in request order.
- **The reconciliation loop** (`ProductSync`), `sync_products`.
  - It computes the set of codes OMIE already has, and optionally keeps only a
    preview prefix of the products.
  - Each product is then skipped (no reference, or already in OMIE), only mapped
    (dry run), or mapped and sent.
  - The reply to a sent product puts it in the inserted list or the error list,
    or stops the run.
  - The loop is a method with a `while` loop that grows the four lists. It is
    proved equal to `Run`, a recursion over the products from first to last, and
    the properties of `Run` are lemmas.

`PyValues` holds the small part of Python's value model these decisions depend
on:
- decoded JSON values and truthiness;
- `dict.get`, and `str()` of scalars;
- the `in` operator, including its `TypeError` on a non-iterable operand;
- `str.strip()` and slicing.

Where the code and its tests or prose disagree, the model follows the code:
- `fix_ncm("9617.10.00")` is `"90251990"`, because the dot-free form is looked up
  first. The dotted entry `"9025.19.90"` of the table is never returned.
- `tests/test_spot_mapper.py:19` expects `descricao` without the `" - Codigo: ..."`
  part. The code at `app/spot_mapper.py:76` always adds it, and `MapBasicRecord`
  proves the code's value.
- `tests/test_omie_client.py:56` expects `None` for a body holding only a
  `faultstring`. The code at `app/omie_client.py:86-88` returns the body, and
  `FaultstringOnlyCountsAsInserted` proves that.
- The client treats a body as a fault when `faultstring` or `faultcode` is truthy
  (`app/omie_client.py:86`). The loop treats it as a fault only when the key
  `faultcode` is present (`app/product_sync.py:65`).
  - A body with only a `faultstring` is therefore recorded as inserted.
  - A fault whose `faultstring` is None, a number or a bool makes the `in` test
    raise inside the `try`, so that product gets two error records
    (`NonTextFaultRecordedTwice`). A list or object `faultstring` does not raise:
    the test is a membership test or a key test.
- A mapper error (`app/product_sync.py:57`) is outside the `try`, so it ends the
  whole run. The model returns it as an error.

## Model

| member | source | states |
|---|---|---|
| PyValues.GetOr | app/spot_mapper.py:68-75 | `d.get(k, default)` is the stored value for a present key and the default for a missing one |
| PyValues.Truthy | app/spot_mapper.py:22-23 | Python truthiness of a JSON value: None, False, 0, "", [] and {} are falsy and all else is truthy. Its uses are stated by `SpotMapper.FixNcm` and `ProductSync.StepCases` |
| PyValues.In | app/product_sync.py:76 | `needle in v` succeeds exactly on a str, list or dict. On a str it is a substring test, on a list a test for the string among the items, and on a dict a key test. On None, a bool or an int it fails with that type's name |
| PyValues.Strip | app/spot_mapper.py:70 | the result keeps no whitespace at either end, is empty exactly when the input is all whitespace, is the input itself when nothing is padded, and occurs inside the input |
| PyValues.StripRemovesPadding | app/spot_mapper.py:70 | the input is the strip with only whitespace before it and only whitespace after it, so exactly the leading and trailing whitespace is removed |
| PyValues.StripUnpadded | app/spot_mapper.py:70 | a non-empty string with no whitespace at either end strips to itself |
| PyValues.SliceTo | app/product_sync.py:32-33 | `s[:n]` is a prefix of `s`: the first `n` items for `n >= 0`, and all but the last `-n` for negative `n` |
| PyValues.Take | app/spot_mapper.py:80 | `s[:n]` for `n >= 0` is the prefix of length `min(len(s), n)` |
| SpotMapper.Normalize | app/spot_mapper.py:26-31 | the normalised code holds no `.` and has at most 8 characters |
| SpotMapper.NormalizeKeepsPrefix | app/spot_mapper.py:26-31 | the normalised code is the dot-free string cut to 8 characters, and is that whole string when it is not longer |
| SpotMapper.StripDots | app/spot_mapper.py:26 | `replace(".", "")`, recursively over the characters. `StripDotsDotFree`, `DotFreeFixed` and `StripDotsConcat` state that it leaves no dot, never lengthens, fixes dot-free strings and distributes over concatenation |
| SpotMapper.StripDotsConcat | app/spot_mapper.py:26 | removing dots distributes over concatenation |
| SpotMapper.DotFreeFixed | app/spot_mapper.py:26 | a string without dots is unchanged by `replace(".", "")` |
| SpotMapper.NormalizeIdempotent | app/spot_mapper.py:26-31 | normalising twice equals normalising once |
| SpotMapper.FixNcmText | app/spot_mapper.py:17-45 | `fix_ncm` on a string: empty stays empty, else the normalised code's entry, else the original's entry, else the normalised code. `FixNcmTableForm`, `FixNcmShape`, `FixNcmIdempotent` and `FixNcmExamples` state what it returns |
| SpotMapper.FixNcm | app/spot_mapper.py:17-45 | falsy values (None, "") come back as given. A string is corrected. Any other truthy value fails with a missing `replace` attribute, and only such a value fails |
| SpotMapper.KeysNormalizeToKeys | app/spot_mapper.py:9-15 | every key of the table normalises to a key of the table, so the lookup of the original form is dead code |
| SpotMapper.FixNcmTableForm | app/spot_mapper.py:9-45 | for every code, the result is the table's entry for the normalised code when there is one, and the normalised code otherwise |
| SpotMapper.FixNcmShape | app/spot_mapper.py:22-45 | every corrected or passed-through code holds no `.` and has at most 8 characters |
| SpotMapper.FixNcmUnknownPassesThrough | app/spot_mapper.py:45 | a dot-free code of at most 8 characters that is not a key comes back unchanged |
| SpotMapper.CorrectedCodesAreFixed | app/spot_mapper.py:9-15 | the two corrected values the lookup can return are dot-free fixpoints of the correction |
| SpotMapper.FixNcmIdempotent | app/spot_mapper.py:17-45 | correcting a corrected code changes nothing |
| SpotMapper.FixNcmExamples | app/spot_mapper.py:9-45 | "96171000" and "9617.10.00" give "90251990". "9608109900" is cut to "96081099" and gives "96081000". "12345678" stays itself, and "1234567890" is cut to "12345678" |
| SpotMapper.WeightKg | app/spot_mapper.py:75 | an integer weight in grams becomes grams/1000 as an exact real, and a bool counts as 1 or 0 grams. None and strings fail the division, and nothing else fails |
| SpotMapper.MapSpotToOmie | app/spot_mapper.py:63-86 | fails exactly when `Colors` is not a string, `Taric` cannot be corrected, or `Weight` cannot be divided. Both codes are `ProdReference`, `ncm` is the corrected `Taric`, and `unidade`/`importado_api` are "UN"/"S". `descricao` is the display text cut to at most 120 characters |
| SpotMapper.BlankColorsLeaveEmptyCor | app/spot_mapper.py:70-80 | an all-whitespace `Colors` leaves "Cor: " with nothing after it in `descricao` |
| SpotMapper.MapBasicRecord | app/spot_mapper.py:63-86 | the payload of the record "TEST123"/"Copo Térmico"/"Preto"/"12345678"/390, field by field, with weight 0.39 |
| OmieClient.AuthPayload | app/omie_client.py:8-17 | the envelope holds exactly the keys `app_key` and `app_secret`, with the constructor's values |
| OmieClient.ListRequest | app/omie_client.py:26-35 | a page request carries the credentials, the call `ListarProdutos` and one parameter record with the page, the page size, "S" and "N" |
| OmieClient.InsertRequest | app/omie_client.py:68-72 | an insertion request carries the credentials, the call `IncluirProduto` and the payload as its only parameter |
| OmieClient.IsFault | app/omie_client.py:86 | a body is a fault when `faultstring` or `faultcode` is truthy, a missing key counting as None. `InsertProduct` and `ProductSync.FaultstringOnlyCountsAsInserted` state its effect |
| OmieClient.RaisesForStatus | app/omie_client.py:91 | `raise_for_status` raises for a status from 400 to 599. `InsertProduct` and `PageStep` state what follows from it |
| OmieClient.InsertProduct | app/omie_client.py:64-105 | returns the decoded body exactly when it is an object that marks a fault or comes with a success status. An object without a fault and with an error status raises the HTTP error. A body that does not decode raises the HTTP error when the status is an error, and the decoding error otherwise. A connection failure raises |
| OmieClient.InsertReturnsBody | app/omie_client.py:91-105 | a fault-free object with a success status is returned exactly as decoded |
| OmieClient.UndecodableNeverReturns | app/omie_client.py:97-102 | a body that does not decode never yields a value, whatever the status |
| OmieClient.PageItems | app/omie_client.py:41-49 | a list adds its items, a string its characters and an empty object nothing. The value fails exactly when it is None, a bool, an int or a non-empty object, because the debug line reads element 0 of a truthy value and `extend` iterates it |
| OmieClient.TotalPages | app/omie_client.py:51 | `total_de_paginas` defaults to 1. An integer is taken as is and a bool as 1 or 0, and only a value that cannot be compared with an int fails |
| OmieClient.PageStep | app/omie_client.py:37-60 | an error status ends the listing quietly. A body that does not decode, is not an object, or holds a product list or total that cannot be used raises that error. Otherwise the page's items are added, and the loop goes on exactly while the page number is below the decoded total |
| OmieClient.MissingListCountsEmpty | app/omie_client.py:41-51 | a page without a product list and without a total adds nothing, and is the last page from page 1 on |
| OmieClient.Listing | app/omie_client.py:19-63 | a listing that ends within the replies requested at least one page and no more pages than there are replies |
| OmieClient.ListingAfter | app/omie_client.py:25-54 | after `k` continuing pages, the result is their items in page order, followed by the listing from page `page + k`, with `k` more requests |
| OmieClient.StopsAt | app/omie_client.py:25-63 | a listing whose first stopping page is page `k` makes `k + 1` requests and returns the earlier pages' items, plus that page's items unless it stopped on an HTTP error. A raised error is passed on |
| OmieClient.TerminatesIff | app/omie_client.py:25-54 | the listing ends within the replies if and only if some reply stops it after a run of continuing pages |
| OmieClient.FirstPageHttpError | app/omie_client.py:56-63 | an HTTP error on the first page gives an empty listing after one request |
| OmieClient.PagedEnds | app/omie_client.py:49-63 | when the loop leaves at the `i`-th reply, it has made `i + 1` requests. The result is what it gathered (an HTTP error), plus the last page's items (the last page), or the raised error |
| OmieClient.VisitPage | app/omie_client.py:37-60 | one iteration of the page loop: a page that continues moves the loop state on with its products appended, and any other page ends the listing with exactly the listing's result after this page as the last one requested |
| OmieClient.ListProducts | app/omie_client.py:19-63 | the page loop returns the listing's result and makes one request per page, for consecutive pages from `page` on |
| ProductSync.ClassifyResponse | app/product_sync.py:62-99 | the verdict on one insert reply, as stated case by case by `ClassifyResponseCases` |
| ProductSync.ClassifyResponseCases | app/product_sync.py:61-99 | an exception stays an exception. A reply without the key `faultcode` is an insertion whose code is `codigo_produto` (None for an empty reply). A reply with `faultcode` is an NCM fault, a fatal fault, or an unsearchable fault, by the `in` test on `faultstring` (default "") |
| ProductSync.Step | app/product_sync.py:44-99 | one pass of the loop body, as stated case by case by `StepCases` |
| ProductSync.StepCases | app/product_sync.py:44-99 | one pass of the body: no reference, then known code, then mapping (whose error escapes), then a dry-run preview or an insert call whose reply is classified. Only a mapping error makes the pass fail, and only a new, referenced product outside a dry run is sent |
| ProductSync.ExistingCodes | app/product_sync.py:36-37 | the set is exactly the truthy `codigo_produto_integracao` values of the listing. It fails exactly when an entry is not an object or holds an unhashable truthy code |
| ProductSync.PreviewKeepsPrefix | app/product_sync.py:32-33 | a preview count `n` keeps the first `min(n, len(products))` products, in order |
| ProductSync.Run | app/product_sync.py:43-101 | the whole loop: the dispositions in product order, ended by a fatal fault or a mapping error. `RunStepwise`, `RunStopsOnlyAtEnd`, `RunShortEndsOnStop`, `RunRaisedAt` and `RunLength` state it, and `ProcessProducts` is proved equal to it |
| ProductSync.RunLength | app/product_sync.py:43-101 | the loop handles no more products than it is given |
| ProductSync.RunStepwise | app/product_sync.py:43-101 | the `k`-th disposition is what the body gives for the `k`-th product, after the insert calls of the products before it |
| ProductSync.RunStopsOnlyAtEnd | app/product_sync.py:82-83 | a fatal fault is always the last disposition: no product after it is attempted |
| ProductSync.RunShortEndsOnStop | app/product_sync.py:43-83 | a run that handles fewer products than it is given, with no error, ended on a fatal fault |
| ProductSync.RunRaisedAt | app/product_sync.py:57 | a run that raises does so on the product after the last handled one, with that product's mapping error |
| ProductSync.SentAreNew | app/product_sync.py:47-62 | for a mapper that copies `ProdReference` into `codigo`, every payload sent has a truthy code outside the existing set |
| ProductSync.MapperKeepsCode | app/spot_mapper.py:68-78 | the mapper copies `ProdReference` into `codigo` |
| ProductSync.SyncSendsOnlyNewCodes | app/product_sync.py:36-62 | every request `sync_products` sends is an `IncluirProduto` call whose product has a truthy code that OMIE did not list |
| ProductSync.DryRunSendsNothing | app/product_sync.py:60 | in a dry run nothing is sent, nothing is recorded as inserted or failed, and no disposition is a sent one |
| ProductSync.CountsAddUp | app/product_sync.py:43-101 | with no previews and no unsearchable faults, the four list lengths add up to the number of products handled |
| ProductSync.RecordCounts | app/product_sync.py:47-99 | a preview adds no record, an unsearchable fault adds two, and every other disposition adds exactly one |
| ProductSync.DuplicateNewCodesBothInserted | app/product_sync.py:37-55 | when the same new product appears twice and OMIE accepts both, both are inserted, because the existing set is never updated |
| ProductSync.FaultRecordedOnce | app/product_sync.py:65-83 | an NCM or fatal fault adds one error record with OMIE's code and message, and only the fatal one stops the run |
| ProductSync.ExceptionRecordedOnce | app/product_sync.py:92-99 | an exception from the insert call adds one "EXCEPTION" record with its text and does not stop the run |
| ProductSync.AcceptedRecordedOnce | app/product_sync.py:84-90 | an accepted product adds exactly one inserted record and nothing else, and does not stop the run |
| ProductSync.NonTextFaultRecordedTwice | app/product_sync.py:65-99 | a fault whose `faultstring` is None, a number or a bool gives a fault record plus an "EXCEPTION" record for the `TypeError`, and does not stop the run |
| ProductSync.FaultstringOnlyCountsAsInserted | app/omie_client.py:86-88 | a body holding only a non-empty `faultstring` is a fault to the client, yet the loop records it as inserted with no OMIE code |
| ProductSync.SendProduct | app/product_sync.py:60-99 | the insert call sends the payload under the credentials. The records and the stop flag it returns are those of the classified reply |
| ProductSync.HandleProduct | app/product_sync.py:44-99 | the loop body fails exactly when the pass fails. Otherwise its four list extensions, its request and its stop flag are those of the pass's disposition |
| ProductSync.VisitProduct | app/product_sync.py:43-99 | one iteration keeps the loop invariant when it goes on. When the loop breaks, the lists are those of the whole run, and when it fails, it fails with the run's error. Either way the requests are those of the run |
| ProductSync.ProcessProducts | app/product_sync.py:42-101 | the loop over the four lists returns the run's lists and fatal flag, or the run's mapping error, and sends exactly the run's requests in order |
| ProductSync.Sync | app/product_sync.py:12-112 | the whole of `sync_products`: existing codes, preview, run and tally, with the requests sent. `SyncProducts`, `SyncSendsOnlyNewCodes` and `DryRunSendsNothing` state it |
| ProductSync.SyncProducts | app/product_sync.py:12-112 | `sync_products` returns the outcome and sends the requests of `Sync`: the existing codes, and the preview, run and tally over them |
| ProductSync.Collect | app/product_sync.py:17-20 | the four lists and the fatal flag of a run's dispositions. `CollectSnoc`, `CountsAddUp` and `RecordCounts` state how they grow |
| ProductSync.CollectSnoc | app/product_sync.py:43-101 | handling one more product appends its records to each list, and the fatal flag is that product's |

## Left out

- I/O: HTTP, logging, `pprint`, `time.sleep`, the CSV exports and pandas. The transport
  is a function from the call's index and request to a reply.
- The SPOT client and its fetches (`app/spot_client.py`), `fetch_spot_products`,
  `fetch_price` and `app/main.py` are not part of this model. The products are a
  given sequence.
- `_log_execution_summary` only logs the lists; the model hands them back as
  `Tally`. CSV output after the summary is logged output too.
- `_build_headers` is a constant header that only the transport reads.
- Within `sync_products`, the `list_products` result is given as a sequence. The
  page loop that produces it is `OmieClient.ListProducts`.
- Product records are dicts whose fields are scalars (`SpotProduct` maps names to
  `Scalar`). Lost by that:
  - a product list element that is not a dict, on which `product.get` raises
    (`app/product_sync.py:44`);
  - a list or object as `ProdReference`, whose truthy value cannot be hashed by the
    `in existing_codes` test (`app/product_sync.py:52`), which ends the whole run;
  - a list or object as `Colors`, `Taric` or `Weight`, on which the mapper raises.
- JSON floats: only integers are JSON numbers here. The bool-as-int case of
  Python's sets (`True == 1`) is not modelled in `ExistingCodes`.
- WeightKg: `round(x, 3)` on floats is modelled as exact division on reals.
  Whole grams divided by 1000 need no further rounding.
- InsertErrorText: the text of an exception is an abstraction of `str(e)` (the
  status for an HTTP error, the message otherwise), not Python's exact wording.
- ListProducts: requires that the given replies let the listing stop. The source
  loops forever only when `total_de_paginas` stays above every page number it
  reaches, for example a total that grows with each page. A finite reply
  sequence cannot show that.
