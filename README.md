# go-lambda-dynamo in Dafny

This project models the serverless back end of go-lambda-dynamo. Each HTTP endpoint is a Lambda handler
over a single DynamoDB table of *documents*: pages and sites keyed by `(id, version)`. A second, legacy
`todos` table is keyed by `id` alone. The model covers what each handler reads, how it stamps or merges
the request body, what it writes, and which status it answers.

- **Documents** (`documents.dfy`): the `Page` and `Site` records. Optional fields are `Option<string>`
  (Go `*string`). Timestamps are `int` (Go `time.Time`). A stored item is a `Doc`.
  - Reading an item into the *other* struct (`AsPage`/`AsSite`) matches attributes by name, as UnmarshalMap does.
  - A missing item decodes to a zero record.
  - `WellKeyed` is the store's guarantee: every item sits under its own `(id, version)`, and its id is not empty.
- **Store** (`store.dfy`, `todos.dfy`): each table is a class with one map field.
  PutItem (an upsert) and DeleteItem are methods that keep the table well keyed.
- **Lambda** (`lambda.dfy`): the status codes, the response body and the request body (`Malformed` or `Parsed`).
  `Fault` names the one collaborator call that fails during an invocation: GetItem, UnmarshalMap, MarshalMap,
  PutItem, json.Marshal of the response, the expression builder, Query or DeleteItem.
- **Json** (`json.dfy`) and the `Encode*`/`Decode*` functions of the update modules model the
  `json.Marshal`-then-`json.Unmarshal` merge field by field.
  - `omitempty` drops nil pointers and a zero `int`.
  - Unmarshalling over an existing struct replaces only the members present.
- **GoStrings** (`go_strings.dfy`): `strings.TrimSpace`, `strings.ToLower` and the store's `begins_with`.

Each handler that writes is two members:
- a pure `Effect` function that gives the response and the new table, with its properties as `ensures`;
- an imperative `Handler` method over the table object that follows the Go code step by step and is proved
  equal to `Effect`.

The read-only handlers (`PagesGet`, `SitesGet`, `PagesList`) are functions over the table's map.
`Scenarios` and `RoundTrips` state concrete request sequences and how the handlers compose.

Generated identifiers (`uuid.New()`) and clock readings are parameters:
- `newId` and `newVersion`;
- `processStart`, the `time.Now()` taken once in `init`;
- `now`, the `time.Now()` at an update;
- `stamp`, the RFC 3339 text written by the todo create handler.

Path normalisation:
- only page creation lower-cases the path (`strings.ToLower`);
- no handler trims the stored path;
- page creation trims only to test for a blank path;
- site creation and both updates store the path exactly as sent.

## Model

| member | source | states |
|---|---|---|
| Documents.AsPage | endpoints/pages/update/main.go:24-35 | decoding an item into a Page keeps its key, path and type; a page item decodes to itself; a site item loses the author |
| Documents.AsSite | endpoints/sites/update/main.go:30-44 | decoding an item into a Site keeps its key, path and type; a page item decodes as Unpublished with no url |
| Documents.EmptyIdIffAbsent | endpoints/pages/update/main.go:97-101 | over a well-keyed table, the decoded id is empty exactly when no item is stored under the key |
| Json.StringMember | endpoints/pages/update/main.go:172-176 | an absent member leaves a string field as it was; a string member replaces it |
| Json.PointerMember | endpoints/pages/update/main.go:172-176 | an absent member leaves a pointer field; a string sets it; null clears it |
| Json.IntMember | endpoints/sites/update/main.go:191-195 | an absent member leaves the status; a number replaces it |
| Json.TimeMember | endpoints/pages/update/main.go:172-176 | an absent member leaves a timestamp; a time member replaces it |
| GoStrings.TrimLeftSpace | endpoints/pages/create/main.go:83 | the result is the suffix left after the longest all-space prefix |
| GoStrings.TrimRightSpace | endpoints/pages/create/main.go:83 | the result is the prefix left before the longest all-space suffix |
| GoStrings.TrimSpaceEmptyIffBlank | endpoints/pages/create/main.go:83-86 | TrimSpace is empty exactly when every character is a space |
| GoStrings.LowerRune | endpoints/pages/create/main.go:90 | no ASCII capital survives lower-casing, and space-ness is unchanged |
| GoStrings.ToLower | endpoints/pages/create/main.go:90 | the length is kept, and each character is lower-cased in place |
| GoStrings.ToLowerIdempotent | endpoints/pages/create/main.go:90 | lower-casing twice equals lower-casing once |
| GoStrings.ToLowerKeepsBlank | endpoints/pages/create/main.go:83-90 | a path is blank after lower-casing exactly when it was blank before |
| Store.Table.PutItem | endpoints/pages/create/main.go:101-110 | the item is upserted under its own (id, version), nothing else changes, and the table stays well keyed |
| Store.Table.DeleteItem | endpoints/pages/delete/main.go:82-95 | exactly the key is removed, and an absent key changes nothing |
| PagesUpdate.ScalarsOfEncoded | endpoints/pages/update/main.go:165-179 | unmarshalling a marshalled page overwrites every non-pointer field |
| PagesUpdate.PointersOfEncoded | endpoints/pages/update/main.go:165-179 | unmarshalling a marshalled page overwrites a pointer field only when the change is non-nil |
| PagesUpdate.MergePages | endpoints/pages/update/main.go:165-179 | the merge always succeeds; identity, path, type and timestamps come from the changes; each optional field is the change's when present, else the original's |
| PagesUpdate.EncodeDecodeRoundTrip | endpoints/pages/update/main.go:165-179 | marshalling a page and unmarshalling it into a zero page gives it back |
| PagesUpdate.Effect | endpoints/pages/update/main.go:69-160 | 500 on a read failure; 404 iff the decoded id is empty; 400 iff the body is malformed or the put fails; 200 iff the put happens and the reply encodes. On a put, the original's key holds the merged page (original id, version and createdAt; type "page"; updatedAt now; path kept when empty), and nothing else changes. Otherwise the table is unchanged |
| PagesUpdate.UpdateTargetsRequestedKey | endpoints/pages/update/main.go:72-141 | over a well-keyed table: 404 iff the key is absent; the write goes under the requested key; no key is added; the table stays well keyed |
| PagesUpdate.UpdateNeverClears | endpoints/pages/update/main.go:165-179 | an update can set an optional field but never clear one |
| PagesUpdate.Handler | endpoints/pages/update/main.go:69-160 | the step-by-step handler yields exactly `Effect`'s response and table |
| SitesUpdate.ScalarsOfEncoded | endpoints/sites/update/main.go:184-198 | unmarshalling a marshalled site overwrites the non-pointer fields, and status only when non-zero |
| SitesUpdate.PointersOfEncoded | endpoints/sites/update/main.go:184-198 | unmarshalling a marshalled site overwrites a pointer field only when the change is non-nil |
| SitesUpdate.MergeSites | endpoints/sites/update/main.go:184-198 | the merge always succeeds; the fields without omitempty come from the changes; status and optional fields follow the omitempty overlay |
| SitesUpdate.EncodeDecodeRoundTrip | endpoints/sites/update/main.go:184-198 | marshalling a site and unmarshalling it into a zero site gives it back |
| SitesUpdate.Effect | endpoints/sites/update/main.go:78-179 | the same status rules and write as the page update, with type "site" and the status overlay |
| SitesUpdate.UpdateTargetsRequestedKey | endpoints/sites/update/main.go:85-160 | over a well-keyed table: 404 iff the key is absent; the write goes under the requested key; no key is added; the table stays well keyed |
| SitesUpdate.UpdateCannotUnpublish | endpoints/sites/update/main.go:184-198 | no request moves a site with a non-zero status back to Unpublished, because omitempty drops a zero status |
| SitesUpdate.Handler | endpoints/sites/update/main.go:78-179 | the step-by-step handler yields exactly `Effect`'s response and table |
| PagesCreate.Effect | endpoints/pages/create/main.go:72-129 | 400 iff the body is malformed, the path is blank or the put fails; 200 iff the put happens and the reply encodes. A put stores, under the new key, the body with new id and version, lower-cased path, type "page" and createdAt = updatedAt = process start. Nothing else changes |
| PagesCreate.RecreateKeepsPath | endpoints/pages/create/main.go:83-90 | the stored path is lower case; creating again from the stored page is accepted and stores the same path |
| PagesCreate.Handler | endpoints/pages/create/main.go:72-129 | the step-by-step handler yields exactly `Effect`'s response and table |
| SitesCreate.Effect | endpoints/sites/create/main.go:80-129 | 400 iff the body is malformed or the put fails. A put stores, under the new key, the body with new id and version, status Unpublished and createdAt = updatedAt = process start; path and type are as sent. Nothing else changes |
| SitesCreate.Handler | endpoints/sites/create/main.go:80-129 | the step-by-step handler yields exactly `Effect`'s response and table |
| PagesGet.Handler | endpoints/pages/get/main.go:69-121 | 500 iff the read or the reply encoding fails; 404 iff the decoded id is empty; a 200 carries the stored item decoded as a page |
| PagesGet.NotFoundIffAbsent | endpoints/pages/get/main.go:104-108 | over a well-keyed table, 404 exactly when the key is absent and 200 exactly when it is present |
| SitesGet.Handler | endpoints/sites/get/main.go:151-215 | 500 iff the read or the reply encoding fails; otherwise 200 with the stored site, or a zero site when the key is absent |
| SitesGet.MissingSiteIsOk | endpoints/sites/get/main.go:178-214 | a missing site answers 200 with an empty id, not 404 |
| PagesList.Handler | endpoints/pages/list/main.go:70-128 | 500 iff building, querying, decoding or encoding fails. Otherwise 200 with exactly the projections of the stored items of type "page" whose path begins with the site id, with type, description, keywords and author empty |
| PagesList.ListedPagesAreStored | endpoints/pages/list/main.go:77-109 | over a well-keyed table, each listed page names a stored page under the site prefix and is its projection |
| PagesDelete.Effect | endpoints/pages/delete/main.go:75-108 | 500 iff DeleteItem fails, and then nothing changes; otherwise 200 with no body, the key is gone and every other item is kept |
| PagesDelete.DeleteIdempotent | endpoints/pages/delete/main.go:82-95 | deleting twice leaves the table and the reply as deleting once |
| PagesDelete.DeleteAbsent | endpoints/pages/delete/main.go:89-107 | deleting an absent key answers 200 and changes nothing |
| PagesDelete.Handler | endpoints/pages/delete/main.go:75-108 | the handler yields exactly `Effect`'s response and table |
| TodoStore.TodoTable.PutItem | functions/create/main.go:44-51 | the item is upserted under its "id" and the table stays keyed by "id" |
| TodoStore.TodoTable.DeleteItem | functions/delete/main.go:22-31 | exactly the id is removed |
| TodosCreate.Effect | functions/create/main.go:26-75 | 404 iff the body is not JSON, MarshalMap fails or the put fails, and then nothing changes. A 200 echoes the raw body. The new id holds the body's members with "id" set to the new id and "createdAt" = "updatedAt" = the stamp; nothing else changes |
| TodosCreate.BodyIdReplaced | functions/create/main.go:37-38 | an "id" sent in the body is replaced by the generated one, and the reply carries none of the stamps |
| TodosCreate.NonObjectStoresOnlyStamps | functions/create/main.go:33-42 | a JSON body that is not an object is stored as the three stamped attributes alone |
| TodosCreate.CreateKeepsOthers | functions/create/main.go:37-51 | with a fresh id, every item already stored is kept |
| TodosCreate.Handler | functions/create/main.go:26-75 | the step-by-step handler yields exactly `Effect`'s response and table |
| TodosDelete.Effect | functions/delete/main.go:21-42 | 500 iff DeleteItem fails, and then nothing changes; otherwise 200 with no body, the id is gone and every other item is kept |
| TodosDelete.DeleteAbsent | functions/delete/main.go:25-41 | deleting an absent id answers 200 and changes nothing |
| TodosDelete.Handler | functions/delete/main.go:21-42 | the handler yields exactly `Effect`'s response and table |
| Scenarios.CreateAbout | endpoints/pages/create/main.go:83-93 | creating `{"path":"about"}` answers 200 with the new id and version, path "about", type "page" and equal timestamps |
| Scenarios.CreateBlankPath | endpoints/pages/create/main.go:83-86 | creating `{"path":"  "}` answers 400 and stores nothing |
| Scenarios.UpdateName | endpoints/pages/update/main.go:112-120 | updating only the name keeps the path, sets the name and advances updatedAt |
| Scenarios.GetMissing | endpoints/pages/get/main.go:104-108 | getting an absent key answers 404 |
| Scenarios.ListAcme | endpoints/pages/list/main.go:77-81 | listing "acme" over acme/home, acme/about and other/home returns exactly the two acme pages |
| Scenarios.ListAcmeIncludesAcmecorp | endpoints/pages/list/main.go:77 | the prefix has no separator, so listing "acme" also returns a page under "acmecorp" |
| RoundTrips.PageCreateThenGet | endpoints/pages/create/main.go:88-110 | a get of a created page answers what the create answered |
| RoundTrips.SiteCreateThenGet | endpoints/sites/create/main.go:88-110 | a get of a created site answers what the create answered |
| RoundTrips.PageUpdateThenGet | endpoints/pages/update/main.go:112-141 | after an update, a get of the same key answers what the update answered |
| RoundTrips.PageDeleteThenGet | endpoints/pages/delete/main.go:82-95 | after a delete, a get of the same key answers 404 |
| RoundTrips.PageCreateThenList | endpoints/pages/create/main.go:88-93 | a created page is listed under every prefix of its lower-cased path |
| RoundTrips.SiteTypedPageIsListed | endpoints/sites/create/main.go:88-93 | site creation keeps the body's type, so a site sent with type "page" is listed among the pages |

## Left out

- `init`, `main` and session set-up in every handler: environment reads, logging and `lambda.Start` are process bootstrap.
- The CORS and content-type headers of the responses, and the Go `error` value returned beside the response.
- The JSON text of the responses: a reply body is the value that would be encoded, not its bytes.
- HTML escaping by `json.Marshal` is not modelled; it has no effect on the decoded values.
- `uuid.New()`, `time.Now()` and the RFC 3339 formatting are parameters; uniqueness of identifiers is not modelled.
- Time values are integers. Only ordering and equality are kept; time zones and monotonic readings are not modelled.
- PagesUpdate.MergePages: always succeeds. In Go, `json.Marshal` of a time.Time fails only for a year outside 0 to 9999, and the model's integer timestamps carry no calendar year. The 400 branch for a failed merge is kept in both handlers but cannot be reached.
- SitesUpdate.MergeSites: always succeeds, for the same reason.
- Invalid UTF-8 in request strings is not modelled, since Dafny strings hold only Unicode scalar values. In Go, `json.Marshal` would replace such bytes with U+FFFD during the merge.
- Case-insensitive matching of JSON member names by `json.Unmarshal` is not modelled: members are matched by their exact tag.
- GoStrings.LowerRune: lower-cases ASCII and Latin-1 capitals only. Go's `unicode.ToLower` covers every cased script.
- The site status is an unbounded integer; Go's `int` range and rejection of out-of-range numbers are not modelled.
- A literal JSON `null` body to page or site create makes the Go handler dereference a nil pointer. The model's parsed body is always a document.
- DynamoDB's own request validation (an empty key string, an empty `begins_with` value) is covered only as the `Fault` of that call.
- Query paging, result order and duplicates: the page list is a set. Go's slice order and a truncated page of results are not modelled.
- The read-then-write race between concurrent updates is not modelled: each invocation is atomic.
- functions/list/main.go is not part of this model. It passes a whole-table Scan through untyped JSON with no logic of its own.
- In functions/create/main.go, the UnmarshalMap of the stored item into an untyped value is not modelled. Its result is discarded, and it cannot fail on a map just built from JSON.
- The store is assumed to keep every field of a struct exactly as it was put. In aws-sdk-go v1, `dynamodbattribute.MarshalMap` writes an empty string as NULL, and an `omitempty` field then disappears. So an optional field sent as `""` is stored as absent; the model stores `Some("")`.
- The store is modelled as strongly consistent: every read sees every write before it. The program's GetItem calls do not set `ConsistentRead` (endpoints/pages/get/main.go:83, endpoints/sites/get/main.go:183, endpoints/pages/update/main.go:82, endpoints/sites/update/main.go:95), so DynamoDB reads them eventually consistently. The list's Query on the global secondary index `type-path-index` is always eventually consistent. An update can therefore also merge over an out-of-date original.
- RoundTrips.PageCreateThenGet: relies on both store assumptions. For an optional field sent as `""`, the program's get answers without the field. Shortly after the create, an eventually consistent GetItem may answer 404.
- RoundTrips.SiteCreateThenGet: relies on both store assumptions. For an optional field sent as `""`, the program's get answers without the field. Shortly after the create, the get may answer a zero site.
- RoundTrips.PageUpdateThenGet: relies on both store assumptions. For an optional field sent as `""`, the program's get answers without the field. The update's own read, and the later get, may see an older version of the page.
- RoundTrips.PageDeleteThenGet: assumes the get sees the delete. With DynamoDB's default eventually consistent GetItem, the program may still answer 200 shortly after.
- RoundTrips.PageCreateThenList: assumes the index query sees the create. Queries on `type-path-index` are eventually consistent, so a just-created page can be missing from the list for a while.
- RoundTrips.SiteTypedPageIsListed: assumes the index query sees the create, as for RoundTrips.PageCreateThenList.
- PagesUpdate.UpdateNeverClears: relies on that assumption; in the program, `{"name":""}` clears the stored name.
- endpoints/sites/create/main_test.go is not part of this model. Its expectation of 400 for an incomplete site is not what the handler does.
