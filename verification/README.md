# Carbon registry core, modelled in Dafny

This project models the core logic of the carbon registry. The model is a set of pure functions over immutable data, plus a few methods with loops. It covers four parts:

- **Project service** of the national API. This covers:
  - building the carbon-credit calculator request for a project's sub-sector;
  - the creation protocol: a project id from the `PROJECT` counter, a block of ITMO credits (internationally transferred mitigation outcomes) from the `ITMO` counter, the constants-version tag, the serial number and the initial status;
  - the custom-constants update and the lookup of the latest constants;
  - the offset arithmetic of paged queries.
- **Programme charts** of the analytics API. The charted time range is split into equal, contiguous, half-open buckets. The fetched programmes are counted per bucket, by stage and by sector.
- **User-management page** of the web front end. This covers:
  - the `filterOr` / `filterAnd` clause builders and the query body;
  - the state changes made by the filter, search and paging handlers;
  - removing a row after a delete;
  - the company role shown for a row.
- **Add-user form** validators. The name validator, and the e-mail validator with its pattern written out as a hand-made recogniser.

Modules:

| module | file | what it holds |
|---|---|---|
| `Optional` | optional.dfy | `Option` and `Result` |
| `JsValues` | js_values.dfy | JavaScript values as far as the front end needs them: `null`, `undefined`, strings, truthiness, `String.prototype.trim` and its white-space set |
| `Decimal` | decimal.dfy | decimal digit strings, zero padding and parsing |
| `Counter` | counter.dfy | the two registry counters |
| `ProjectService` | project_service.dfy | credit requests, creation, constants, paging |
| `AnalyticsApi` | analytics.dfy | bucket planning and the stage and sector charts |
| `UserManagement` | user_management.dfy | query filters, handlers, delete, company role |
| `EmailPattern` | email_pattern.dfy | the e-mail pattern as a language, and a recogniser for it |
| `AddUser` | add_user.dfy | the name and e-mail validators |

Collaborators whose code is not part of this model are parameters, each with a stated assumption.

- **Counter service.** `incrementCount(type, padding, n)` advances the counter by `n` and returns the new value, zero-padded to `padding` digits. When `n` is omitted, as for the project id, it is taken to be 1. `getCount` returns the current value. Counters are whole numbers, and they are a value threaded through `ProjectService.Create`.
- **Calculator, serial numbers and year.** `calculateCredit`, `generateSerialNumber` and the year of the start time are fields of the `Collaborators` record. The calculator is assumed to return a whole, non-negative number of credits, or `None` for a failed calculation. Nothing is assumed about the serial-number generator or the year.
- **Constants repository.** It is a sequence of rows. A saved row gets the next version of its sub-sector.
- **Fetched programmes.** The analytics charts take the list of fetched programmes as a parameter.

The credit block of a new project: `startBlock` is the ITMO count read plus 1, and `endBlock` is the value the increment by the credit returns (project.service.ts:71,79).

## Model

| member | source | states |
|---|---|---|
| ProjectService.GetCreditRequest | lambda/services/src/national-api/project/project.service.ts:40-63 | AGRICULTURE gives an agriculture request and SOLAR a solar request, each exactly when its properties are present. Any other sub-sector is an "unknown sub sector" error carrying its name. AGRICULTURE or SOLAR without its properties object is a missing-properties error, raised before the calculator runs. The agriculture duration is `endTime - startTime` in unit `"s"`. Land area and unit, and the solar building type and energy generation, are copied from the project. Stored constants are attached exactly when a constants row exists. |
| ProjectService.GetLatestConstant | lambda/services/src/national-api/project/project.service.ts:136-141 | Nothing is returned exactly when the sub-sector has no stored row. Otherwise the result is a stored row of that sub-sector whose version is at least that of every other row of it. |
| ProjectService.MergeDefined | lambda/services/src/national-api/project/project.service.ts:105-123 | The merged config keeps every default field a received field does not override. Every received field that is neither `undefined` nor `null` overrides or adds its key. No other key appears. |
| ProjectService.UpdateCustomConstants | lambda/services/src/national-api/project/project.service.ts:104-134 | The update is refused with "Not difference in the config from the previous version" exactly when a latest row exists whose data equals the merged config. Otherwise exactly one row of that sub-sector is appended, with the merged config. The new row becomes the latest, and its version is above every earlier version of the sub-sector. |
| ProjectService.RepeatedUpdateRejected | lambda/services/src/national-api/project/project.service.ts:125-132 | Sending the same update right after a saved one is refused, and the first saved row remains the latest. |
| ProjectService.ConstantVersionTag | lambda/services/src/national-api/project/project.service.ts:78 | The tag is "default" exactly when no constants row was used. Otherwise it is `String(version)`: the shortest decimal form of the row's version, which reads back as that version. |
| ProjectService.Create | lambda/services/src/national-api/project/project.service.ts:65-83 | Every attempt consumes one project id, and a failed attempt leaves the ITMO counter where it was. An unknown sub-sector fails with that error. Creation succeeds exactly when the request builds and the calculator gives a credit. A calculation failure is reported exactly when the request was built and the calculator gave nothing. Any other failure is the request's own error. On success: <br>- the id has at least 4 digits and reads back as the new project count; <br>- `startBlock` is the ITMO count read plus 1; <br>- `endBlock` and the new ITMO counter are that count plus the credit; <br>- the serial number is the generator applied to country, sectoral scope, id, year, `startBlock` and `endBlock`; <br>- the version tag is `String(version)` of the constants row used, or "default"; <br>- the status is REGISTERED. |
| ProjectService.Issue | lambda/services/src/national-api/project/project.service.ts:78-81 | Once the credit is known, the ITMO counter advances by it, the PROJECT counter is untouched, and the block ends at the old count plus the credit. |
| ProjectService.SequentialCreationsDoNotOverlap | lambda/services/src/national-api/project/project.service.ts:69-79 | Two successful creations in a row get different project ids, and the second credit block starts right after the first one ends. |
| ProjectService.Skip | lambda/services/src/national-api/project/project.service.ts:86 | The offset `size * page - size` is `(page - 1) * size`, and it is never negative for a page of at least 1. |
| ProjectService.QueryPage | lambda/services/src/national-api/project/project.service.ts:86-90 | A page holds at most `size` rows. It is the slice that starts at the offset and holds up to `size` rows, and it is empty past the end. |
| ProjectService.PagesTileRows | lambda/services/src/national-api/project/project.service.ts:86-90 | Pages 1 to p, read in order, are exactly the first `p * size` rows: no row is skipped or repeated. |
| Counter.IncrementCount | lambda/services/src/national-api/project/project.service.ts:69-79 | The chosen counter advances by the increment and the other counter is unchanged. The returned text has at least `padding` digits and reads back as the new value. |
| AnalyticsApi.CeilDiv | lambda/services/src/analytics-api/analytics.api.service.ts:64-75 | The result is the least whole number of divisor-sized units covering the dividend. |
| AnalyticsApi.BucketPlan | lambda/services/src/analytics-api/analytics.api.service.ts:64-75 | There is no bucket exactly when the span is at most one day. The width is 30 days exactly when the span is over 31 days, a week exactly when it is over 7 days and at most 31, and a day otherwise. The count is at least 1 and is the fewest buckets of that width covering the span. |
| AnalyticsApi.ChartRangePlan | lambda/services/src/analytics-api/analytics.api.service.ts:45-48 | Over the fixed chart range the buckets are 30 days wide and there are 13 of them. |
| AnalyticsApi.BucketsAreContiguous | lambda/services/src/analytics-api/analytics.api.service.ts:82-125 | Each bucket starts where the previous one ends. |
| AnalyticsApi.BucketMembership | lambda/services/src/analytics-api/analytics.api.service.ts:94-97 | A time lies in bucket k exactly when its distance from the start, in whole widths, is k, so it lies in at most one bucket. |
| AnalyticsApi.TallySplit | lambda/services/src/analytics-api/analytics.api.service.ts:94-97 | Counting over `[a, c)` equals counting over `[a, b)` plus counting over `[b, c)`. |
| AnalyticsApi.TallyBound | lambda/services/src/analytics-api/analytics.api.service.ts:94-100 | A bucket never counts more programmes than were fetched, and counts them all when all lie in its range. |
| AnalyticsApi.BucketsAddUp | lambda/services/src/analytics-api/analytics.api.service.ts:82-126 | The counts of consecutive buckets sum to the count over their union. |
| AnalyticsApi.ProgrammeTotal | lambda/services/src/analytics-api/analytics.api.service.ts:82-126 | The programme series sums to at most the number fetched, and to exactly that number when every programme lies in the charted range. |
| AnalyticsApi.CountStageBucket | lambda/services/src/analytics-api/analytics.api.service.ts:89-117 | A bucket's programme, awaiting-authorization, issued and rejected counts are the numbers of fetched programmes in the bucket overall and at each stage. Stages are matched in order, so the three stage counts sum to at most the programme count. |
| AnalyticsApi.StageChart | lambda/services/src/analytics-api/analytics.api.service.ts:64-126 | An empty fetch or a span of at most one day leaves all four series empty. Otherwise each series has one entry per bucket, and entry k is the count of bucket k. Per bucket the stage counts sum to at most the programme count, and the programme series sums as `ProgrammeTotal` states. |
| AnalyticsApi.BumpSum | lambda/services/src/analytics-api/analytics.api.service.ts:212-221 | A programme raises the total of the ten sector counters by at most one, and by exactly one when its sector is listed. |
| AnalyticsApi.CountSectorBucket | lambda/services/src/analytics-api/analytics.api.service.ts:198-222 | There are ten sector counts per bucket, and each is the number of fetched programmes of that sector in the bucket. They sum to at most the bucket's programme count. |
| AnalyticsApi.SectorChart | lambda/services/src/analytics-api/analytics.api.service.ts:153-238 | An empty fetch or a span of at most one day leaves all eleven series empty. Otherwise every series has one entry per bucket. Entry k of sector j is the count of that sector in bucket k. The sector counts of a bucket sum to at most its programme count, and the programme series sums as `ProgrammeTotal` states. |
| UserManagement.FilterOr | web/src/Pages/UserManagement/userManagement.tsx:296-313 | There is a filter exactly when a search is present and both filters are 'All'. It is then the single `=` clause on the search key with the submitted text, and `filterAnd` is undefined. |
| UserManagement.FilterAnd | web/src/Pages/UserManagement/userManagement.tsx:315-409 | There is a filter exactly when the role or organisation-type filter is not 'All'. Every clause is `=`. It has one clause for a present search and one for each filter that is not 'All'. The search clause comes first whenever a search is present. |
| UserManagement.FilterAndClauses | web/src/Pages/UserManagement/userManagement.tsx:315-409 | When the search key is not itself `role` or `companyRole`, the role clause, the company-role clause and the search clause each appear exactly when their filter is not 'All' or the search is present. |
| UserManagement.GetAllUserParams | web/src/Pages/UserManagement/userManagement.tsx:411-418 | The query carries the current page and size and the filters `filterOr()` and `filterAnd()` build, so never both. It carries neither exactly when no search is present and both filters are 'All'. |
| UserManagement.InitialQuery | web/src/Pages/UserManagement/userManagement.tsx:72-79 | On opening, the page queries page 1 of size 10 with neither filter. |
| UserManagement.Handle | web/src/Pages/UserManagement/userManagement.tsx:451-563 | Choosing a role or an organisation type, or submitting a search, goes back to page 1. Choosing the search key or typing keeps the page. Each handler sets only its own fields, and every other field is unchanged. Clearing the search box clears the submitted search; typing text only stages it. |
| UserManagement.SubmittedSearchQueriesFirstPage | web/src/Pages/UserManagement/userManagement.tsx:526-563 | Typing a text and submitting it, with both filters on 'All', queries page 1 with one `=` clause on the search key and no `filterAnd`. |
| UserManagement.FindIndex | web/src/Pages/UserManagement/userManagement.tsx:179 | The result is -1 when no row has the e-mail. Otherwise it is the first row that has it. |
| UserManagement.DeleteUser | web/src/Pages/UserManagement/userManagement.tsx:171-183 | A failed delete, or one where no row has the e-mail, leaves the table unchanged. A successful delete removes exactly one row, the first one with that e-mail, and keeps the rows before and after it in order. Every other e-mail keeps its count. |
| UserManagement.CompanyRole | web/src/Pages/UserManagement/userManagement.tsx:123-127 | The role is the company's role when truthy, else the row's own role when truthy, else null. |
| UserManagement.CompanyRoleBadge | web/src/Pages/UserManagement/userManagement.tsx:122-140 | Government and Certifier get their own icons and every other role the developer icon. The caption is "Developer" for ProgrammeDeveloper, the role itself for every other role, and empty for no role. |
| JsValues.Trim | web/src/Pages/AddUser/addUser.tsx:132 | The result is the part of the text between its leading and trailing white space. It is empty exactly when the text is all white space, and otherwise neither starts nor ends with white space. |
| JsValues.TrimIgnoresSurroundingWhitespace | web/src/Pages/AddUser/addUser.tsx:132 | White space around a text does not change its trimmed form. |
| EmailPattern.IsEmail | web/src/Pages/AddUser/addUser.tsx:133-134 | Splitting at the last `@` accepts exactly the texts that some `@` splits into a local part and a domain of the pattern. |
| EmailPattern.DotAtomShape | web/src/Pages/AddUser/addUser.tsx:134 | An unquoted local part matches exactly when it is non-empty, holds only atom characters and dots, and has no dot at either end and no two dots in a row. |
| EmailPattern.DomainHasNoAt | web/src/Pages/AddUser/addUser.tsx:134 | No accepted domain holds an `@`. |
| AddUser.ValidateName | web/src/Pages/AddUser/addUser.tsx:99-107 | A name is accepted exactly when it is text that does not trim to nothing. Any rejection says "Please input the company name!". |
| AddUser.ValidateEmail | web/src/Pages/AddUser/addUser.tsx:123-137 | "Please input the E-mail!" comes exactly for null, undefined or all-white-space values. Acceptance is exactly for the other texts whose trimmed form matches the pattern. Every other value gets "Please input a valid E-mail!". |
| AddUser.EmailIgnoresSurroundingWhitespace | web/src/Pages/AddUser/addUser.tsx:132-136 | White space around an address never changes the verdict. |
| AddUser.ValidEmailShape | web/src/Pages/AddUser/addUser.tsx:134 | An accepted address splits at its last `@` into a non-empty local part and a domain, and an unquoted local part has no leading, trailing or doubled dot. |

## Left out

- Ledger persistence: `ProjectService.Create` returns the project it would hand to `createProject`. The ledger's own checks are not modelled. Neither are `updateProjectStatus` and `getProjectEvents`, which only forward to the ledger.
- The internals of `calculateCredit`, `generateSerialNumber` and the counter service. They are parameters or stated assumptions, and nothing is claimed about serial-number uniqueness.
- ProjectService.Create: a fractional or negative credit is not modelled. The calculator's result is taken to be a whole, non-negative number, and the counter's reply is taken to parse back exactly. The block bounds and the new ITMO count are promised only under that assumption.
- ProjectService.SequentialCreationsDoNotOverlap: the back-to-back credit blocks rest on the same assumption. With a fractional credit, the next `startBlock` would not be `endBlock + 1`.
- The race between reading the ITMO counter and advancing it. `create` is modelled as one sequential step.
- The year of the start time, which depends on the time zone. It is a parameter.
- `toProject`'s plain-object conversion. The project keeps the received details as they are.
- ProjectService.UpdateCustomConstants: the comparison by `JSON.stringify` is modelled as equality of the configs, so key order is not modelled. The saved version number is assumed to be one above the latest of the sub-sector, because the constants entity's versioning is not part of this model.
- ProjectService.QueryPage: pages below 1 are not modelled, because negative offsets go to the database layer, which is not part of this model. For a size of 0 the model returns an empty page. What the query builder does with `take(0)` is not part of this model.
- The query builder's `where` clause, the ability conditions and `parseMongoQueryToSQL`, which are foreign helpers.
- `programmesStaticDetails`, the dispatch over the requested chart types, and the database fetch of programmes. The fetched list is a parameter.
- AnalyticsApi.BucketPlan: the floating-point division chain before `Math.ceil` is modelled as exact integer ceiling division.
- All rendering: icons, colours, dropdown visibility, the success and error messages shown after a delete, the loading flags and the document mouse listener. The company-role icon and caption are kept.
- The `getRoleComponent` icon choice, which is rendering only.
- The HTTP calls (`post`, `del`). A delete's outcome is a boolean parameter.
- The add-user form's submit handler, the antd `required` rules and the phone number field and its formatting.
- The registry dashboard page, which passes its props to a library component.
