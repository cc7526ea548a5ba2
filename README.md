# CIP inspection app — a verified model of its core logic

CIP is a React Native / Expo app for chimney and building inspectors, backed by a hosted
Postgres service and a small edge function that proxies calls to Housecall Pro (HCP), a
field-service scheduling product. This project models, in Dafny, the logic of the app that
decides things rather than draws them:

- how checklist templates are flattened into ordered inspection items, and the built-in
  chimney checklist;
- the company's table of enabled templates, meant to hold one default per company, which a failed clearing update can break;
- how inspection rows, item rows and update patches are built;
- the inspection report's structure: measurement text, status badges and fallbacks;
- subscription tiers and the plan table;
- sanitising of the feet/inches measurement input;
- the HCP client: headers, endpoints, query strings, error precedence, the missing-key
  short-circuit and the connection test;
- the HCP proxy's request handling: CORS, status codes, header choice, body forwarding;
- the PDF file name and the report pipeline's error composition;
- the screens' and contexts' state machines: the templates settings screen, the template
  selector, the company context, the create-inspection form, the reset-password screen and
  the HCP integration screen.

Backend queries, `fetch`, the clock, the platform (`Platform.OS`), the PDF rasteriser and
the user's answers to dialogs are parameters: each operation receives the outcome it would
have awaited. A table that the code updates in place is a `seq` field of a class, and each
update is a function on that `seq` with lemmas about it. Strings are `seq<char>`, with JavaScript's
`trim`, `parseInt`, `toString`, `encodeURIComponent` and `URLSearchParams` encoding written
out in the shared module `Text`.

Modules: `Wrappers` (Option, `ApiResponse`, `DbResponse`, platform), `Text` (JavaScript
string semantics), `Types` (the records of `src/types/index.ts`), `Http` (headers, query
strings, status lines), and one module per source file named below.

Where the code and its documentation disagree, the model follows the code. Three cases:
`setDefaultTemplate` is not atomic; `getScheduledJobs` drops its paging arguments; and
an error body holding only `error` is reported differently by the three HCP error chains.
Each is stated as a lemma.

## Model

| member | source | states |
|---|---|---|
| ChecklistTemplateService.FlattenTemplateCategories | src/services/checklist-template.service.ts:178-201 | The nested loops return exactly the reference flattening: categories in declaration order, then the items of each in order. |
| ChecklistTemplateService.FlattenLength | src/services/checklist-template.service.ts:178-201 | The flattened list has exactly one entry per item over all categories (so `getTotalItems` equals its length). |
| ChecklistTemplateService.FlattenAt | src/services/checklist-template.service.ts:181-195 | Item `j` of category `i` lands at the position after all earlier categories' items plus `j`. It carries its category's name, and a bare string becomes `{name, item_type: 'status'}` with no description. |
| ChecklistTemplateService.Locate | src/services/checklist-template.service.ts:181-198 | Every position of the flattened list comes from some item of some category, so nothing is invented, dropped or reordered. |
| ChecklistTemplateService.FlattenCategoryAt | src/services/checklist-template.service.ts:182-196 | Within a category the entries follow the items one for one. |
| ChecklistTemplateService.PresentTemplates | src/services/checklist-template.service.ts:78-80 | `map(item => item.template).filter(Boolean)` keeps exactly the templates of join rows that have one. The result has one entry per row minus the rows without a template. |
| ChecklistTemplateService.PresentTemplatesInOrder | src/services/checklist-template.service.ts:78-80 | The filter maps a concatenation of rows to the concatenation of their templates. A row with a template gives that template, and a row without one gives nothing. So the order of the rows is kept. |
| ChecklistTemplateService.PresentTemplatesCount | src/services/checklist-template.service.ts:78-80 | A template appears in the result as many times as join rows carry it. |
| ChecklistTemplateService.GetAvailableTemplates | src/services/checklist-template.service.ts:67-83 | A query error is returned as its message. No data gives `[]` rather than null. Otherwise the result is the present-template filter of the join rows, so it holds exactly the joined templates. |
| ChecklistTemplateService.GetDefaultTemplate | src/services/checklist-template.service.ts:86-99 | An error is returned exactly when its code is not `PGRST116`, as its message. `PGRST116` (no rows) is success with a null template. |
| ChecklistTemplateService.UnsetDefaults | src/services/checklist-template.service.ts:108-112 | Clearing defaults keeps every row and key and clears `is_default` exactly on the company's rows. |
| ChecklistTemplateService.UnsetDefaultsKeepsInvariants | src/services/checklist-template.service.ts:108-112 | Clearing defaults keeps the table's unique key, and never creates a second default for a company. |
| ChecklistTemplateService.Upsert | src/services/checklist-template.service.ts:115-123 | The upsert on `(company_id, template_id)` replaces the row with that key in place, or appends the row when there is none. |
| ChecklistTemplateService.UpsertKeepsKeysUnique | src/services/checklist-template.service.ts:115-123 | The upsert never makes a second row for a key. The new row is present, is the only row with its key, and every other row was there before. |
| ChecklistTemplateService.DeleteRow | src/services/checklist-template.service.ts:139-143 | Deleting removes exactly the `(company, template)` rows. All other rows, of any company, remain. |
| ChecklistTemplateService.DeleteKeepsInvariants | src/services/checklist-template.service.ts:139-143 | Deleting keeps the unique key, and never creates a second default for a company. |
| ChecklistTemplateService.MarkDefault | src/services/checklist-template.service.ts:164-168 | Marking sets `is_default` on exactly the `(company, template)` row and changes no key. |
| ChecklistTemplateService.EnableAsDefaultLeavesOneDefault | src/services/checklist-template.service.ts:107-125 | When the clear succeeds, enabling as default leaves the keys unique and keeps one default per company. Among the company's rows, exactly the enabled template's row is default. |
| ChecklistTemplateService.EnablePlainKeepsOneDefault | src/services/checklist-template.service.ts:115-125 | Enabling without the default flag keeps the keys unique and never adds a default. |
| ChecklistTemplateService.EnableAsDefaultWithoutClear | src/services/checklist-template.service.ts:107-125 | The clear's result is never read. When it fails, the default upsert still runs: it stores the new default row and keeps every other default row. The keys stay unique. |
| ChecklistTemplateService.FailedClearLeavesTwoDefaults | src/services/checklist-template.service.ts:107-168 | An instance: company `c` has default `a`. Enabling `b` as default, or marking `b`, after a failed clear leaves `c` with two defaults. |
| ChecklistTemplateService.MarkDefaultKeepsKeysUnique | src/services/checklist-template.service.ts:164-168 | Marking a row as default changes no key, so the keys stay unique. |
| ChecklistTemplateService.SetDefaultLeavesOnlyThatDefault | src/services/checklist-template.service.ts:157-168 | After `setDefaultTemplate`, the company's only default row is `templateId`'s, or there is none if that template has no row. Every other company's rows are untouched and the row count is unchanged. |
| ChecklistTemplateService.TemplateTable.EnableTemplate | src/services/checklist-template.service.ts:102-132 | The existing defaults are cleared only when `isDefault` holds and the clear succeeds. The clear's error changes nothing else. The upsert then applies to those rows. An upsert error leaves only the clearing done and is returned. The keys stay unique. When the table had one default per company and no clear failed, it still does. After a full success, the enabled row is the company's only default. |
| ChecklistTemplateService.TemplateTable.DisableTemplate | src/services/checklist-template.service.ts:135-150 | The table loses exactly the `(company, template)` row unless the delete failed. The error is returned. Unique keys and one default per company are kept. |
| ChecklistTemplateService.TemplateTable.SetDefaultTemplate | src/services/checklist-template.service.ts:153-175 | The clearing, when it succeeds, then the mark. A failed second update leaves a cleared company with no default, and its error is returned. A failed clear with a successful mark leaves the old default beside the new one. That error is never reported. When both succeed, the company's only default is `templateId`'s row, and one default per company is kept. |
| ChecklistData.FlattenChecklist | src/data/checklistTemplate.ts:86-99 | The nested loops return exactly the reference list of `(category, name)` entries in category order, then item order. |
| ChecklistData.EntriesLength | src/data/checklistTemplate.ts:86-99 | The output length is the sum of `items.length` over the categories. |
| ChecklistData.EntryAt | src/data/checklistTemplate.ts:89-96 | Item `j` of category `i` is entry number `(items before category i) + j` and carries its category's name. |
| ChecklistData.AgreesWithTemplateFlattening | src/data/checklistTemplate.ts:86-99 | On string-only categories, `flattenChecklist` agrees with `flattenTemplateCategories` on category and name. |
| ChecklistData.CategoryAgrees | src/data/checklistTemplate.ts:90-95 | For one category of bare names, the two flattenings agree entry for entry. |
| ChecklistData.BareItems | src/data/checklistTemplate.ts:6 | An item-name list read as template items is bare items, one for one. |
| ChecklistData.AsTemplateCategories | src/data/checklistTemplate.ts:4-7 | A data category read as a template category keeps its name and its items one for one. |
| ChecklistData.Project | src/data/checklistTemplate.ts:87 | Dropping `item_type` and `description` keeps each entry's category and name, in order. |
| ChecklistData.DefaultChecklistSize | src/data/checklistTemplate.ts:9-83 | The built-in checklist has 8 categories and 33 items, flattened to 33 rows. |
| ChecklistData.DefaultPrefixCounts | src/data/checklistTemplate.ts:9-83 | The built-in categories start at rows 0, 8, 13, 25 and 30 of the flattened list, and it ends at 33. |
| ChecklistData.DefaultChecklistEnds | src/data/checklistTemplate.ts:10-82 | The first row is `{Chimney Cap, Cap condition}` and the last `{Cleanout, Accessible}`. |
| ChecklistData.DefaultChecklistKeepsDuplicates | src/data/checklistTemplate.ts:9-83 | Names repeated across categories are kept: `Proper sizing` is at rows 3 and 11 (Chimney Cap, Flue) and `Mortar joints` at rows 14 and 26 (Firebox, Exterior Masonry). |
| InspectionService.NewInspectionRow | src/services/inspection.service.ts:25-32 | The inserted row always has status `draft` and the given company and inspector ids. It carries every field of `data` unchanged, including the Housecall Pro job id, job number and assigned employee. It takes the backend's id and creation time, and has no completion time, sync time or notes. |
| InspectionService.StatusPatch | src/services/inspection.service.ts:156-160 | Applied to any row, the status patch sets `status`. It sets `completed_date` to the clock only for `completed`, and otherwise leaves it as it was. |
| InspectionService.BuildStatusPatch | src/services/inspection.service.ts:152-160 | The built patch is the status patch and holds a completion date exactly when the status is `completed`. |
| InspectionService.ItemStatusPatch | src/services/inspection.service.ts:244-249 | `updateItemStatus`'s patch changes an item's `status` and nothing else. |
| InspectionService.MeasurementPatch | src/services/inspection.service.ts:251-260 | `updateItemMeasurement`'s patch sets the value and forces `satisfactory`, whatever the prior status, and changes nothing else. |
| InspectionService.FindInspection | src/services/inspection.service.ts:138-139 | Finding by id gives a row with that id, and gives none exactly when no row has it. |
| InspectionService.PatchInspections | src/services/inspection.service.ts:135-139 | `update(...).eq('id', id)` patches exactly the rows with that id and keeps the others and the order. |
| InspectionService.FindItem | src/services/inspection.service.ts:220-221 | Finding an item by id gives an item with that id, and none exactly when there is no such item. |
| InspectionService.PatchItems | src/services/inspection.service.ts:217-221 | The item update patches exactly the items with that id. |
| InspectionService.FindAfterPatch | src/services/inspection.service.ts:135-149 | Reading a row back after the update gives the patched original, and nothing if there was no such row. |
| InspectionService.BulkRows | src/services/inspection.service.ts:266-274 | Each input gets one row with `sort_order` equal to its index, status `pending`, type defaulting to `status`, and a description or else null (an empty one becomes null). |
| InspectionService.ItemsOf | src/services/inspection.service.ts:186-189 | The lookup selects exactly the inspection's items. |
| InspectionService.MaxSortOrder | src/services/inspection.service.ts:190-191 | `order(desc).limit(1)` picks a sort order that is present and at least every other one. |
| InspectionService.NextSortOrder | src/services/inspection.service.ts:185-193 | The new item's order is 0 when the lookup failed or found nothing. Otherwise it is one more than the largest, so it exceeds every existing order. |
| InspectionService.ItemsOfAppend | src/services/inspection.service.ts:186-189 | Appending a row extends the inspection's selection by that row exactly when it belongs to the inspection. |
| InspectionService.NextSortOrderAfterAdd | src/services/inspection.service.ts:185-201 | After adding an item at the next order, the next order is one more. Adding to another inspection does not change it. |
| InspectionService.NextSortOrderAfterBulk | src/services/inspection.service.ts:262-279 | After a bulk insert numbered 0..n-1 into an inspection with no items, the next added item gets order n. |
| InspectionService.BulkRowsNumbered | src/services/inspection.service.ts:266-274 | The stored bulk rows belong to the inspection and are numbered by their index. |
| InspectionService.ListInspectionsQuery | src/services/inspection.service.ts:87-104 | The status and inspector filters and the limit apply only when truthy. With a truthy offset, rows `[offset, offset + (limit \|\| 20) - 1]` are requested, that is `limit \|\| 20` rows. An offset of 0 adds no range. |
| InspectionService.HcpJobMatches | src/services/inspection.service.ts:47-50 | `eq('hcp_job_id', …)` selects only rows carrying that job id, and never more rows than the table holds. |
| InspectionService.NoHcpJobMatches | src/services/inspection.service.ts:47-50 | There is no match exactly when no row carries the job id. |
| InspectionService.OnlyHcpJobMatch | src/services/inspection.service.ts:47-50 | When one row alone carries the job id, the matches are exactly that row. |
| InspectionService.SeveralHcpJobMatches | src/services/inspection.service.ts:47-50 | Two rows carrying the job id give at least two matches. |
| InspectionService.InspectionStore.CreateInspection | src/services/inspection.service.ts:11-41 | On success one `draft` row is appended and returned. On an insert error the table is unchanged and the message is returned. |
| InspectionService.InspectionStore.GetInspectionByHcpJobId | src/services/inspection.service.ts:44-58 | A query error is returned. `maybeSingle` gives null data with no error when no row matches, the row when exactly one matches, and its multiple-rows error when two or more match. |
| InspectionService.InspectionStore.UpdateInspection | src/services/inspection.service.ts:131-150 | The table is patched unless the update failed. Zero matched rows give `Inspection not found or access denied`. Otherwise the patched row is returned. |
| InspectionService.InspectionStore.UpdateInspectionStatus | src/services/inspection.service.ts:152-163 | The full result is stated: the update error, or `Inspection not found or access denied` when no row has the id. Otherwise it is the found row patched. A row is returned exactly when the update succeeded and found the inspection. It has the new status, with the completion date stamped only for `completed`; otherwise the old date is kept. |
| InspectionService.InspectionStore.AddInspectionItem | src/services/inspection.service.ts:176-211 | The inserted item has the next sort order, status defaulting to `pending`, and the given fields. The fields the insert does not send take their column defaults: no description, the `status` type, no value and no photos. It is appended unless the insert failed. |
| InspectionService.InspectionStore.BulkAddInspectionItems | src/services/inspection.service.ts:262-286 | One stored item per input, in order, built from the mapped rows. All are appended, or none on an error. |
| InspectionService.InspectionStore.UpdateInspectionItem | src/services/inspection.service.ts:213-232 | The items are patched unless the update failed. Zero matched rows give `Item not found or access denied`. |
| InspectionService.InspectionStore.UpdateItemStatus | src/services/inspection.service.ts:244-249 | The full result is stated: the update error, or `Item not found or access denied`. Otherwise it is the old item with only its status changed. The table is patched unless the update failed. |
| InspectionService.InspectionStore.UpdateItemMeasurement | src/services/inspection.service.ts:251-260 | The full result is stated: the update error, or `Item not found or access denied`. Otherwise it is the old item with exactly the value and `satisfactory` changed. Every item with that id now holds both. |
| ReportTemplate.StatusConfigFor | src/utils/reportTemplate.ts:45-56 | `STATUS_CONFIG[status] \|\| STATUS_CONFIG.pending`: a status outside the five keys gets the `pending` badge, unless it is a key inherited from `Object.prototype`. Such a key gives a built-in whose label and colours print as `undefined`. |
| ReportTemplate.StatusBadgesDistinct | src/utils/reportTemplate.ts:14-20 | The five statuses have five different labels and five different colours. Only `pending` itself maps to the pending badge. |
| ReportTemplate.FormatMeasurement | src/utils/reportTemplate.ts:22-28 | The loop over the parts computes the reference text of the value. |
| ReportTemplate.MeasurementTextMarks | src/utils/reportTemplate.ts:22-28 | The text has a feet mark exactly when feet are non-zero and an inches mark exactly when inches are non-zero. It is `-` exactly for a null value or both parts zero. |
| ReportTemplate.MeasurementTextReadsBack | src/utils/reportTemplate.ts:25-26 | The leading number of the text is the feet when they are non-zero, and otherwise the inches (the text reads back with `parseInt`). |
| ReportTemplate.IntToStringHasNoMarks | src/utils/reportTemplate.ts:25-26 | A formatted number contains no `'`, `"` or space, so the marks and the separator come only from the format. |
| ReportTemplate.FormatDate | src/utils/reportTemplate.ts:30-37 | A missing or empty date gives `N/A`. Any other date is passed to the locale formatter. |
| ReportTemplate.PhotoStrip | src/utils/reportTemplate.ts:77-95 | The photo block is present exactly when the item has photos. It has one image per photo in stored order, with alt text the caption or else the item name. |
| ReportTemplate.RenderItem | src/utils/reportTemplate.ts:72-131 | An item row shows the measurement text exactly when the type is `measurement`, and otherwise the status badge. It has a bottom border exactly when it is not the last row, shows the description only when it is non-empty, and carries the photo block. |
| ReportTemplate.RenderSection | src/utils/reportTemplate.ts:71-159 | One section per category, headed by its name, with one row per item in order and only the last row unbordered. |
| ReportTemplate.CompanyLine | src/utils/reportTemplate.ts:335 | The footer line starts with the company name and is just the name when there is no phone and no e-mail. |
| ReportTemplate.GenerateReport | src/utils/reportTemplate.ts:58-343 | The logo is shown exactly when the company has a `logo_url`. The title is the company name or `Inspection Report`. The report number is the first 8 characters of the id, upper-cased. The header date is the scheduled date, else the creation date. Address, client and inspector fall back as written (inspector name, else assigned employee, else `N/A`). There is one section per category in input order. The notes block shows exactly when the notes are non-empty. |
| ReportTemplate.ReportNumberShape | src/utils/reportTemplate.ts:215 | The report number is at most 8 characters, each the upper-case form of the id's character. A lower-case hex uuid gives only digits, `A`–`F` and `-`. |
| ReportTemplate.EveryItemRendered | src/utils/reportTemplate.ts:71-74 | Every item of every category is rendered once, under its category, at its position, with a border exactly when another item follows. |
| SubscriptionService.PlanForTier | src/services/subscription.service.ts:221-223 | `getPlanForTier(t).tier == t` for every tier. |
| SubscriptionService.TierForMemberCount | src/services/subscription.service.ts:225-230 | The result is enterprise exactly for counts of 20 or more, pro for 10–19, plus for 2–9, and basic for anything below 2. |
| SubscriptionService.TierMonotone | src/services/subscription.service.ts:225-230 | A larger member count never gives a lower tier, ordering basic < plus < pro < enterprise. |
| SubscriptionService.ChosenPlanFits | src/services/subscription.service.ts:20-86 | For a count of at least 1, the chosen plan's member range contains the count. It is the only plan whose range does. |
| SubscriptionService.RangesContiguous | src/services/subscription.service.ts:26-72 | The plan ranges are 1–1, 2–9, 10–19 and 20 upward, each starting right after the previous one ends. |
| SubscriptionService.RangesOrdered | src/services/subscription.service.ts:26-72 | A lower tier's range ends before a higher tier's begins, so the ranges do not overlap. |
| SubscriptionService.FormatStatus | src/services/subscription.service.ts:237-250 | An unknown status is shown with its raw text as the label and the grey colours. A key inherited from `Object.prototype` instead returns that inherited built-in. |
| SubscriptionService.StatusLabelsDistinct | src/services/subscription.service.ts:241-247 | The seven known statuses have seven different non-empty labels. |
| SubscriptionService.CanAccessFeaturesExactly | src/services/subscription.service.ts:253-256 | Access is granted exactly for `active`, `trialing` and `past_due`. Null or empty is denied. |
| SubscriptionService.GetCompanySubscription | src/services/subscription.service.ts:88-105 | `PGRST116` (no row) gives null data and no error. Any other error gives its message. Success passes the row through. |
| MeasurementInput.Min | src/components/MeasurementInput.tsx:42 | `Math.min` is at most both arguments and equals one of them. |
| MeasurementInput.CleanedParse | src/components/MeasurementInput.tsx:37-40 | Once the non-digits are removed, `parseInt(cleaned, 10) \|\| 0` is the decimal value of the digits. It is never negative and is 0 for an empty text. |
| MeasurementInput.InchesTextReadsBack | src/components/MeasurementInput.tsx:47-52 | The capped inches are in [0, 11], and the text the field then shows parses back to the same value. |
| MeasurementInput.SyncedTextReadsBack | src/components/MeasurementInput.tsx:30-33 | The texts re-synced from a value parse back to its feet and inches. |
| MeasurementInput.MeasurementField.SyncFromValue | src/components/MeasurementInput.tsx:30-33 | Both texts are re-set from the `value` prop (empty for null). They read back as the value, and inches in range keep the field's invariant. |
| MeasurementInput.MeasurementField.HandleFeetChange | src/components/MeasurementInput.tsx:35-43 | The feet text keeps only the digits. The emitted feet are the parsed digits capped at `maxFeet` (99 by default). The emitted inches are parsed from the current inches text, which stays unchanged and in [0, 11]. |
| MeasurementInput.MeasurementField.HandleInchesChange | src/components/MeasurementInput.tsx:45-56 | The emitted inches are the parsed digits capped at 11, so always in [0, 11]. The text shows the capped value when it is positive, and otherwise the cleaned text. The feet are parsed from the current feet text without applying `maxFeet` again. |
| HousecallProService.GetApiKey | src/services/housecallpro.service.ts:103-117 | An error or a missing row gives null. Otherwise the row's stored key is returned. |
| HousecallProService.IsConnectedExactly | src/services/housecallpro.service.ts:133-136 | `isConnected` is true exactly when a row was read without error and holds a non-empty key. |
| HousecallProService.BuildRequest | src/services/housecallpro.service.ts:150-174 | The method defaults to GET and the body is forwarded as given. On web the request goes to the proxy with the endpoint as a query parameter. |
| HousecallProService.KeyHeaders | src/services/housecallpro.service.ts:158-171 | Both platforms send `Content-Type: application/json`. Web sends the key only as `x-hcp-api-key`. Native sends it only as `Authorization: Bearer <key>`. |
| HousecallProService.NativeUrl | src/services/housecallpro.service.ts:166 | On native the URL is the API base followed by the endpoint. |
| HousecallProService.ProxyUrlCarriesEndpoint | src/services/housecallpro.service.ts:155 | The proxy URL's `endpoint` query parameter decodes back to exactly the endpoint, query string included. |
| HousecallProService.FetchErrorMessage | src/services/housecallpro.service.ts:185-188 | The error is the first truthy one of `details`, `message`, `error` and `raw`, else `HTTP <status>: <statusText>`. It is never empty. |
| HousecallProService.NonJsonErrorIsText | src/services/housecallpro.service.ts:179-184 | A body that is not JSON becomes `raw`, so a non-empty text is the error itself. |
| HousecallProService.FetchAnswer | src/services/housecallpro.service.ts:176-195 | A thrown fetch gives its message. An ok answer gives its JSON body, or the parse error's message when the body is not JSON. Any other answer gives the chosen error message. |
| HousecallProService.OkBody | src/services/housecallpro.service.ts:191-194 | An ok answer has no error exactly when its body parsed. It then gives the parsed value, and otherwise no data and the parse error's message. |
| HousecallProService.HcpFetch | src/services/housecallpro.service.ts:139-196 | With no key it returns `Housecall Pro API key not configured` and sends nothing. Otherwise it sends exactly the built request and answers from its outcome. |
| HousecallProService.HcpFetchErrors | src/services/housecallpro.service.ts:144-195 | A request is sent exactly when there is a key. An answered request has no error exactly when the response is ok and its body parses. An error never comes with data. A response that is not ok gives a non-empty message, and an ok body that does not parse gives the parse error. |
| HousecallProService.ParamNames | src/services/housecallpro.service.ts:237-241 | The five query parameter names are distinct. |
| HousecallProService.AppendJobsParams | src/services/housecallpro.service.ts:235-241 | The appends build the reference parameter list. |
| HousecallProService.JobsParamsMeaning | src/services/housecallpro.service.ts:235-243 | The parameters appear at most once each, in the fixed order page, page_size, work_status, scheduled_start_min, scheduled_start_max. Each is present exactly when its option is truthy, so page 0 is left out. Each carries its option's text. |
| HousecallProService.JobsLookup | src/services/housecallpro.service.ts:237-241 | Looking a parameter up in the list gives its option's text, or nothing when that option is falsy. |
| HousecallProService.SerializedParamsReadBack | src/services/housecallpro.service.ts:243 | The serialised `URLSearchParams` string reads back to the same value for each parameter. |
| HousecallProService.SerializedParamsArePlain | src/services/housecallpro.service.ts:243 | The serialised parameters contain no `#`, so they stay in the query string. |
| HousecallProService.PairReadsBack | src/services/housecallpro.service.ts:243 | An encoded `name=value` pair reads back as its value under its own name and is skipped for any other name. |
| HousecallProService.GetJobs | src/services/housecallpro.service.ts:225-244 | On native with a key, the request goes to `<base>/jobs?<params>`. |
| HousecallProService.NativeJobsUrl | src/services/housecallpro.service.ts:243 | `getJobs`'s URL is the `/jobs` path, a `?`, and the serialised parameters. |
| HousecallProService.JobsQueryReadsBack | src/services/housecallpro.service.ts:235-243 | Each option reaches the server intact: the URL's query reads back to each option's text. |
| HousecallProService.JobsWithoutFilters | src/services/housecallpro.service.ts:243 | With no truthy option, or only page 0, the endpoint is `/jobs?` with a bare `?`. |
| HousecallProService.GetScheduledJobs | src/services/housecallpro.service.ts:210-222 | The request always goes to `/jobs`. |
| HousecallProService.ScheduledJobsIgnorePaging | src/services/housecallpro.service.ts:210-215 | The call and its answer are the same whatever `page` and `pageSize` are. |
| HousecallProService.TestConnection | src/services/housecallpro.service.ts:199-207 | The data is `true` exactly when the fetch gave no error. An error is passed through with data `false`. |
| HousecallProService.TestConnectionCall | src/services/housecallpro.service.ts:199-200 | The test requests `/employees` with no options and judges its answer. |
| HousecallProService.TestConnectionOutcome | src/services/housecallpro.service.ts:199-207 | With no key the test answers `false` with the not-configured message. With a key it answers `true` exactly when the `/employees` response is ok and its body parses, or the parse error's message is empty. |
| HousecallProService.UploadErrorWeb | src/services/housecallpro.service.ts:296-308 | On web an upload error is `details`, else `message`, else `raw`, else the HTTP status line; `error` is not consulted. |
| HousecallProService.UploadErrorFieldsNative | src/services/housecallpro.service.ts:335 | A native error body that is not JSON counts as `{}`. |
| HousecallProService.UploadErrorNative | src/services/housecallpro.service.ts:334-340 | On native an upload error is `message`, else the HTTP status line. |
| HousecallProService.ErrorChainsDiffer | src/services/housecallpro.service.ts:187 | The three error chains disagree. An `error` field is reported by `hcpFetch` but not by a web upload. A `details` field is reported by a web upload but not by a native one. |
| HousecallProService.UploadRequest | src/services/housecallpro.service.ts:279-331 | The upload is a POST of form data. Web goes to the proxy with only the `x-hcp-api-key` header. Native goes to `<base>/jobs/<id>/attachments` with only the bearer header, and the file's type is given. |
| HousecallProService.UploadJobAttachment | src/services/housecallpro.service.ts:252-351 | With no key it returns the not-configured message and sends nothing. On web, a failure to read the file back as a blob gives its message and sends nothing. Otherwise it sends the upload request. A throw gives its message. An ok answer gives its JSON body or the parse error. Any other answer gives the platform's own error chain. |
| HcpProxy.BuildForward | supabase/functions/hcp-proxy/index.ts:39-76 | Building the forwarded request step by step gives the reference forwarded request. |
| HcpProxy.ForwardRequestMeaning | supabase/functions/hcp-proxy/index.ts:39-76 | The forwarded request goes to the API base plus the endpoint, with the same method, the key as a bearer token and no `x-hcp-api-key`. Its Content-Type is the original one exactly for a multipart upload, and JSON otherwise. A body is forwarded, unchanged, only for POST and PATCH: an upload's raw body always, and otherwise only a non-empty text. |
| HcpProxy.Relay | supabase/functions/hcp-proxy/index.ts:79-113 | An unreachable upstream gives 500 with `{error: message}`. A status the `Response` constructor refuses (outside 200..599, or 204, 205, 304) gives 500 with `{error: <constructor message>}`. Another non-2xx answer keeps its status and is wrapped as `{error: 'HCP API Error: <status>', details: <text>, url}`. Another 2xx answer's text is passed through. Every reply carries the JSON headers. |
| HcpProxy.ConstructionError | supabase/functions/hcp-proxy/index.ts:100-113 | The error thrown for a refused status is the range error for a status outside 200..599, and otherwise the null-body-status error. It is never empty. |
| HcpProxy.NoContentBecomesError | supabase/functions/hcp-proxy/index.ts:100-113 | A 204 or 205 answer reaches the client as a 500 reply carrying the null-body-status error. |
| HcpProxy.Handle | supabase/functions/hcp-proxy/index.ts:11-115 | OPTIONS gets 200 `ok` with the CORS headers. A missing or empty `endpoint` gets 400. A missing or empty key gets 401. A request is forwarded exactly when none of these applies, and its reply is the relayed upstream answer. |
| HcpProxy.HeaderSets | supabase/functions/hcp-proxy/index.ts:5-9 | Both header sets allow any origin, and the JSON set declares `application/json`. |
| HcpProxy.RepliesCarryCors | supabase/functions/hcp-proxy/index.ts:14-112 | Every reply allows any origin. Every reply other than the preflight is declared JSON. |
| HcpProxy.HandleForwards | supabase/functions/hcp-proxy/index.ts:19-79 | A request with an endpoint and a key is forwarded as built from them. |
| HcpProxy.ReplyStatus | supabase/functions/hcp-proxy/index.ts:13-113 | Without forwarding the status is 200, 400 or 401. With forwarding it is the upstream status, or 500 when the upstream is unreachable or its status is refused by the `Response` constructor. |
| HcpProxy.WebCallForwardedAsNative | supabase/functions/hcp-proxy/index.ts:39-79 | A web `hcpFetch` through the proxy reaches Housecall Pro as exactly the request the native client sends directly: same URL, method, headers and body. |
| HcpProxy.WebErrorViaProxy | supabase/functions/hcp-proxy/index.ts:84-113 | Through the proxy a web client reports the upstream error text (the `details`), or `HCP API Error: <status>` when it is empty. For a status the `Response` constructor refuses it reports the constructor's error. A native client reports a non-JSON error text itself. |
| HcpProxy.UnreachableViaProxy | supabase/functions/hcp-proxy/index.ts:108-113 | An unreachable upstream reaches a web client as its message (or the 500 status line when empty), as a native client's throw does. |
| HcpProxy.DeliveredUploadShape | src/services/housecallpro.service.ts:279-293 | The web upload arrives at the proxy as a POST of the form with the key header and a multipart Content-Type carrying the boundary. |
| HcpProxy.UploadForward | supabase/functions/hcp-proxy/index.ts:42-69 | A multipart POST is forwarded with the bearer key, its own Content-Type and its raw body. |
| HcpProxy.WebUploadForwarded | supabase/functions/hcp-proxy/index.ts:39-79 | A web attachment upload is forwarded to `<base>/jobs/<id>/attachments` as a POST with the bearer key, the multipart boundary and the form. |
| HcpProxy.WebUploadErrorViaProxy | supabase/functions/hcp-proxy/index.ts:84-113 | A failed upload through the proxy reports the upstream text, or the status line when it is empty. For a status the `Response` constructor refuses it reports the line `HTTP 500: `. |
| PdfService.SanitizeName | src/services/pdf.service.ts:68 | `replace(/[^a-zA-Z0-9]/g, '_')` keeps the length and replaces exactly the characters that are not ASCII letters or digits with `_`. |
| PdfService.SanitizedIsSafe | src/services/pdf.service.ts:68 | A sanitised name holds only ASCII letters, digits and `_`, and sanitising it again changes nothing. |
| PdfService.FileNameShape | src/services/pdf.service.ts:68-70 | The file name is `Inspection_`, the sanitised project name, `_`, the clock text up to the first `T`, and `.pdf`. |
| PdfService.IsoDatePart | src/services/pdf.service.ts:69 | For an ISO timestamp the date part is its first ten characters (`YYYY-MM-DD`). |
| PdfService.GenerateInspectionPdf | src/services/pdf.service.ts:61-100 | A rendered file gives its uri and the built file name. A throw from the rasteriser gives its message as the error. |
| PdfService.GenerateAndUploadReport | src/services/pdf.service.ts:105-161 | The upload is attempted exactly when the PDF step succeeded, and with its result. Exactly one of data and error is set. |
| PdfService.PipelineOutcome | src/services/pdf.service.ts:112-160 | A failed PDF gives `PDF generation failed: <error or 'Unknown error'>`. A failed upload gives `HCP upload failed: ...`. A throw gives `Unexpected error: <message>`. Success, exactly when both steps succeed, gives the PDF uri and the attachment id. |
| PdfService.PipelineErrorPrefix | src/services/pdf.service.ts:119-158 | Every error of the pipeline starts with one of its three prefixes. |
| PdfService.SilentRasteriserFailure | src/services/pdf.service.ts:93-123 | A rasteriser throw with an empty message is reported as `PDF generation failed: Unknown error`, and nothing is uploaded. |
| PdfService.PipelineWithoutKey | src/services/pdf.service.ts:130-143 | Without a stored key the pipeline ends with `HCP upload failed: Housecall Pro API key not configured`. |
| PdfService.PreviewPdf | src/services/pdf.service.ts:166-199 | On web the file is downloaded under the given name or `Inspection_Report.pdf`, with no error. On native without sharing, the error is `Sharing is not available on this device` and nothing happens. |
| PdfService.PreviewOutcome | src/services/pdf.service.ts:166-199 | The preview never returns data. It returns no error exactly when it downloaded or shared. It shares exactly on native when sharing is available and does not throw. A download name is never empty. |
| TemplatesScreen.IndustryStyles | app/settings/templates.tsx:120-148 | The four known industries get four different icons and four different colours, none of them the default. Any other industry, or none, gets `home-outline` and the brand colour. |
| TemplatesScreen.Summary | app/settings/templates.tsx:224-225 | The card shows the number of categories and, as its item count, the length of the template's flattened item list. |
| TemplatesScreen.FirstDefaultId | app/settings/templates.tsx:47-48 | The default is the id of the first default row, if any. It is then an enabled template id and never empty. Without a default row it is null. |
| TemplatesScreen.FirstDefaultFound | app/settings/templates.tsx:47-48 | When the first default row has a non-empty id, that id is the default. |
| TemplatesScreen.TemplatesScreenState.LoadData | app/settings/templates.tsx:30-52 | Without a company nothing changes. Otherwise each list is replaced only when its query returned data. Loading the company's rows leaves a default that is one of the enabled templates. |
| TemplatesScreen.TemplatesScreenState.HandleToggleTemplate | app/settings/templates.tsx:58-95 | Without a company or admin rights nothing happens. An enabled template is disabled, and the default is cleared if it was that template. A disabled one is enabled, as the default when nothing was enabled. A service error leaves both as they were and is shown. The default stays one of the enabled templates. |
| TemplatesScreen.TemplatesScreenState.HandleSetDefault | app/settings/templates.tsx:97-110 | On success the template becomes the default and `Set as Default` is no longer shown for it. On an error the old default stays. Pressed from its button (line 278), it keeps the default enabled. |
| TemplateSelector.TotalItemsMeaning | src/components/TemplateSelector.tsx:57-59 | `getTotalItems` is zero exactly when every category is empty, and is at least each category's size. Its relation to the flattened list is `ChecklistTemplateService.FlattenLength`. |
| TemplateSelector.CategoryPreview | src/components/TemplateSelector.tsx:149-160 | The preview shows the first three category names at most, in order, then a `+<n - 3> more` tag exactly when there are more than three. |
| TemplateSelector.PreviewAccountsForAll | src/components/TemplateSelector.tsx:149-160 | The shown names plus the `more` count add up to the number of categories. Only the fourth tag can be the `more` tag. |
| TemplateSelector.TemplateSelectorState.CurrentView | src/components/TemplateSelector.tsx:61-185 | The choices are shown with the confirm button enabled exactly when loading is over, there are templates, and one is selected. |
| TemplateSelector.TemplateSelectorState.LoadTemplates | src/components/TemplateSelector.tsx:37-49 | On success the list is replaced, and a list of exactly one template selects it. On an error the list and the selection stay. If nothing was selected, a selection appears exactly when the answer was a single template. |
| TemplateSelector.TemplateSelectorState.Choose | src/components/TemplateSelector.tsx:106-110 | Tapping a card selects that template and changes nothing else. |
| TemplateSelector.TemplateSelectorState.HandleConfirm | src/components/TemplateSelector.tsx:51-55 | `onSelect` is called exactly when a template is selected, and with that template. |
| TemplateSelector.FailedFirstLoad | src/components/TemplateSelector.tsx:37-49 | A first load that fails shows the no-templates view, and confirming selects nothing. |
| CompanyContext.RolesMeaning | src/contexts/CompanyContext.tsx:37-38 | No membership gives neither role. `isOwner` holds exactly for the owner role. `isAdmin` holds for owners and admins, that is for every role except inspector. Every owner is an admin. |
| CompanyContext.FindById | src/contexts/CompanyContext.tsx:74 | `data.find(c => c.id === saved)` gives the first company with that id, or none exactly when no company has it. |
| CompanyContext.SelectOnLoadMeaning | src/contexts/CompanyContext.tsx:72-82 | An empty or missing list keeps the current company. Otherwise the choice is one of the loaded companies: the saved one when it is in the list, and else the first. |
| CompanyContext.RestoresCreatedCompany | src/contexts/CompanyContext.tsx:72-82 | After a company is created and selected, the next load restores it (its id is the saved one). |
| CompanyContext.ReplaceById | src/contexts/CompanyContext.tsx:123-125 | `prev.map(c => c.id === data.id ? data : c)` keeps the length and replaces exactly the companies with the updated id. |
| CompanyContext.ReplaceByIdMeaning | src/contexts/CompanyContext.tsx:123-125 | The updated company is in the list afterwards when its id was there. Otherwise the list is unchanged. |
| CompanyContext.ReplaceByIdIdempotent | src/contexts/CompanyContext.tsx:123-125 | Applying the same update twice is the same as applying it once. |
| CompanyContext.InviterName | src/contexts/CompanyContext.tsx:148 | The inviter is named by `full_name`, or by e-mail when it is empty. |
| CompanyContext.InvitationFor | src/contexts/CompanyContext.tsx:138-149 | No company gives `No company selected`, checked first. No user gives `Not authenticated`. Otherwise the invitation carries the company's id and name, the inviter's id and name, and the e-mail and role. |
| CompanyContext.CompanyProviderState.OnUserChange | src/contexts/CompanyContext.tsx:41-51 | A signed-in user loads the companies and selects one. Otherwise everything is cleared. Loading ends in both cases. When `user` itself changed, the company that was current becomes the one `removeMember`'s memoised callback sees. |
| CompanyContext.CompanyProviderState.LoadCompanies | src/contexts/CompanyContext.tsx:64-85 | Without a user nothing happens. Otherwise the list is the loaded one (`[]` for none) and the current company is chosen as `SelectOnLoad` says. |
| CompanyContext.CompanyProviderState.OnCompanyChange | src/contexts/CompanyContext.tsx:54-62 | With a company and a user the membership and members are loaded. Otherwise both are cleared. |
| CompanyContext.CompanyProviderState.LoadMembers | src/contexts/CompanyContext.tsx:94-99 | A render's `loadMembers` requests the members of that render's company and stores them (`[]` for no data). Without a company it requests nothing and changes nothing. |
| CompanyContext.CompanyProviderState.ReloadMembers | src/contexts/CompanyContext.tsx:134-136 | `refreshMembers` (memoised on `[currentCompany]`) reloads the selected company's members, and only when a company is selected. |
| CompanyContext.CompanyProviderState.SelectCompany | src/contexts/CompanyContext.tsx:101-104 | The company becomes current and its id is saved for the next load. |
| CompanyContext.CompanyProviderState.CreateCompany | src/contexts/CompanyContext.tsx:106-115 | Without a user it returns `Not authenticated`. A created company is appended, becomes current and is saved. The service error is returned. |
| CompanyContext.CompanyProviderState.UpdateCompany | src/contexts/CompanyContext.tsx:117-128 | Without a current company it returns `No company selected`. The updated company becomes current and replaces its entry in the list. |
| CompanyContext.CompanyProviderState.InviteMember | src/contexts/CompanyContext.tsx:138-154 | The guards fail with their messages and change nothing. Otherwise the invitation is sent and the members are reloaded only when it succeeded. |
| CompanyContext.CompanyProviderState.UpdateMemberRole | src/contexts/CompanyContext.tsx:156-162 | The service error is returned. The callback is memoised on `[]`, so its `loadMembers` is the first render's, which has no company. No members are requested, even after a success, and the list is unchanged. |
| CompanyContext.CompanyProviderState.UpdateMemberRoleIntended | src/contexts/CompanyContext.tsx:156-162 | The intended behaviour: a success reloads the selected company's members, and a failure changes nothing. |
| CompanyContext.CompanyProviderState.RemoveMember | src/contexts/CompanyContext.tsx:164-172 | Without a user it returns `Not authenticated` and changes nothing. Otherwise the removal is made by the user. Only a success reloads members, and then those of the company current when `user` last changed (memoised on `[user]`), not necessarily the selected one. |
| CompanyContext.CompanyProviderState.RemoveMemberIntended | src/contexts/CompanyContext.tsx:164-172 | The intended behaviour: the same guard, and a success reloads the selected company's members. |
| CompanyContext.StaleRoleUpdate | src/contexts/CompanyContext.tsx:156-162 | With a company selected, a successful role change leaves the members as they were (empty) as written. The intended callback loads the company's member. |
| CompanyContext.StaleRemoval | src/contexts/CompanyContext.tsx:164-172 | Right after sign-in selects a company, a successful removal requests no members as written. The intended callback requests that company's members. |
| ResetPassword.Utf16Length | app/auth/reset-password.tsx:81 | `newPassword.length` counts UTF-16 code units, between one and two per character. |
| ResetPassword.Utf16LengthOfBmp | app/auth/reset-password.tsx:81 | For text without astral characters the JS length is the number of characters. |
| ResetPassword.PasswordCheckMeaning | app/auth/reset-password.tsx:63-88 | The checks pass exactly for two equal, non-empty entries of at least 6 code units. An empty field is reported before a mismatch, and a mismatch before a short password. Swapping the fields changes nothing. |
| ResetPassword.ResetEffectsMeaning | app/auth/reset-password.tsx:62-113 | `updateUser` is called exactly when every check passes, first, and with the entered password. Sign-out and the move to `/(auth)/login` happen together, exactly after an update that succeeded, sign-out second and the move last. |
| ResetPassword.LinkOutcomeMeaning | app/auth/reset-password.tsx:29-60 | With both tokens only `setSession` decides: its error means an invalid link. Without both, an existing session makes the form ready and the invalid-link message cannot appear. `Failed to process reset link.` appears exactly when the deciding call throws. |
| ResetPassword.ScreenFor | app/auth/reset-password.tsx:116-141 | An error screen comes first. Otherwise it is `Verifying reset link...` exactly until the session is set, and then the form. |
| ResetPassword.ResetPasswordScreen.HandleTokens | app/auth/reset-password.tsx:29-60 | A ready session sets `isSessionSet`, and a failed link records its message. From the first render the next screen is the form or that error. The tokens are passed on exactly when both are present, and the existing session is consulted exactly when they are not. |
| ResetPassword.ResetPasswordScreen.HandleResetPassword | app/auth/reset-password.tsx:62-114 | The effects are those of `ResetEffects`. Loading is left off after an update, and a failed check does not touch it. The fields, the session flag and the error stay. |
| CreateInspection.ValidationErrorsMeaning | app/inspection/create.tsx:28-37 | The record holds the project-name error, `Project name is required`, exactly when the name is blank after trimming. It has no entries (`Object.keys(...).length === 0`) exactly when it is empty. |
| CreateInspection.TrimmedOrAbsentMeaning | app/inspection/create.tsx:52-54 | `s.trim() \|\| undefined` is absent exactly for a blank text, and otherwise is the trimmed text, which has no surrounding whitespace. |
| CreateInspection.PayloadMeaning | app/inspection/create.tsx:50-55 | Every text sent is trimmed, and an optional one is absent rather than empty. The project name is non-empty exactly for a non-blank entry. No scheduling or Housecall Pro fields are sent. |
| CreateInspection.StoredRowOfValidForm | app/inspection/create.tsx:50-55 | For a valid form the service stores a `draft` under the trimmed, non-empty project name, for the current company and user. |
| CreateInspection.InspectionPath | app/inspection/create.tsx:62 | The route is `/inspection/` followed by the new id. |
| CreateInspection.CreateInspectionForm.Validate | app/inspection/create.tsx:28-37 | The errors are recorded as `ValidationErrors` says, and the answer is true exactly when there are none. |
| CreateInspection.CreateInspectionForm.HandleCreate | app/inspection/create.tsx:39-64 | An invalid form sends nothing. Without a company or user it only alerts. Otherwise it sends the normalised payload and then shows the service's error, or navigates to the new inspection when data came back. |
| IntegrationsScreen.ShowAlertCarries | app/settings/integrations.tsx:97-103 | On web exactly, the alert is one text `<title>: <message>`. On a device the title and message are shown as given. |
| IntegrationsScreen.FailureMessageText | app/settings/integrations.tsx:61 | A failed test shows the test's error, or `Unable to connect to Housecall Pro` when it has none. The message is never empty. |
| IntegrationsScreen.ConnectEffectsMeaning | app/settings/integrations.tsx:43-71 | Without a company or user nothing happens. A blank key only shows `Please enter your API key` and is never saved. Otherwise the trimmed, non-empty key is saved first and the connection test comes second. The key is removed exactly when the test failed or did not answer `true`. The last effect is the success notice or the failure notice. |
| IntegrationsScreen.SavedBeforeConnectionTest | app/settings/integrations.tsx:54-70 | For a non-blank key: save, then the connection test, then rollback exactly on failure, then the closing notice. |
| IntegrationsScreen.StoredAfterConnectMeaning | app/settings/integrations.tsx:43-71 | A blank key leaves the stored key as it was. An accepted test with a successful save leaves the trimmed key stored. A failed test whose removal succeeded leaves no key (the rollback). |
| IntegrationsScreen.IntegrationsScreenState.CheckConnection | app/settings/integrations.tsx:30-37 | Without a company nothing changes. Otherwise `isConnected` becomes `isConnected(company)` (a stored, non-empty key) and checking ends. |
| IntegrationsScreen.IntegrationsScreenState.HandleConnect | app/settings/integrations.tsx:43-71 | The effects and the stored key are as above. Success marks the screen connected, clears the key field and hides the input. Failure only ends `isConnecting`. A blank key or a missing company or user leaves the screen as it was. |
| IntegrationsScreen.IntegrationsScreenState.HandleDisconnect | app/settings/integrations.tsx:73-95 | Without a company nothing happens. Otherwise the user is asked, and only a confirmation removes the key and marks the screen disconnected. A successful removal leaves no stored key. |
| Text.TrimStart | app/inspection/create.tsx:31 | Trimming the front leaves a suffix of the text that starts with a non-whitespace character, or nothing. |
| Text.TrimStartCutsBlank | app/inspection/create.tsx:31 | Only whitespace is cut from the front. |
| Text.TrimEnd | app/inspection/create.tsx:31 | Trimming the end leaves a prefix of the text that ends with a non-whitespace character, or nothing. |
| Text.TrimEndCutsBlank | app/inspection/create.tsx:31 | Only whitespace is cut from the end. |
| Text.Trim | app/inspection/create.tsx:31 | `String.prototype.trim` returns a text that neither starts nor ends with ECMAScript whitespace or a line terminator. |
| Text.TrimEmptyIffBlank | app/inspection/create.tsx:31 | `!s.trim()` holds exactly when the text is all whitespace (or empty). |
| Text.TrimIdempotent | app/inspection/create.tsx:51-54 | Trimming a trimmed text changes nothing. |
| Text.StripNonDigits | src/components/MeasurementInput.tsx:37 | `replace(/[^0-9]/g, '')` leaves only digits and never lengthens the text. |
| Text.StripNonDigitsKeepsDigits | src/components/MeasurementInput.tsx:37 | Every digit of the input is kept, as often as it occurs. |
| Text.StripNonDigitsOfDigits | src/components/MeasurementInput.tsx:37 | A text of digits is left as it is. |
| Text.LeadingDigits | src/components/MeasurementInput.tsx:40 | `parseInt` reads the longest run of leading digits: a prefix of the text, followed by a non-digit or the end. |
| Text.NatToString | src/utils/reportTemplate.ts:25 | A number's decimal text is non-empty digits without a leading zero. |
| Text.DigitsValueOfNatToString | src/utils/reportTemplate.ts:25 | The decimal text of `n` has the value `n`. |
| Text.ParseIntOrZeroOfDigits | src/components/MeasurementInput.tsx:40-41 | `parseInt(s, 10) \|\| 0` on a text of digits is its decimal value, and 0 for the empty text. |
| Text.ParseIntOfIntToString | src/components/MeasurementInput.tsx:52-54 | `parseInt(n.toString(), 10)` is `n` for every integer, negative ones included. |
| Text.ParseIntOfIntToStringThen | src/utils/reportTemplate.ts:25-27 | A number's text followed by a non-digit (such as `'`) still parses to the number. |
| Text.Prefix | src/utils/reportTemplate.ts:215 | `slice(0, n)` is a prefix of length `n`, or the whole text when it is shorter. |
| Text.UpperChar | src/utils/reportTemplate.ts:215 | Upper-casing maps `a`–`z` to `A`–`Z` and leaves every other character. |
| Text.ToUpperAscii | src/utils/reportTemplate.ts:215 | `toUpperCase` (on ASCII) upper-cases each character in place. |
| Text.EncodeUriComponent | src/services/housecallpro.service.ts:155 | `encodeURIComponent` output has only unreserved characters and `%XY` escapes, and is at least as long as the input. |
| Text.EncodeUriComponentOfUnreserved | src/services/housecallpro.service.ts:155 | A text of unreserved characters is not changed by the encoding. |
| Text.FormEncode | src/services/housecallpro.service.ts:243 | The `URLSearchParams` serialiser leaves only form-unreserved characters, `+` and `%XY` escapes. |
| Text.FormDecodeOfEncodeUriComponent | supabase/functions/hcp-proxy/index.ts:18-19 | `searchParams.get` decodes what `encodeURIComponent` encoded. The round trip gives back any ASCII endpoint, `?` and `&` included. |
| Text.FormDecodeOfFormEncode | supabase/functions/hcp-proxy/index.ts:18-19 | Decoding a form-encoded ASCII value gives it back. |
| Text.FormDecodePlain | supabase/functions/hcp-proxy/index.ts:19 | A text without `%` or `+` decodes to itself. |
| Text.PercentBytes | src/services/housecallpro.service.ts:155 | Each byte becomes three characters, `%` and two upper-case hex digits. |
| Text.Utf8 | src/services/housecallpro.service.ts:155 | A character is one to four UTF-8 bytes. |
| Text.HexValueOfHexChar | supabase/functions/hcp-proxy/index.ts:19 | Decoding a hex digit gives back the value it encodes. |
| Http.HeaderGet | supabase/functions/hcp-proxy/index.ts:29 | `headers.get(name)` finds a header exactly when one has that name up to case, and gives that header's value. |
| Http.HeaderNamesCompare | supabase/functions/hcp-proxy/index.ts:42 | Header names match regardless of case (`Content-Type` is `content-type`), and the three names used are distinct. |
| Http.ErrorFields | src/services/housecallpro.service.ts:179-184 | An error body that is JSON gives its fields. Any other text gives `{ raw: text }`. |
| Http.HttpStatusMessage | src/services/housecallpro.service.ts:187 | The fallback message starts with `HTTP `, so it is never empty. |
| Http.UpTo | src/services/pdf.service.ts:69 | `split(c)[0]` is the text before the first `c`, or the whole text when there is no `c`. |
| Http.AfterFirst | supabase/functions/hcp-proxy/index.ts:18 | The part after the first separator, so that the text is the part before, the separator and this part. |
| Http.QueryGetSingle | supabase/functions/hcp-proxy/index.ts:18-19 | A URL with one `name=value` pair gives the decoded value for `name`. |
| Http.QueryGetFirstPair | supabase/functions/hcp-proxy/index.ts:19 | `searchParams.get` returns the first pair whose decoded name matches. |
| Http.UpToThenRest | supabase/functions/hcp-proxy/index.ts:18 | Splitting `a + c + b` at the first `c` (with none in `a`) gives `a` and `b`. |

## Findings

| source | as written | input that shows it | evidently intended | confidence | as-written member | corrected member |
|---|---|---|---|---|---|---|
| src/contexts/CompanyContext.tsx:156-162 | `updateMemberRole` is memoised with `[]` deps. It keeps the first render's `loadMembers`, whose `currentCompany` is `null`, so it never reloads. | A company is selected and the role update succeeds. The members list stays as it was. | A successful update reloads the selected company's members. | medium (the team screen calls `refreshMembers` after it); not executed | CompanyContext.StaleRoleUpdate | CompanyContext.CompanyProviderState.UpdateMemberRoleIntended |
| src/contexts/CompanyContext.tsx:164-172 | `removeMember` is memoised on `[user]`. It reloads for the company current when `user` last changed, which is `null` right after sign-in. | A user signs in, the first company is selected, and a removal succeeds. No members are requested. | A successful removal reloads the selected company's members. | medium (the team screen calls `refreshMembers` after it); not executed | CompanyContext.StaleRemoval | CompanyContext.CompanyProviderState.RemoveMemberIntended |

## Left out

- Backend calls (hosted Postgres queries, RPCs, storage, auth, `company.service.ts`): each operation takes the response it would have awaited as a parameter. Tables the code changes are `seq` fields updated by functions on those sequences. Row-level security, triggers and concurrent writers are not modelled.
- `getSystemTemplates`, `getCompanyTemplates` and `getInspectionById`: they are queries, so the model takes their answers as inputs.
- `updateHcpSyncStatus`, `deleteInspection`, `deleteInspectionItem` and every photo function (`uploadPhoto`, `addItemPhoto`, `deleteItemPhoto`): plain pass-through backend calls with no logic of their own.
- `updated_at` and the other `new Date()` stamps: the clock is a parameter (`now`, `isoNow`, `createdAt`). Locale date formatting (`formatDate`, `getNextYearDate`, the generated date) is an opaque, already-formatted text.
- `fetch`, `FormData`, `Blob` and `URL`: responses are inputs. The outcome of reading the PDF back as a blob on web is a parameter of `UploadJobAttachment`. A multipart body is the list of form fields, not its byte encoding with a boundary. The exception `new URL` throws for a malformed request URL is not modelled; the proxy takes the `endpoint` query parameter as already read.
- The PDF rasteriser (`html2pdf`, `expo-print`) and sharing (`expo-sharing`): their outcome is an `Attempt` parameter. Building the DOM for the web preview is not modelled.
- The report's CSS and inline styles: the report is a block structure with its data-dependent fragments, not the HTML text.
- String length and indexing: Dafny strings are sequences of Unicode scalar values while JavaScript counts UTF-16 code units. The reset-password length check spells out the UTF-16 count (`Utf16Length`). Everywhere else the two agree for characters of the Basic Multilingual Plane only.
- Numbers: JavaScript numbers are modelled as `int`. Non-integer feet or inches, floating-point rounding and `NaN` in measurements, sort orders and the completion percentage are not modelled.
- Text.ToUpperAscii: upper-cases only `a`–`z`, where `toUpperCase` also maps other letters and can lengthen a text (`ß` becomes `SS`). So ReportTemplate.ReportNumberShape's bound of 8 characters holds for the model. For an id with letters outside ASCII the source's report number can be longer.
- HcpProxy.ConstructionError: the two messages are those of the Deno runtime's `Response` constructor, which is not part of this model.
- InspectionService.MULTIPLE_ROWS: the text is the message the backend client library gives with code PGRST116, and that library is not part of this model.
- InspectionService.InspectionStore.AddInspectionItem: the database schema is not part of this model. The column defaults for the fields the insert leaves out (no description, the `status` type, no value, no photos) are assumed.
- Text.FormDecode: decodes only the percent-escapes of ASCII characters, which is all that `EncodeUriComponent` of an ASCII text produces. Multi-byte UTF-8 escapes are not decoded.
- `hcpFetch`'s `options.headers` spread: no caller passes extra headers, so the model leaves it out.
- Concurrency: `isUpdating` in the templates screen and `isLoading` flags are modelled as fields. Overlapping handler runs, the auth-check timeout race and auth event subscriptions in `AuthContext.tsx` are not modelled.
- React rendering and `useEffect` ordering: each handler is a method run to completion. A memoised callback's stale closure is modelled only in the company provider, where it changes a result (`updateMemberRole`, `removeMember`). What the screens render is reduced to the view a state selects: the error, verifying and form screens; the selector's empty, list and preview views. Styles and layout are not modelled.
- Dialogs: `Alert.alert`, `confirm` and `alert` are effects in the result. The user's answer to a confirmation is a parameter.
- `AsyncStorage`: the saved company id is a field of the company provider.
- The integrations screen ignores the results of `saveApiKey` and `removeApiKey`; the model records the calls but does not report save errors. The screen's rendering and its admin-only gate (from line 105 of `app/settings/integrations.tsx` on) are not modelled.
- Alert and error messages are datatypes, each with a function giving its text, so that proofs do not reason about long string literals.
- CreateInspection: the form's error record holds only the `projectName` key, because `validate` sets no other key.
- `app/auth/callback.tsx`, the UI components, the layouts, `src/lib/constants.ts` and the invitation-email edge function are not part of this model.
- Category grouping, the completion percentage and the reconciliation of Housecall Pro jobs with inspections are not in the source files this model covers.
- ReportTemplate.CompanyLine: states only that the line begins with the company name and that it is just the name when there is no phone and no email. The separator layout for each combination is not stated.
