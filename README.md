# FrontlineSafe core, modelled in Dafny

FrontlineSafe is a workplace-safety application. Field workers report incidents from a
phone, online or offline, and a NestJS backend stores them per company (tenant). The
backend also tracks corrective and preventive actions (CAPAs), inspections, controlled
documents, uploads, billing and authentication.

This project models the offline-first incident path:

- the browser's persistent offline queue and the dispatcher that replays it;
- the offline capture that stamps a client idempotency key (`clientTempId`);
- the server's idempotent create;
- the batch reconciliation endpoint.

It also models the rule-based services around that path:

- inspection → CAPA derivation;
- CAPA updates and the escalation job;
- document version numbering;
- upload file-name sanitising and object keys;
- the Stripe webhook status machine;
- the sign-up, login, refresh-token, invite and logout lifecycle;
- the fixed-window rate limiter;
- log-body redaction;
- the quick incident form.

Each source file is one Dafny module. `Common` holds the shared definitions:

- `Option`, `Result` and `Error` (the HTTP exceptions the services throw);
- JavaScript truthiness (`Truthy`, `Given`, `OrElse`);
- ASCII `toLowerCase` and substring search.

Stores that the source changes in place are classes whose fields are `seq` or `map` values:

- the IndexedDB object store;
- the database tables;
- the Redis counters;
- the React component state.

Each method's `ensures` ties the new state and its answer to a specification function of
the old state. The properties the source promises are then proved as lemmas about those
functions: idempotent create, re-run of a batch, token rotation, monotone versions, and so
on.

Everything outside the model is a parameter:

- `now` (milliseconds);
- uuids;
- bcrypt hashes and the password comparison;
- JWT signing;
- the presigned-URL signer;
- Stripe's answers;
- Redis failures;
- the network (a nondeterministic success in `OfflineQueue.OfflineStore.Replay`);
- the database's verdict on a transaction (`commit`).

## Model

| member | source | states |
|---|---|---|
| OfflineQueue.OfflineStore.constructor | src/lib/offlineQueue.ts:6-14 | the store starts empty, and auto-incremented keys start at 1 |
| OfflineQueue.OfflineStore.AddToQueue | src/lib/offlineQueue.ts:24-30 | the request and timestamp are stored under a fresh key that was unused; every other entry is unchanged |
| OfflineQueue.OfflineStore.GetQueue | src/lib/offlineQueue.ts:32-35 | returns every stored entry exactly once, in increasing key order, and removes nothing |
| OfflineQueue.OfflineStore.RemoveFromQueue | src/lib/offlineQueue.ts:37-40 | deletes entry `id` only; an absent id leaves the store unchanged |
| OfflineQueue.OfflineStore.ClearQueue | src/lib/offlineQueue.ts:42-45 | the store is empty afterwards (the key generator is kept) |
| OfflineQueue.OfflineStore.Replay | src/lib/offlineQueue.ts:53-61 | one awaited request; its entry is removed exactly when the request succeeded |
| OfflineQueue.OfflineStore.ProcessQueue | src/lib/offlineQueue.ts:49-68 | issues the snapshot's requests one per entry, in key order (none for an empty queue); afterwards a snapshot entry is still stored iff its request failed; no other entry changes |
| OfflineQueue.InKeyOrderExact | src/lib/offlineQueue.ts:32-35 | the key-order listing holds exactly the stored entries, each once, with strictly increasing keys |
| OfflineQueue.FailedStay | src/lib/offlineQueue.ts:53-67 | after removing the succeeded keys, a snapshot entry remains iff its request failed |
| CreateIncident.SubmittedData | src/pages/incidents/CreateIncident.tsx:47-55 | the body is the form fields plus the current user's companyId, id and name (undefined without a user) |
| CreateIncident.OfflineData | src/pages/incidents/CreateIncident.tsx:23-29 | every submitted key is kept; `clientTempId` and `createdAt` take the fresh values |
| CreateIncident.MutationFn | src/pages/incidents/CreateIncident.tsx:22-41 | offline: exactly one `POST /incidents` entry holding the stamped body is enqueued, and that body is returned with no network call; online: the data is posted unchanged and the queue is untouched |
| CreateIncident.OfflineSubmissionBody | src/pages/incidents/CreateIncident.tsx:23-34 | a queued offline body carries the generated key, every form field and the user's company |
| Incidents.NewIncident | backend/src/incidents/incidents.service.ts:47-79 | the inserted row: status `new`, photos default to `[]`, the key in both `clientTempId` and `syncedFromClientId` |
| Incidents.Insert | backend/src/incidents/incidents.service.ts:47-79 | inserts exactly one row under the next id; refuses with a conflict when (companyId, clientTempId) is already stored; keeps the keys unique |
| Incidents.CreateSpec | backend/src/incidents/incidents.service.ts:21-98 | tenant check first (Forbidden, no write); a stored truthy key returns that row and writes nothing; otherwise exactly one row is inserted; an empty key skips the lookup, so it inserts a row carrying "" or, when one is stored, fails with Conflict and no write; the response echoes the dto's clientTempId; uniqueness is kept |
| Incidents.CreateIsIdempotent | backend/src/incidents/incidents.service.ts:28-59 | two sequential creates with one truthy key give the same answer and leave one row |
| Incidents.IncidentTable.Create | backend/src/incidents/incidents.service.ts:21-98 | the table and the answer are those of `CreateSpec` |
| Incidents.ListWhere | backend/src/incidents/incidents.service.ts:100-121 | the where-clause as written: the query's companyId when given, else the caller's, plus the optional filters |
| Incidents.ListWhereCrossesTenants | backend/src/incidents/incidents.service.ts:102 | as written, a caller in company 1 who asks for company 2 matches company 2's incidents |
| Incidents.ListWhereCrossesTenantsFor | backend/src/incidents/incidents.service.ts:102 | for every company `c` other than the caller's, a query naming `c` matches exactly the rows the clause scoped to `c` matches, all of them outside the caller's company |
| Incidents.ScopedListWhere | backend/src/incidents/incidents.service.ts:100-121 | the corrected clause: always the caller's company, with the same optional filters |
| Incidents.ScopedListStaysInTenant | backend/src/incidents/incidents.service.ts:101-103 | with the corrected clause, no listed incident belongs to another company |
| Incidents.Paginate | backend/src/incidents/incidents.service.ts:123-125 | page defaults to 1 and limit to 20; skip = (page-1)*limit; totalPages is the least page count that holds `total` rows |
| Incidents.CeilDiv | backend/src/incidents/incidents.service.ts:158 | `Math.ceil(n/d)`: the least q with q*d >= n |
| Sync.SyncIncidentSpec | backend/src/sync/sync.service.ts:40-81 | the lookup by (caller's company, item key) comes first and returns a stored row with no write; only for a new key does the tenant check run (Forbidden); otherwise one row is inserted with the item's key in both idempotency fields |
| Sync.SyncIncident | backend/src/sync/sync.service.ts:40-81 | the table and answer are those of `SyncIncidentSpec` |
| Sync.BulkSync | backend/src/sync/sync.service.ts:15-38 | items in order; non-incident items are skipped; an item's error is caught and later items still run; mappings in item order for the succeeded items only |
| Sync.BulkSyncSpec | backend/src/sync/sync.service.ts:15-38 | a batch gives at most one mapping per item |
| Sync.BulkSyncAppends | backend/src/sync/sync.service.ts:15-38 | a batch only appends rows |
| Sync.MappingsPointAtRows | backend/src/sync/sync.service.ts:22-27 | every returned mapping pairs the item's key with the id of the row holding that key |
| Sync.BulkSyncSettles | backend/src/sync/sync.service.ts:42-61 | after a batch, every incident item's key is stored for the company, or the item is another company's |
| Sync.SettledRunIsStill | backend/src/sync/sync.service.ts:42-53 | a batch of settled items writes nothing and maps exactly the stored keys |
| Sync.FirstRunMappings | backend/src/sync/sync.service.ts:18-37 | with distinct keys, a batch maps exactly the incident items whose keys the final table holds |
| Sync.RerunWritesNothing | backend/src/sync/sync.service.ts:42-53 | re-running a batch adds no rows |
| Sync.RerunIsIdempotent | backend/src/sync/sync.service.ts:15-53 | with distinct keys, a re-run gives the same mappings and the same table |
| Sync.RerunCanMapMore | backend/src/sync/sync.service.ts:42-61 | with a repeated key, a re-run can map an item the tenant check refused the first time |
| Sync.StoredKeyWinsOnlyInSync | backend/src/sync/sync.service.ts:42-61 | for a stored key sent with another company's body, `create` refuses while `syncIncident` returns the stored row |
| Inspections.VisibleTemplates | backend/src/inspections/inspections.service.ts:23-33 | the global templates and the company's own; with no company, every template |
| Inspections.VisibleTemplatesCounts | backend/src/inspections/inspections.service.ts:23-33 | each global or own template is listed as often as it is stored; any other, never |
| Inspections.FindTemplate | backend/src/inspections/inspections.service.ts:35-45 | the template with that id, or NotFound("Template not found") exactly when none has it |
| Inspections.IsFailed | backend/src/inspections/inspections.service.ts:71-73 | a failing answer has 2 or 6 characters, since lower-casing keeps the length |
| Inspections.FailedItems | backend/src/inspections/inspections.service.ts:71-73 | exactly the responses whose lower-case value is "no" or "failed", in order |
| Inspections.FailedIgnoresCase | backend/src/inspections/inspections.service.ts:71-73 | "NO" and "Failed" fail; "yes" and "na" do not |
| Inspections.FailedItemsConcat | backend/src/inspections/inspections.service.ts:71-73 | the filter distributes over concatenation, so it keeps the order of the responses |
| Inspections.FailedItemsOne | backend/src/inspections/inspections.service.ts:71-73 | a single response is kept, once, exactly when it fails |
| Inspections.FailedAt | backend/src/inspections/inspections.service.ts:71-73 | a failed response at position j sits in the filtered list at the number of failures before j |
| Inspections.Question | backend/src/inspections/inspections.service.ts:77-80 | a schema without an items list gives no question |
| Inspections.QuestionOfFirstMatch | backend/src/inspections/inspections.service.ts:77-80 | `find` returns the question of the first item whose id matches |
| Inspections.NoQuestionWithoutMatch | backend/src/inspections/inspections.service.ts:77-80 | no item with that id gives no question |
| Inspections.DeriveCapa | backend/src/inspections/inspections.service.ts:82-95 | the given id, the inspection's company, origin id the new inspection's id, the inspector as owner and creator, status Open, due 30 days after now, not completed |
| Inspections.DerivedCapaText | backend/src/inspections/inspections.service.ts:85-92 | origin type `inspection`, priority medium, title `CAPA: ` and the question or the fallback, description the comment or `Failed item: <itemId>` |
| Inspections.DerivedCapas | backend/src/inspections/inspections.service.ts:76-97 | one derived CAPA per failed response, in response order |
| Inspections.CreateInspectionSpec | backend/src/inspections/inspections.service.ts:47-103 | Forbidden on another company; NotFound for a missing template; on commit, one new inspection and exactly one CAPA per failed response; on any error every table is unchanged (all or nothing) |
| Inspections.CreatedCapas | backend/src/inspections/inspections.service.ts:69-97 | on success the CAPAs answered are the derived ones for the failed responses, numbered from the CAPA table's next id |
| Inspections.DerivedFromResponse | backend/src/inspections/inspections.service.ts:71-97 | each failed response has its own CAPA, derived from that response, at its place among the failures |
| Inspections.ResubmissionDuplicates | backend/src/inspections/inspections.service.ts:47-68 | no dedup: the same body twice stores two inspections, each with its own CAPAs |
| Inspections.InspectionStore.DeriveAll | backend/src/inspections/inspections.service.ts:76-97 | the CAPA rows written, one after the other, are exactly `DerivedCapas` |
| Inspections.InspectionStore.DeriveNext | backend/src/inspections/inspections.service.ts:82-95 | one insert: the CAPA of the next failed response is appended to the table and to the rows written |
| Inspections.InspectionStore.Create | backend/src/inspections/inspections.service.ts:47-103 | the tables and answer are those of `CreateInspectionSpec`, with rollback when not committed |
| Inspections.InspectionStore.Transaction | backend/src/inspections/inspections.service.ts:57-100 | for a known template, the tables and answer are those of `CreateInspectionSpec`: the inspection and its CAPAs when committed, every table restored otherwise |
| Capas.CreateSpec | backend/src/capas/capas.service.ts:16-57 | a new Open CAPA of the caller's company, created by the caller; due date only when given; one `capa.created` audit entry |
| Capas.CapaStore.Create | backend/src/capas/capas.service.ts:16-57 | the tables and answer are those of `CreateSpec` |
| Capas.FindOne | backend/src/capas/capas.service.ts:97-140 | Ok iff the CAPA exists and belongs to the caller's company, else NotFound("CAPA not found") |
| Capas.FindAll | backend/src/capas/capas.service.ts:59-95 | exactly the company's CAPAs, narrowed by status and owner when given |
| Capas.Merge | backend/src/capas/capas.service.ts:146-157 | each truthy dto field replaces the stored one and all other fields are kept; completedAt is stamped iff the dto status is Closed |
| Capas.MergeIsIdempotent | backend/src/capas/capas.service.ts:146-157 | applying the same update twice at the same time equals applying it once |
| Capas.StatusAudit | backend/src/capas/capas.service.ts:174-183 | a status-change entry iff a status is given and differs from the old one |
| Capas.UpdateSpec | backend/src/capas/capas.service.ts:142-191 | another company's or a missing CAPA: NotFound with no write; otherwise only that row changes, then the status audit, then exactly one comment iff a comment is given |
| Capas.CapaStore.Update | backend/src/capas/capas.service.ts:142-191 | the field-by-field build equals `Merge`; the tables and answer are those of `UpdateSpec` |
| Capas.AddCommentSpec | backend/src/capas/capas.service.ts:193-224 | tenant-scoped lookup, then one comment row and its audit entry |
| Capas.CapaStore.AddComment | backend/src/capas/capas.service.ts:193-224 | the tables and answer are those of `AddCommentSpec` |
| Capas.AddAttachmentSpec | backend/src/capas/capas.service.ts:226-259 | tenant-scoped lookup, then one attachment row and its audit entry |
| Capas.CapaStore.AddAttachment | backend/src/capas/capas.service.ts:226-259 | the tables and answer are those of `AddAttachmentSpec` |
| Capas.CreatedIsScoped | backend/src/capas/capas.service.ts:16-29 | a created CAPA is found and listed for its company and for no other |
| Capas.OtherTenantUntouched | backend/src/capas/capas.service.ts:97-139 | update, addComment and addAttachment on another company's CAPA answer NotFound and write nothing |
| Escalation.DueSoonCapas | backend/src/capas/escalation.processor.ts:23-45 | exactly the non-Closed CAPAs with now <= dueDate <= now + reminderDaysBefore days (multiplicity in `SelectionCounts`) |
| Escalation.OverdueCapas | backend/src/capas/escalation.processor.ts:60-76 | exactly the non-Closed CAPAs with dueDate < now - escalationDaysAfter days (multiplicity in `SelectionCounts`) |
| Escalation.HandleCapaEscalation | backend/src/capas/escalation.processor.ts:94-97 | the reported counts are the sizes of the two selections; a count equals the number of CAPAs exactly when every CAPA matches, and is 0 exactly when none does |
| Escalation.SelectionCounts | backend/src/capas/escalation.processor.ts:23-97 | each selection holds every matching CAPA as often as the table does and no other, so each count is one per matching row |
| Escalation.FilterCounts | backend/src/capas/escalation.processor.ts:28-36 | a where-clause query keeps each matching row as often as it is stored, and no other row |
| Escalation.CapaConfigFrom | backend/src/config/capa.config.ts:3-6 | each setting is the environment's value when given and its default (3 and 7 days) otherwise |
| Escalation.DueSoon | backend/src/capas/escalation.processor.ts:24-36 | a due-soon CAPA is not yet past due, and only a non-negative reminder window can select one |
| Escalation.Overdue | backend/src/capas/escalation.processor.ts:25-68 | with a non-negative delay, an overdue CAPA is past its due date |
| Escalation.SelectionsAreDisjoint | backend/src/capas/escalation.processor.ts:24-36 | with a non-negative escalation delay, no CAPA is both due soon and overdue |
| Escalation.NotificationsFit | backend/src/capas/escalation.processor.ts:28-76 | so one run sends at most one notification per CAPA |
| Documents.NextVersion | backend/src/documents/documents.service.ts:19-28 | 1 when the company has no document with that title, else one more than the highest stored version |
| Documents.NewDocument | backend/src/documents/documents.service.ts:30-44 | the inserted row has that version and tags default to `[]` |
| Documents.DocumentTable.Create | backend/src/documents/documents.service.ts:18-44 | appends exactly the `NewDocument` row |
| Documents.OtherTitlesIgnored | backend/src/documents/documents.service.ts:21-24 | a document of another title or company does not change the next version |
| Documents.VersionsIncrease | backend/src/documents/documents.service.ts:19-35 | successive uploads of one title get consecutive versions |
| Documents.FindOne | backend/src/documents/documents.service.ts:68-90 | the document iff it belongs to the caller's company, else NotFound |
| Documents.SortByVersionDesc | backend/src/documents/documents.service.ts:97 | a permutation in descending version order |
| Documents.FindByTitle | backend/src/documents/documents.service.ts:92-108 | exactly the company's documents with that title, each as often as it is stored (same multiset as `WithTitle`), in descending version order |
| Documents.WithTitleCounts | backend/src/documents/documents.service.ts:93-98 | a stored document with that company and title appears as often as it is stored; any other document, never |
| Documents.NewestFirst | backend/src/documents/documents.service.ts:92-98 | after an upload, its version heads the title's history |
| Uploads.ReplaceUnsafe | backend/src/uploads/uploads.service.ts:91 | same length; each character outside `[a-zA-Z0-9._-]` becomes `_` and the others are kept |
| Uploads.Basename | backend/src/uploads/uploads.service.ts:88 | a suffix of the name holding no `/` |
| Uploads.BasenameIsLastComponent | backend/src/uploads/uploads.service.ts:88 | trailing `/`s are dropped, and the basename is everything after the last remaining `/` (the whole name when there is none) |
| Uploads.Extname | backend/src/uploads/uploads.service.ts:49 | the extension is a suffix that starts with its only dot and is shorter than the name; a name without a dot has none |
| Uploads.ExtnameEmptyExactly | backend/src/uploads/uploads.service.ts:49 | the extension is empty exactly when the name has no dot, its last dot is its first character, or it is `..` |
| Uploads.Stem | backend/src/uploads/uploads.service.ts:50 | the stem followed by the extension is the whole name |
| Uploads.TruncateAsWritten | backend/src/uploads/uploads.service.ts:94-97 | short names unchanged; a long name with an extension that fits is cut to exactly 255 ending in it; otherwise the extension alone |
| Uploads.SanitizeFilenameAsWritten | backend/src/uploads/uploads.service.ts:86-100 | the code as written: a safe alphabet and no `/`, but no length bound when the extension exceeds 255 |
| Uploads.AsWrittenKeepsLongExtension | backend/src/uploads/uploads.service.ts:94-97 | as written, a safe name whose extension is over 255 characters comes out as that extension, whole |
| Uploads.AsWrittenCutsBareName | backend/src/uploads/uploads.service.ts:94-97 | as written, a safe name over 255 characters with no extension is cut to exactly 255 |
| Uploads.AsWrittenExceedsLimitFor | backend/src/uploads/uploads.service.ts:94-97 | any safe, dot-free 300 characters after "a." sanitise to 301 characters, and sanitising that again changes it |
| Uploads.AsWrittenExceedsLimit | backend/src/uploads/uploads.service.ts:94-97 | "a." followed by 300 'x' sanitises to 301 characters, and sanitising that again changes it |
| Uploads.SanitizeFilename | backend/src/uploads/uploads.service.ts:86-100 | the corrected sanitiser: safe alphabet, no `/`, at most 255 characters, unchanged apart from replacement when short |
| Uploads.SanitizeIsIdempotent | backend/src/uploads/uploads.service.ts:86-100 | sanitising a sanitised name changes nothing |
| Uploads.SanitizeAgreesWhenExtensionFits | backend/src/uploads/uploads.service.ts:94-97 | the corrected and as-written sanitisers agree whenever the extension fits within 255 |
| Uploads.LongNameKeepsExtension | backend/src/uploads/uploads.service.ts:94-97 | a long name is cut to exactly 255 characters and ends with its extension |
| Uploads.ObjectKey | backend/src/uploads/uploads.service.ts:49-53 | `uploads/<companyId>/<uuid>-<name>` with a company, else `uploads/<uuid>-<name>` |
| Uploads.FileUrl | backend/src/uploads/uploads.service.ts:68-76 | the path-style URL under a custom endpoint, else the AWS virtual-host URL; either way it ends with the key |
| Uploads.GeneratePresignedUrl | backend/src/uploads/uploads.service.ts:30-84 | a content type off the allowed list gives BadRequest and no key; otherwise the key built from the as-written sanitised name, the URL and expiresIn 3600 |
| Uploads.KeyStaysInFolder | backend/src/uploads/uploads.service.ts:45-53 | whatever the file name, the key built from the as-written sanitiser stays inside its company folder |
| Uploads.KeyAgreesWhenExtensionFits | backend/src/uploads/uploads.service.ts:45-53 | when the extension fits within 255, the key is the one the corrected sanitiser gives |
| Uploads.AllowedFileTypes | backend/src/config/app.config.ts:9-14 | the environment's list when set, else the default list |
| Uploads.DefaultTypesGuard | backend/src/config/app.config.ts:9-14 | by default JPEG, PNG, WebP and PDF are allowed and `text/html` is not |
| Billing.MapStripePlanToDbPlan | backend/src/billing/billing.service.ts:231-238 | "starter", then "growth", then "enterprise" as substrings; Starter by default |
| Billing.SetCompanyStatus | backend/src/billing/billing.service.ts:160-169 | writes the status of an existing company and touches no other company; a missing one is an error with no write |
| Billing.Subject | backend/src/billing/billing.service.ts:155-211 | an invoice event is about the stored row its `subscription` field names, and that row is the answer; a subscription event is about the stored row with its own id; none otherwise |
| Billing.HandleWebhookSpec | backend/src/billing/billing.service.ts:134-229 | not configured: BadRequest; unknown types and unknown subscriptions change nothing; paid → active; failed → past_due; deleted → canceled with the subscription id cleared; updated copies Stripe's status; only the subject's company and the subject's row change |
| Billing.BillingStore.HandleWebhook | backend/src/billing/billing.service.ts:134-153 | the tables and answer are those of `HandleWebhookSpec` |
| Billing.BillingStore.HandleInvoice | backend/src/billing/billing.service.ts:155-189 | the paid and failed handlers: the stored subscription's company takes the status |
| Billing.BillingStore.HandleSubscriptionDeleted | backend/src/billing/billing.service.ts:191-205 | the company becomes canceled and loses its subscription id |
| Billing.BillingStore.HandleSubscriptionUpdated | backend/src/billing/billing.service.ts:207-229 | the row copies Stripe's status and period; the company takes the status |
| Billing.WebhookRedeliveryIsHarmless | backend/src/billing/billing.service.ts:134-229 | handling the same event twice gives the same tables as handling it once |
| Billing.CreateCustomerSpec | backend/src/billing/billing.service.ts:25-55 | BadRequest when not configured or for an unknown company; a stored customer id is returned with `existing` and nothing is created; otherwise the new id is stored |
| Billing.BillingStore.CreateCustomer | backend/src/billing/billing.service.ts:25-55 | the tables and answer are those of `CreateCustomerSpec` |
| Billing.CustomerIsReused | backend/src/billing/billing.service.ts:38-40 | once a customer is created, every later call returns it as existing |
| Billing.CreateSubscriptionSpec | backend/src/billing/billing.service.ts:57-132 | the error paths: no customer → BadRequest, keeping a customer id that was created; a taken subscription id → Conflict after the company was updated; company status `active` when Stripe reports active, else `trialing`; one subscription row with the mapped plan; other companies unchanged |
| Billing.BillingStore.CreateSubscription | backend/src/billing/billing.service.ts:57-132 | the tables and answer are those of `CreateSubscriptionSpec` |
| Billing.PaidInvoiceActivates | backend/src/billing/billing.service.ts:117-126 | after a subscription is created, an `invoice.paid` for it makes its company active |
| Auth.GenerateTokensSpec | backend/src/auth/auth.service.ts:340-372 | signs the claims and stores the refresh token with an expiry 7 days out; a reused token id is refused with no write |
| Auth.AuthStore.GenerateTokens | backend/src/auth/auth.service.ts:340-372 | the table and answer are those of `GenerateTokensSpec` |
| Auth.SignupSpec | backend/src/auth/auth.service.ts:30-82 | an existing e-mail is refused with no write; otherwise a Starter/trialing company with a 14-day trial and its ADMIN user are created together, the refresh token is stored unless its id is taken, and the answer is the company id, the user (no company id inside) and the signed tokens |
| Auth.TokensKeepDbValid | backend/src/auth/auth.service.ts:340-372 | issuing tokens keeps the store's invariant: ids below the next id, e-mails unique, each refresh token stored under its own value, invite tokens unique and one invite per company and e-mail |
| Auth.SignupKeepsDbValid | backend/src/auth/auth.service.ts:30-82 | signing up (a company, its admin and tokens) keeps that same invariant |
| Auth.SecondSignupRefused | backend/src/auth/auth.service.ts:34-40 | signing up twice with one e-mail creates one account |
| Auth.LoginSpec | backend/src/auth/auth.service.ts:84-118 | "Invalid credentials" with no write for an unknown user, a missing password or a wrong password; "Account is deactivated" with no write only after the password matched; on success the user's view, tokens signed with the user's claims, and exactly one refresh token stored |
| Auth.PresentedToken | backend/src/auth/auth.service.ts:121 | the body's token, else the cookie's |
| Auth.RefreshSpec | backend/src/auth/auth.service.ts:120-158 | Unauthorized when the token is missing, unknown, expired or its user is gone; for a live token, success iff the new token id is free; on success tokens signed with the user's claims, the old token deleted and the new one stored, nothing else changed |
| Auth.RotatedTokenIsRejected | backend/src/auth/auth.service.ts:150-157 | after a successful refresh the consumed token is refused |
| Auth.RefreshKeepsDbValid | backend/src/auth/auth.service.ts:120-158 | a refresh keeps the store's invariant |
| Auth.LogoutSpec | backend/src/auth/auth.service.ts:322-338 | with a token, deletes only that token of the user; without one, all of the user's tokens; nothing else changes |
| Auth.AuthStore.Logout | backend/src/auth/auth.service.ts:322-338 | the tables are those of `LogoutSpec`, and the message is "Logged out successfully" |
| Auth.LogoutEverywhere | backend/src/auth/auth.service.ts:331-335 | after a logout without a token, none of the user's refresh tokens works |
| Auth.LogoutKeepsDbValid | backend/src/auth/auth.service.ts:322-338 | a logout keeps the store's invariant |
| Auth.InviteOne | backend/src/auth/auth.service.ts:197-240 | `exists` for a registered e-mail and `pending` for an open invite, both with no write; Conflict with no write iff an accepted invite holds the pair or the token is taken; otherwise exactly one new 7-day invite and `sent` with its id |
| Auth.InviteUsersSpec | backend/src/auth/auth.service.ts:194-248 | one answer per e-mail, in list order; users, tokens and companies are untouched |
| Auth.InviteOneKeepsDbValid | backend/src/auth/auth.service.ts:197-240 | deciding one e-mail keeps the store's invariant: a new invite repeats no token and no company and e-mail pair |
| Auth.InviteUsersKeepsDbValid | backend/src/auth/auth.service.ts:194-248 | inviting a list keeps the store's invariant, whatever the outcome |
| Auth.AuthStore.InviteUsers | backend/src/auth/auth.service.ts:194-248 | the tables and answer are those of `InviteUsersSpec` |
| Auth.InvitedAreCovered | backend/src/auth/auth.service.ts:197-240 | after a successful call, every e-mail has an account or an open invite |
| Auth.CoveredSendsNothing | backend/src/auth/auth.service.ts:200-220 | on covered e-mails, a call sends no invite and writes nothing |
| Auth.ReinviteSendsNothing | backend/src/auth/auth.service.ts:194-248 | re-sending the same invitations creates nothing new |
| Auth.AcceptInviteSpec | backend/src/auth/auth.service.ts:250-320 | unknown token → NotFound; expired → BadRequest; accepted → BadRequest; no company → NotFound; user exists → BadRequest; when every check passes, the outcome is exactly `JoinCompany` |
| Auth.JoinCompany | backend/src/auth/auth.service.ts:288-320 | the new user (the invite's e-mail, role and company) and the accepted mark are committed whether or not tokens follow; success iff the token id is free, with the user's view and signed tokens; the refresh table and the next id in both cases; companies untouched |
| Auth.JoinKeepsDbValid | backend/src/auth/auth.service.ts:288-320 | joining keeps the store's invariant when no account has the invited e-mail |
| Auth.AcceptInviteKeepsDbValid | backend/src/auth/auth.service.ts:250-320 | accepting an invite keeps the store's invariant |
| Auth.AuthStore.Join | backend/src/auth/auth.service.ts:288-310 | the tables and answer are those of `JoinCompany` |
| Auth.MarkAccepted | backend/src/auth/auth.service.ts:300-303 | only the invite with that id gets `acceptedAt` |
| Auth.InviteIsSingleUse | backend/src/auth/auth.service.ts:264-271 | presenting an invite's token a second time is refused |
| Auth.AuthStore.Signup | backend/src/auth/auth.service.ts:30-82 | the tables and answer are those of `SignupSpec` |
| Auth.AuthStore.Login | backend/src/auth/auth.service.ts:84-118 | the tables and answer are those of `LoginSpec` |
| Auth.AuthStore.Refresh | backend/src/auth/auth.service.ts:120-158 | the tables and answer are those of `RefreshSpec` |
| Auth.AuthStore.AcceptInvite | backend/src/auth/auth.service.ts:250-320 | the tables and answer are those of `AcceptInviteSpec` |
| RateLimit.MakeConfig | backend/src/common/guards/rate-limit.guard.ts:11-27 | enabled iff a Redis URL is set; ttl defaults to 60 and max to 100 |
| RateLimit.RateKey | backend/src/common/guards/rate-limit.guard.ts:37-38 | `rate_limit:` + the user id, else the IP, else `anonymous` |
| RateLimit.CanActivateSpec | backend/src/common/guards/rate-limit.guard.ts:29-56 | no Redis or a failing increment allows the request (fail open); otherwise the counter goes up by one, the expiry is set only on the first increment, and the request is allowed iff the counter is at most max |
| RateLimit.RateLimitGuard.CanActivate | backend/src/common/guards/rate-limit.guard.ts:29-56 | the answer and Redis state are those of `CanActivateSpec` |
| RateLimit.OnlyFirstMaxPass | backend/src/common/guards/rate-limit.guard.ts:40-50 | in a fresh window, exactly the first `max` requests pass, and the counter equals the number of requests |
| RateLimit.WindowRestarts | backend/src/common/guards/rate-limit.guard.ts:41-44 | a window's first request sets the expiry, so the window ends and the count restarts at zero |
| RateLimit.LostExpiryOutlivesWindow | backend/src/common/guards/rate-limit.guard.ts:41-55 | when the `expire` call fails, the request passes but the counter never expires |
| Logging.SanitizeBody | backend/src/common/interceptors/logging.interceptor.ts:72-78 | a falsy body is returned as is; a truthy password or token becomes `[REDACTED]`; every other key is copied unchanged |
| Logging.NoSecretLogged | backend/src/common/interceptors/logging.interceptor.ts:75-76 | a logged body never shows a truthy password or token |
| Logging.SanitizeIsIdempotent | backend/src/common/interceptors/logging.interceptor.ts:72-78 | sanitising twice equals sanitising once |
| Logging.CorrelationId | backend/src/common/interceptors/logging.interceptor.ts:19 | the non-empty `x-correlation-id` header, else a fresh id |
| QuickIncidentForm.Errors | src/components/forms/QuickIncidentForm.tsx:68-74 | an error for a missing type, a missing severity, or a description under 10 characters, each iff its condition holds, with the source's messages |
| QuickIncidentForm.ValidForms | src/components/forms/QuickIncidentForm.tsx:68-76 | a form has no errors iff type and severity are chosen and the description has at least 10 characters |
| QuickIncidentForm.FormState.Validate | src/components/forms/QuickIncidentForm.tsx:68-77 | the stored errors are `Errors(formData)`, and it returns true iff there are none |
| QuickIncidentForm.AddPhotos | src/components/forms/QuickIncidentForm.tsx:34-44 | refused iff the count would exceed 5; otherwise the new files follow the existing ones in order |
| QuickIncidentForm.FormState.HandlePhotoUpload | src/components/forms/QuickIncidentForm.tsx:34-44 | a refused upload leaves the form unchanged and shows the toast; the photo limit is kept |
| QuickIncidentForm.RemovePhotoAt | src/components/forms/QuickIncidentForm.tsx:45-50 | removes exactly the i-th photo and keeps the others in order; an index out of range changes nothing |
| QuickIncidentForm.FormState.RemovePhoto | src/components/forms/QuickIncidentForm.tsx:45-50 | the form's photos become `RemovePhotoAt` of the old ones |
| QuickIncidentForm.RemoveUndoesAdd | src/components/forms/QuickIncidentForm.tsx:34-50 | removing the photo just added restores the list |
| QuickIncidentForm.FormState.HandleSubmit | src/components/forms/QuickIncidentForm.tsx:78-95 | an invalid form is not submitted; a valid one is handed on unchanged, with the online or queued toast |

## Left out

- Storage backends. The IndexedDB, Prisma/PostgreSQL, Redis and S3 services are the in-memory values above. Database errors other than the unique-key conflicts are not modelled.
- Timing, concurrency and dispatch:
  - `Promise.all` in `inviteUsers` and in the inspection transaction is modelled as a sequential pass.
  - Races between concurrent duplicate creates are left out.
  - So are the callers that trigger `processQueue` (page load and the `online` event, `src/App.tsx`).
- Opaque helpers. bcrypt, JWT signing, uuid generation, the presigned-URL signer and the Stripe API calls are parameters. This covers `paymentMethods.attach`, `customers.update`, `subscriptions.create` and the client secret.
- `Billing.CreateSubscriptionSpec`: the Stripe customer's e-mail and the payment method are not modelled, only whether a user exists.
- `Billing.CreateSubscriptionSpec`: the Stripe calls always answer. In the source, `paymentMethods.attach`, `customers.update` or `subscriptions.create` (billing.service.ts:87-105) can fail; the customer id stored by `createCustomer` (line 77) then stays, and no subscription is created. This partial write is not modelled.
- `Incidents.Paginate`: the `orderBy`, `skip`/`take` slicing and the `include`d relations of `findAll` are not modelled, only the where-clause and the pagination numbers.
- `Documents.FindByTitle`: ties between equal versions are in any order. The `findAll` listing of documents is left out, because it is a plain filtered query.
- `Auth.RefreshSpec` does not check `isActive`. The source does not either.
- `forgotPassword`, `resetPassword` and the SSO endpoints are placeholders in the source and are left out.
- Controllers, DTO validation, modules, configuration loading and the Role guard are left out.
- `RateLimit.MakeConfig`: the environment's strings arrive already parsed. A non-numeric value (`NaN`, which allows every request) is not modelled.
- `RateLimit.EndWindow`: Redis's clock is not modelled. The end of a window is an explicit step.
- Dates:
  - `setDate(+7)` and `+14` days are 7 and 14 × 86 400 000 ms, so daylight-saving shifts are ignored.
  - ISO date strings are integers.
- `Common.Lower` lower-cases ASCII letters only. Unicode case mapping is not modelled.
- `Uploads.ReplaceUnsafe`: a string is a sequence of code points, while the source's regular expression (no `u` flag) sees UTF-16 code units. A character outside the Basic Multilingual Plane becomes one `_` here and two in the source (`"\u{1F600}.png"` gives `"_.png"` here, `"__.png"` there).
- `Uploads.SanitizeFilenameAsWritten`: for the same reason, the 255 limit counts code points here and UTF-16 code units in the source.
- `QuickIncidentForm.Errors`: the 10-character minimum counts code points here, while `.length` counts UTF-16 code units, so five emoji count 5 here and 10 in the source.
- `Capas.FindAll` is a set of CAPAs: the `orderBy: { createdAt: 'desc' }` of the listing is not modelled.
- `Inspections.VisibleTemplates` keeps table order: the `orderBy: { createdAt: 'desc' }` of the template listing is not modelled.
- `Logging.SanitizeBody`: a body that is a non-object truthy value (a string or an array) is not modelled. A header sent twice (an array value) is not modelled either.
- `QuickIncidentForm.FormState.HandleSubmit` runs the 1-second `setTimeout` callback at once. The form reset and `captureLocation` (floating-point geolocation) are left out.
- A missing company in a Prisma `update` (error P2025) is `Internal("Record to update not found")`.
- Rendering, routing, toasts as UI, and the axios refresh interceptor are left out.

## Findings

| source | as written | input that shows it | evidently intended | confidence | as-written member | corrected member |
|---|---|---|---|---|---|---|
| backend/src/uploads/uploads.service.ts:94-97 | The name is cut to `255 - ext.length` characters and the extension appended. `substring` clamps a negative end to 0, so an extension longer than 255 is kept whole. | `"a." + 300 × 'x'` gives a 301-character name. Sanitising that again gives a different 255-character name. | Names are at most 255 characters, and sanitising is idempotent. | high, not executed | Uploads.AsWrittenExceedsLimit | Uploads.SanitizeFilename |
| backend/src/incidents/incidents.service.ts:102 | The listing filters by the query's `companyId` when one is given. | A caller in company 1 who sends `companyId=2` sees company 2's incidents. | Always the caller's company, as the row-level-security comment says. | medium, not executed | Incidents.ListWhereCrossesTenants | Incidents.ScopedListStaysInTenant |
