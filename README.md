# Mortgage-deed backend, modelled in Dafny

This project models the core of a FastAPI backend for digital mortgage deeds
("pantbrev") on apartments in Swedish housing cooperatives. A bank user
creates a deed for an apartment, with its borrowers and, optionally, the
cooperative's signers. The deed is then sent for signing. Every borrower
signs, then the cooperative's administrator signs, and the deed is
COMPLETED. Every step writes a row to an audit log. Other routes manage the
housing cooperatives, list and filter deeds, and compute statistics from the
deeds and the audit log.

The database becomes one object, `Store.Database`. Its fields are the tables
(cooperatives, deeds, borrowers, cooperative signers, audit log) held as
sequences in insertion order, plus the next row id. The request handlers
become methods that change those fields step by step, as the source's
handlers do. Each method's `ensures` ties the new tables and the appended
audit lines to specification functions of the old tables. The properties the
routes promise are proved as lemmas about those functions.

Modules follow the source files:

- `Audit`: `api/utils/audit.py`.
- `SupabaseUtils`: `api/utils/supabase_utils.py`.
- `Config`: `api/config.py`.
- `CooperativeSchemas`: `api/schemas/housing_cooperative.py`.
- `DeedSchemas`: `api/schemas/mortgage_deed.py`.
- `MortgageDeeds` and `DeedUpdate`: `api/routers/mortgage_deeds.py`. The second holds `update_mortgage_deed`.
- `Signing`: `api/routers/signing.py`.
- `HousingCooperatives`: `api/routers/housing_cooperative.py`.
- `Statistics`: `api/routers/statistics.py`.

Shared modules:

- `Common`: Option, Result and HTTP errors.
- `Text`: digits, Python's whitespace and strip, split and integer formatting.
- `Decimals`: the ownership share as the request's `Decimal` holds it, printed as `str()` of the decimal or `repr()` of the float.
- `Seqs`: filter, map and paging.
- `Dicts`: a Python dict built from a list, with insertion-ordered keys and the last value winning.
- `Store`: rows, lookups and the database class.
- `Reconciliation`: the remove/add/update diff shared by borrowers and signers.

Inputs the code cannot see become parameters:

- The clock is an integer `now`.
- The result of the i-th e-mail send is an oracle `delivery: nat -> bool`.
- A failing audit insert is an optional database failure.
- Whether `EmailStr` accepts an address, and the address it normalises it to, is a parameter `email: string -> Option<string>`.
- The caller is a record carrying an id, an e-mail, an optional person number and an optional bank id.

## Model

| member | source | states |
|---|---|---|
| Audit.LogEntry | api/utils/audit.py:24-32 | the payload carries action_type, user_id, entity_id and description exactly as passed, and has a deed_id key exactly when a deed id is given |
| Audit.RowFromEntry | api/utils/audit.py:34-38 | the stored row takes the id and timestamp the database assigns, and has a deed id exactly when the payload has a deed_id key |
| Audit.EntryRoundTrip | api/utils/audit.py:24-38 | the row stored from the payload gives back every argument of the call, deed id included |
| Audit.CreateAuditLog | api/utils/audit.py:5-38 | on success exactly one row is appended to the audit log and no other table changes; a failed insert raises the helper's error with detail "Failed to create audit log" and leaves the log unchanged |
| SupabaseUtils.HandleOperation | api/utils/supabase_utils.py:8-50 | success returns the result unchanged; PGRST116 is 404, 23505 is 409, any other database code or other exception is 500; the detail of every error is the caller's error_msg |
| Config.StrippedPieces | api/config.py:125 | the pieces kept are non-empty and stripped, never more than the pieces split |
| Config.AssembleCorsOrigins | api/config.py:119-126 | "*" and a list are returned as they are; any other string becomes a list of non-empty origins stripped of what Python counts as whitespace, Unicode spaces included |
| Config.StrippedPiecesAppend | api/config.py:125 | the comprehension keeps order: the result for two runs of pieces is the first's result followed by the second's |
| Config.StrippedPiecesSource | api/config.py:125 | every origin kept is the stripped form of some piece of the input |
| Config.StrippedPiecesKeep | api/config.py:125 | every piece whose stripped form is non-empty is kept |
| Text.Split | api/config.py:125 | splitting on a separator gives at least one piece, none containing the separator |
| Text.JoinSplit | api/config.py:125 | joining the pieces of a split with the separator gives back the input |
| Text.StripShape | api/schemas/housing_cooperative.py:75-81 | the stripped string is a slice of the input with only whitespace cut from both ends |
| Text.StripIdempotent | api/schemas/housing_cooperative.py:75-81 | stripping twice is stripping once |
| Text.IntToStringInjective | api/routers/signing.py:312 | distinct ids are formatted as distinct decimal strings in audit descriptions |
| Text.ParseNatToString | api/routers/signing.py:312 | the decimal text of a natural number parses back to that number |
| Decimals.Normalised | api/routers/mortgage_deeds.py:170 | dropping the zeros after the point keeps the value and leaves no trailing zero |
| Decimals.DecimalTextRoundTrip | api/routers/mortgage_deeds.py:637 | `str()` of the request's decimal reads back as exactly that decimal, digits and scale alike |
| Decimals.FloatTextRoundTrip | api/routers/mortgage_deeds.py:170-212 | the float text of a share reads back as a decimal of the same value |
| Decimals.CanonicalUnique | api/routers/mortgage_deeds.py:170 | two decimals with no trailing zero and the same value are the same decimal |
| Decimals.FloatTextCanonical | api/routers/mortgage_deeds.py:170-212 | shares of equal value print alike as floats, whatever digits the request's decimal holds |
| Decimals.FloatTextWhole | api/routers/mortgage_deeds.py:212 | a whole share prints with ".0", however many zeros followed its point: 50.00 prints "50.0" |
| CooperativeSchemas.ValidateOrganisationNumber | api/schemas/housing_cooperative.py:62-66 | accepted exactly when it is six digits, a dash and four digits, so exactly 11 characters; the value is returned unchanged |
| CooperativeSchemas.ValidatePostalCode | api/schemas/housing_cooperative.py:54-60 | accepted exactly when removing every space leaves five digits; the original string, spaces included, is returned |
| CooperativeSchemas.ValidateAdministratorPersonNumber | api/schemas/housing_cooperative.py:68-73 | accepted exactly when it is eight digits, an optional dash and four digits (12 or 13 characters); returned unchanged |
| CooperativeSchemas.NormaliseAdministratorCompany | api/schemas/housing_cooperative.py:75-81 | absent or all-whitespace (Python's whitespace, Unicode spaces included) gives None; a stripped length below 2 is a 422; otherwise the stripped string |
| CooperativeSchemas.NormaliseIdempotent | api/schemas/housing_cooperative.py:75-81 | normalising an accepted value again gives the same value |
| CooperativeSchemas.NormalisedShape | api/schemas/housing_cooperative.py:75-81 | a normalised company name is stripped and at least two characters long |
| CooperativeSchemas.ValidateCooperativeCreate | api/schemas/housing_cooperative.py:6-81 | accepted exactly when every length bound and every format check holds and `EmailStr` accepts the administrator e-mail (422 otherwise); the result is the request with its company name normalised and the e-mail as `EmailStr` normalises it |
| CooperativeSchemas.ValidateCooperativeUpdate | api/schemas/housing_cooperative.py:86-106 | accepted exactly when the set fields meet their length bounds, the company normaliser and, for a set e-mail, `EmailStr`; only the company and the e-mail change, the postal code is passed on as given, and set or unset stays as it was |
| CooperativeSchemas.UpdateSkipsFormats | api/schemas/housing_cooperative.py:86-106 | an update model accepts any postal code and any administrator person number: the formats are not checked there |
| DeedSchemas.ParseStatus | api/schemas/mortgage_deed.py:9-14 | a name is parsed only into the status it names |
| DeedSchemas.ParseStatusName | api/schemas/mortgage_deed.py:9-14 | the four status names parse back to their status, so the statuses are exactly these four |
| DeedSchemas.ValidateBorrower | api/schemas/mortgage_deed.py:32-42 | accepted exactly when the person number is 12 digits and 0 < ownership_percentage <= 100; 422 otherwise |
| DeedSchemas.ValidateDeedCreate | api/schemas/mortgage_deed.py:59-74 | accepted exactly when every borrower is valid and the percentages sum to 100 within 0.01; 422 otherwise |
| DeedSchemas.ValidateDeedUpdate | api/schemas/mortgage_deed.py:103-118 | the sum rule applies only to a non-empty borrower list; absent and empty lists pass |
| DeedSchemas.ValidateSignRequest | api/schemas/mortgage_deed.py:120-127 | accepted exactly when the person number is 12 digits |
| DeedSchemas.CreateNeedsBorrowers | api/schemas/mortgage_deed.py:69-74 | an accepted deed has at least one borrower and a share total between 99.99 and 100.01 |
| DeedSchemas.CreateIgnoresSigners | api/schemas/mortgage_deed.py:49-74 | the signer list plays no part in accepting a deed: signers have no format checks |
| DeedSchemas.UpdateWithoutBorrowersPasses | api/schemas/mortgage_deed.py:112-118 | an update with no borrower list or an empty one always passes the sum rule |
| Store.Single | api/utils/supabase_utils.py:31-35 | `.single()` gives a row exactly when the query matched one row |
| Store.LookupAfterSetStatus | api/routers/signing.py:162-168 | after a status update the deed is found with the new status and otherwise unchanged |
| Store.AppendedTrans | api/utils/audit.py:34-38 | audit lines appended by two calls in a row are the first call's lines followed by the second's |
| Store.Database.FreshId | api/utils/audit.py:34-38 | each insert takes the next id and advances the counter by one |
| Signing.AllBorrowersSigned | api/routers/signing.py:111-128 | true exactly when every borrower row of the deed has a signature timestamp; true when there are none |
| Signing.AllSignersSigned | api/routers/signing.py:130-147 | true exactly when every signer row of the deed has a signature timestamp; true when there are none |
| Signing.StampedBorrowersComplete | api/routers/signing.py:441-460 | after stamping one person's rows, all borrowers have signed exactly when every other borrower of the deed had signed before |
| Signing.StampedSignersComplete | api/routers/signing.py:545-566 | after stamping one administrator's rows, all signers have signed exactly when every other signer of the deed had signed before |
| Signing.UpdateDeedStatus | api/routers/signing.py:149-177 | the deed's stored status becomes the new status, whatever it was, and exactly one STATUS_CHANGED_TO_ line is appended |
| Signing.NotifyBorrowers | api/routers/signing.py:323-348 | the flag is true exactly when every borrower's e-mail was sent; a missing cooperative with any borrower is a 500 |
| Signing.InitiateSigning | api/routers/signing.py:306-321 | SIGNING_INITIATED is appended, then the status becomes PENDING_BORROWER_SIGNATURE with its status-change line |
| Signing.NotifyAndRecord | api/routers/signing.py:323-366 | NOTIFICATIONS_SENT is appended exactly when every e-mail was sent, NOTIFICATION_FAILURE otherwise |
| Signing.DeedReply | api/schemas/mortgage_deed.py:76-101 | a deed read back is sent, unchanged, exactly when it has every field of MortgageDeedResponse, a bank id, and an embedded cooperative (if any) with its name, address, postal code and city; otherwise the 500 of the failed response check |
| Signing.SendForSigningReplyAsWritten | api/routers/signing.py:367-377 | the read-back as written lacks housing_cooperative_signers, so the reply is always the 500 |
| Signing.SendForSigningReply | api/routers/signing.py:367-377 | with the signers read back too, a row that passes the response model's field types is replied as the deed itself |
| Signing.SendForSigning | api/routers/signing.py:289-377 | an unknown deed is a 404 and nothing changes; any other deed, even a COMPLETED one, becomes PENDING_BORROWER_SIGNATURE, with SIGNING_INITIATED, the status change and the notification line appended in that order; the deed read back with its signers is returned exactly when it has a bank id and its cooperative, if any, has every required field, and is otherwise the 500 of the response model |
| Signing.BorrowerSignCaseOf | api/routers/signing.py:391-460 | decides the case of a borrower signature: unknown deed, wrong status, no single matching borrower, already signed, or recorded, with "complete" exactly when every borrower is signed afterwards |
| Signing.BorrowerSignReply | api/routers/signing.py:399-493 | wrong status and a repeat signature are 409, no such deed or borrower is 404; a recorded signature reports PENDING_HOUSING_COOPERATIVE_SIGNATURE exactly when all borrowers have signed |
| Signing.BorrowerSign | api/routers/signing.py:384-493 | a malformed person number is a 422 with nothing changed; otherwise the deed, borrowers and audit log change exactly as the case decides |
| Signing.SignAsBorrower | api/routers/signing.py:399-493 | rejections append their audit line only; a recorded signature stamps only that borrower and moves the deed on exactly when all borrowers have signed |
| Signing.RecordBorrowerSignature | api/routers/signing.py:440-476 | only that borrower's timestamp changes; the status becomes PENDING_HOUSING_COOPERATIVE_SIGNATURE exactly when all borrowers are now signed |
| Signing.CompleteBorrowerSigning | api/routers/signing.py:460-476 | ALL_BORROWERS_SIGNED and the status change are appended and the deed moves to PENDING_HOUSING_COOPERATIVE_SIGNATURE |
| Signing.SecondBorrowerSignatureRejected | api/routers/signing.py:399-438 | signing again after a recorded signature is refused, as a repeat or, once all have signed, for the status |
| Signing.AdminSignCaseOf | api/routers/signing.py:507-566 | decides the case of an administrator signature: unknown deed or cooperative, wrong status, wrong administrator, or recorded, with "complete" exactly when every signer is signed afterwards |
| Signing.CompletionSignatureAsWritten | api/routers/signing.py:229-238 | the completion notice reads the administrator signature with `.single()`: it succeeds only with exactly one signer row |
| Signing.CompletionSignature | api/routers/signing.py:229-248 | the intended reading: the signature when there is exactly one row, otherwise none, and no error |
| Signing.AdminSignReplyAsWritten | api/routers/signing.py:564-599 | a completing signature whose deed does not have exactly one signer row ends in a 404 |
| Signing.AdminSignReply | api/routers/signing.py:516-599 | wrong status is 409, wrong administrator 403, unknown deed or cooperative 404; a recorded signature reports COMPLETED exactly when all signers have signed |
| Signing.AdminSignWithoutSignersAsWritten | api/routers/signing.py:564-599 | with no signer rows the administrator's signature completes the deed, yet the reply as written is a 404 while the intended reply succeeds |
| Signing.OtherSignerBlocksCompletion | api/routers/signing.py:564-566 | an unsigned signer row of another person keeps the deed from completing |
| Signing.CooperativeAdminSign | api/routers/signing.py:500-599 | a malformed person number is a 422 with nothing changed; otherwise deed, signers and audit log change exactly as the case decides |
| Signing.SignAsAdministrator | api/routers/signing.py:516-599 | rejections append ADMIN_SIGNATURE_INVALID_STATUS or ADMIN_SIGNATURE_WRONG_ADMIN only; a recorded signature stamps the matching signer rows and sets COMPLETED exactly when all signers have signed, before any notice |
| Signing.LogAdminRejection | api/routers/signing.py:517-542 | a refused administrator signature appends exactly its one audit line |
| Signing.CompleteAdministratorSigning | api/routers/signing.py:566-581 | ALL_ADMINISTRATORS_SIGNED and the status change are appended and the deed becomes COMPLETED |
| Signing.RecordAdministratorSignature | api/routers/signing.py:544-581 | only the matching signer rows are stamped; COMPLETED exactly when all signers are now signed |
| Signing.SigningOrder | api/routers/signing.py:399-527 | a borrower signature succeeds only in PENDING_BORROWER_SIGNATURE and an administrator signature only in PENDING_HOUSING_COOPERATIVE_SIGNATURE |
| MortgageDeeds.DeedWithRelations | api/routers/mortgage_deeds.py:35-67 | the deed is found exactly when its id exists (404 with the given message otherwise), with exactly its borrowers, its signers and its cooperative |
| MortgageDeeds.VerifyDeedAccessAsWritten | api/routers/mortgage_deeds.py:69-91 | on a deed with a cooperative, access is granted exactly when the caller is a borrower, has the administrator's person number (None equal to None) or is a user of the deed's bank; every refusal is 403 |
| MortgageDeeds.VerifyDeedAccess | api/routers/mortgage_deeds.py:69-91 | the intended rule: on a deed with a cooperative, access is granted exactly when the caller is a borrower, the administrator by a person number they have, or a user of the deed's bank, otherwise 403; anyone let in has a person number or belongs to the bank |
| MortgageDeeds.AccessRulesAgreeElsewhere | api/routers/mortgage_deeds.py:80-91 | the rules differ only for a caller without a person number on a deed whose cooperative has no administrator person number |
| MortgageDeeds.AccessWithoutPersonNumberAsWritten | api/routers/mortgage_deeds.py:84-91 | as written such a caller, neither borrower nor bank user, is let in; the intended rule refuses it |
| MortgageDeeds.AccessNotAdministratorOnly | api/routers/mortgage_deeds.py:489-514 | the check update and delete run admits a borrower of the deed who is not the cooperative's administrator, and a user of the deed's bank, although both routes are described as for administrators only |
| MortgageDeeds.DeedViewReply | api/schemas/mortgage_deed.py:76-101 | a deed with its relations is sent, unchanged, exactly when its bank id is set and its embedded cooperative, if any, has name, address, postal code and city; otherwise the unhandled 500 |
| MortgageDeeds.GetMortgageDeed | api/routers/mortgage_deeds.py:450-475 | a deed is returned exactly when it exists, the caller passes the access rule and the row passes MortgageDeedResponse (a bank id, and a cooperative with name, address, postal code and city), and it is the stored one with its relations; a refused row is the unhandled 500; an unknown deed is a 404 |
| MortgageDeeds.ValidateListQuery | api/routers/mortgage_deeds.py:283-285 | page >= 1, page_size <= 100 and sort order asc or desc, 422 otherwise |
| MortgageDeeds.CreditNumberList | api/routers/mortgage_deeds.py:346-348 | the credit-number filter is the comma-separated pieces, each stripped of Python's whitespace |
| MortgageDeeds.FloorDiv | api/routers/mortgage_deeds.py:395 | Python's floor division, for either sign of the divisor |
| MortgageDeeds.ListPage | api/routers/mortgage_deeds.py:325-422 | at most page_size deeds, each of the caller's bank and passing every filter; the total counts the filtered deeds and the pages are (total + page_size - 1) div page_size |
| MortgageDeeds.ListMortgageDeeds | api/routers/mortgage_deeds.py:271-431 | a sort field outside created_at, status, apartment_number is a 400; a borrower filter nobody matches gives []; a caller without a bank id gets [] from the borrower filter or the 500 of the failed count; otherwise the page of the caller's bank, every deed on it passing MortgageDeedResponse, or the 500 "Failed to fetch mortgage deeds" when some deed on the page fails it |
| MortgageDeeds.ListedDeedsMatch | api/routers/mortgage_deeds.py:331-363 | every listed deed belongs to the caller's bank and passes every filter |
| MortgageDeeds.PageWithinCount | api/routers/mortgage_deeds.py:395-404 | the range of page p starts inside the filtered deeds exactly when p is at most the reported page count |
| MortgageDeeds.BorrowerRows | api/routers/mortgage_deeds.py:196-203 | one borrower row per requested borrower, in order, with its fields and the new deed's id |
| MortgageDeeds.SignerRows | api/routers/mortgage_deeds.py:216-225 | one signer row per requested signer, in order, with its fields and the new deed's id |
| MortgageDeeds.LookupNewDeed | api/routers/mortgage_deeds.py:173-184 | the inserted deed is found under its new id |
| MortgageDeeds.CreateMortgageDeed | api/routers/mortgage_deeds.py:127-244 | an invalid request is a 422 and an unknown cooperative a 404, with nothing written; otherwise the deed, its borrowers and its signers are inserted with their audit lines and read back, and the reply is that deed exactly when the caller has a bank id and the cooperative has name, address, postal code and city: a caller without a bank id gets the unhandled 500 after every write |
| MortgageDeeds.CreateRecords | api/routers/mortgage_deeds.py:172-235 | the new deed takes the next id, and the deed, borrowers, signers and audit lines are those of the request |
| MortgageDeeds.InsertDeedAndBorrowers | api/routers/mortgage_deeds.py:172-214 | one deed row and one row per borrower are appended, each followed by its audit line |
| MortgageDeeds.InsertDeed | api/routers/mortgage_deeds.py:172-194 | the deed row is appended with the caller as creator and bank, then DEED_CREATED |
| MortgageDeeds.InsertBorrowers | api/routers/mortgage_deeds.py:196-214 | each borrower is appended in order, followed by its BORROWER_ADDED line, whose share is printed as Python prints the float stored |
| MortgageDeeds.InsertSigners | api/routers/mortgage_deeds.py:216-235 | each signer is appended in order, followed by its COOPERATIVE_SIGNER_ADDED line |
| MortgageDeeds.CreatedDeedView | api/routers/mortgage_deeds.py:237-244 | reading the created deed back gives exactly the request's deed, borrowers and signers |
| MortgageDeeds.DeleteMortgageDeed | api/routers/mortgage_deeds.py:816-893 | an unknown deed is a 404 and a refused caller a 403, with nothing changed; otherwise the cascade happens |
| MortgageDeeds.DeleteCascade | api/routers/mortgage_deeds.py:836-893 | DEED_DELETION_INITIATED is appended, the deed's audit rows lose their deed id, its borrowers, signers and the deed are removed, and DEED_DELETED is appended without a deed id |
| MortgageDeeds.DeletedDeedLeavesNoTrace | api/routers/mortgage_deeds.py:846-893 | after a delete no deed, borrower, signer or audit row refers to the deed, and the log grew by exactly two rows |
| DeedUpdate.UpdatedDeed | api/routers/mortgage_deeds.py:517-536 | each given column takes the new value, the others keep theirs; with no column given the deed is unchanged |
| DeedUpdate.LookupAfterUpdate | api/routers/mortgage_deeds.py:528-536 | after the column update the deed is found with the updated columns |
| DeedUpdate.BorrowerRevisesByKey | api/routers/mortgage_deeds.py:612-629 | a borrower update touches only the deed's row with that person number and keeps its person number |
| DeedUpdate.ExistingKeys | api/routers/mortgage_deeds.py:551-563 | the keys of the fetched rows are the keys of the deed's rows in the table |
| DeedUpdate.AddedBorrowersKeys | api/routers/mortgage_deeds.py:641-658 | the inserted borrowers belong to the deed, are unsigned and carry exactly the keys to add |
| DeedUpdate.AddedSignersKeys | api/routers/mortgage_deeds.py:762-778 | the inserted signers belong to the deed, are unsigned and carry exactly the keys to add |
| DeedUpdate.ReconciledBorrowerKeys | api/routers/mortgage_deeds.py:548-669 | after reconciliation the deed's borrower person numbers are exactly the requested ones; other deeds' borrowers are untouched |
| DeedUpdate.EmptyBorrowerListRemovesAll | api/routers/mortgage_deeds.py:549-610 | an empty borrower list removes every borrower of the deed |
| DeedUpdate.AddedBorrowersAgree | api/routers/mortgage_deeds.py:641-650 | each inserted borrower has the name and share of the last request entry with its person number |
| DeedUpdate.BorrowerRowsAgree | api/routers/mortgage_deeds.py:641-650 | each row built for insertion has the name and share of its request entry |
| DeedUpdate.ReconciledBorrowersMatchRequest | api/routers/mortgage_deeds.py:548-669 | when the deed has one borrower row per person number, every borrower of the deed afterwards has a requested person number and the name and share of its last request entry |
| DeedUpdate.SignerRevisesByKey | api/routers/mortgage_deeds.py:734-750 | a signer update touches only the deed's row with that person number and changes only the name |
| DeedUpdate.ReconciledSignerKeys | api/routers/mortgage_deeds.py:671-789 | afterwards the deed's signer person numbers are exactly the requested ones; other deeds' signers are untouched |
| DeedUpdate.AddedSignersAgree | api/routers/mortgage_deeds.py:762-770 | each inserted signer has the fields of the last request entry with its person number |
| DeedUpdate.SignerRowsAgree | api/routers/mortgage_deeds.py:762-770 | each signer row built for insertion has the fields of its request entry |
| DeedUpdate.ReconciledSignersMatchRequest | api/routers/mortgage_deeds.py:684-760 | when the deed has one signer row per person number, every signer of the deed afterwards has a requested person number and the administrator name of its last request entry; other changed fields are ignored |
| DeedUpdate.RecordAll | api/routers/mortgage_deeds.py:591-600 | the loop appends exactly the given audit lines, one id each |
| DeedUpdate.UpdateBorrowerRows | api/routers/mortgage_deeds.py:612-639 | each update rewrites the deed's row with that person number and appends its BORROWER_UPDATED line, whose share is `str()` of the request's decimal |
| DeedUpdate.ReconcileBorrowerRows | api/routers/mortgage_deeds.py:548-669 | the borrowers become the reconciled table and the removal, update and addition lines are appended in that order |
| DeedUpdate.RemoveAndReviseBorrowers | api/routers/mortgage_deeds.py:589-639 | removed person numbers leave the deed, updated ones are rewritten, with BORROWER_REMOVED then BORROWER_UPDATED lines |
| DeedUpdate.InsertBorrowers | api/routers/mortgage_deeds.py:641-669 | the new borrower rows are appended in order, then a BORROWER_ADDED line for each, its share printed as Python prints the float stored |
| DeedUpdate.ApplyBorrowerDiff | api/routers/mortgage_deeds.py:589-669 | the borrower table becomes the diff applied to it and the lines of the three groups are appended in order |
| DeedUpdate.UpdateSignerRows | api/routers/mortgage_deeds.py:734-760 | each update rewrites the deed's signer with that person number and appends its COOPERATIVE_SIGNER_UPDATED line |
| DeedUpdate.ReconcileSignerRows | api/routers/mortgage_deeds.py:671-789 | the signers become the reconciled table and the removal, update and addition lines are appended in order |
| DeedUpdate.RemoveAndReviseSigners | api/routers/mortgage_deeds.py:711-760 | removed person numbers leave the deed, updated ones are rewritten, with their lines |
| DeedUpdate.InsertSigners | api/routers/mortgage_deeds.py:762-789 | the new signer rows are appended in order, then a COOPERATIVE_SIGNER_ADDED line for each |
| DeedUpdate.ApplySignerDiff | api/routers/mortgage_deeds.py:711-789 | the signer table becomes the diff applied to it and the lines of the three groups are appended in order |
| DeedUpdate.UpdateColumns | api/routers/mortgage_deeds.py:527-546 | given columns are written and DEED_UPDATED appended; with none nothing changes |
| DeedUpdate.BorrowerPart | api/routers/mortgage_deeds.py:548-669 | a given borrower list is reconciled; an absent one leaves borrowers and log alone |
| DeedUpdate.SignerPart | api/routers/mortgage_deeds.py:671-789 | a given signer list is reconciled; an absent one leaves signers and log alone |
| DeedUpdate.ApplyLists | api/routers/mortgage_deeds.py:548-789 | borrowers then signers are reconciled, the borrower lines before the signer lines |
| DeedUpdate.ApplyUpdate | api/routers/mortgage_deeds.py:527-789 | columns, borrowers and signers are written in that order, with their audit lines in that order |
| DeedUpdate.UpdateMortgageDeed | api/routers/mortgage_deeds.py:492-798 | 422, then 404, then 403, then 400 when nothing is to be updated, then 500 for an unknown new cooperative, each with nothing written; otherwise all writes happen and the deed is read back, and the reply is the updated deed exactly when it has a bank id and its cooperative, if any, has every required field, else the unhandled 500 after the writes |
| Reconciliation.ReconcileRemoves | api/routers/mortgage_deeds.py:561-572 | the removals are exactly the existing keys absent from the request, each once, with the row the dictionary kept |
| Reconciliation.ReconcileAdds | api/routers/mortgage_deeds.py:564-578 | the additions are exactly the requested keys not yet present, each once, with the last request entry for it |
| Reconciliation.ReconcileUpdates | api/routers/mortgage_deeds.py:580-587 | the updates are exactly the keys on both sides whose request differs from the existing row |
| Reconciliation.ReconcileDisjoint | api/routers/mortgage_deeds.py:568-587 | no key is in two of the three groups |
| Reconciliation.FilterDictKeys | api/routers/mortgage_deeds.py:561-578 | filtering the dictionary keeps exactly the keys whose last value passes |
| Reconciliation.ReviseAllKeys | api/routers/mortgage_deeds.py:612-629 | updates keep the set of the deed's keys and touch no other row's key |
| Reconciliation.ReviseAllKeeps | api/routers/mortgage_deeds.py:612-629 | a row whose key is not updated is left as it was |
| Reconciliation.ReviseAllLast | api/routers/mortgage_deeds.py:612-629 | a row whose key is updated ends with that update applied |
| Reconciliation.AppliedKeys | api/routers/mortgage_deeds.py:589-669 | after removing, updating and adding, the deed's keys are exactly the requested keys |
| Reconciliation.AppliedKeepsRow | api/routers/mortgage_deeds.py:580-612 | a row present in both lists with nothing changed is kept as it was |
| Reconciliation.AppliedAgrees | api/routers/mortgage_deeds.py:580-669 | when the deed has one row per key, every row of the deed afterwards agrees with the last request entry with its key |
| Reconciliation.AppliedAddsOnlyMine | api/routers/mortgage_deeds.py:641-658 | rows of other deeds are only ever kept, never added |
| HousingCooperatives.GetCooperativeByOrgNumber | api/routers/housing_cooperative.py:34-80 | found exactly when one row has the number, and it is that row; otherwise 404 |
| HousingCooperatives.UniqueSelection | api/routers/housing_cooperative.py:51-60 | with unique numbers the lookup's query matches exactly that row |
| HousingCooperatives.EveryCooperativeFound | api/routers/housing_cooperative.py:34-68 | with unique numbers every stored cooperative is found by its number |
| HousingCooperatives.CooperativeReply | api/schemas/housing_cooperative.py:5-109 | a row is sent exactly when it passes the response model's checks again (required fields present, the create formats, the company normaliser, `EmailStr`); otherwise the unhandled 500 |
| HousingCooperatives.CreateHousingCooperative | api/routers/housing_cooperative.py:98-150 | an invalid request is a 422 and a taken number a 409, with nothing written; otherwise one row with the caller as creator and one COOPERATIVE_CREATED line are appended, and the reply is that row through the response model, which it passes whenever `EmailStr` accepts the addresses it normalised |
| HousingCooperatives.CreatedCooperativeFound | api/routers/housing_cooperative.py:104-131 | the duplicate check keeps numbers unique, and the new cooperative is found by its number |
| HousingCooperatives.CreatedRowReplies | api/routers/housing_cooperative.py:121-150 | a row inserted from an accepted create body passes the response model when `EmailStr` accepts the addresses it normalises |
| HousingCooperatives.CeilDiv | api/routers/housing_cooperative.py:210 | the page count is the least count whose pages hold every row |
| HousingCooperatives.ListHousingCooperatives | api/routers/housing_cooperative.py:171-227 | page >= 1 and 1 <= page_size <= 100, else 422; the rows are those from offset (page-1)*page_size of the table newest first, each passing the response model; a page holding a row the response model refuses is the 500 "Failed to list housing cooperatives"; headers are set only for a non-empty page |
| HousingCooperatives.ListedNewestFirst | api/routers/housing_cooperative.py:196 | on a table in id order the page is in descending id order |
| HousingCooperatives.PageHasRows | api/routers/housing_cooperative.py:180-210 | a page has rows exactly when its number is at most the page count |
| HousingCooperatives.PatchedCooperative | api/routers/housing_cooperative.py:269-303 | every explicitly set field takes its value, explicit nulls included; unset fields, id and number stay |
| HousingCooperatives.PatchKeepsKeys | api/routers/housing_cooperative.py:298-303 | the update keeps every row's id and number, so the patched row is the one found |
| HousingCooperatives.UpdateHousingCooperative | api/routers/housing_cooperative.py:261-329 | 422, then 404 for an unknown number; an empty update returns the stored row through the response model with no write and no audit; otherwise the set fields are written, COOPERATIVE_UPDATED appended, and the patched row goes through the response model, a 500 when it fails it |
| HousingCooperatives.UpdatedCooperativeFound | api/routers/housing_cooperative.py:298-329 | after the update the number finds the patched row, and numbers stay unique |
| HousingCooperatives.NormalisedCompanyValid | api/schemas/housing_cooperative.py:75-81 | a company name the normaliser accepted passes the response model's length bound and normaliser again once normalised |
| HousingCooperatives.PatchedRowReplies | api/routers/housing_cooperative.py:282-329 | an accepted update of a valid row passes the response model exactly when it sets no required field to null and keeps the postal code and administrator person number formats |
| HousingCooperatives.DeleteHousingCooperative | api/routers/housing_cooperative.py:345-395 | an unknown number is a 404, a cooperative any deed refers to a 409, with nothing changed; otherwise COOPERATIVE_DELETED is appended and the row removed |
| HousingCooperatives.DeletedCooperativeGone | api/routers/housing_cooperative.py:352-395 | after a delete the number is no longer found and every deed's cooperative is still there |
| HousingCooperatives.OnlyCooperativeWithOrgNumber | api/routers/housing_cooperative.py:352-392 | a found cooperative is the only row with its number, so the delete removes only it |
| HousingCooperatives.KeptCooperativeLookup | api/routers/housing_cooperative.py:385-392 | the delete leaves every other cooperative's lookup by id unchanged |
| Statistics.StatusDistribution | api/routers/statistics.py:56-60 | each status that occurs is counted once with its number of rows, and the counts sum to the number of rows |
| Statistics.AverageBorrowers | api/routers/statistics.py:62-70 | zero when there are no deeds, otherwise borrowers divided by deeds |
| Statistics.GetStatsSummary | api/routers/statistics.py:36-82 | the totals are the table sizes; the distribution has one key per status some deed has and no other, every status has the number of deeds in it, and the counts sum to the deeds |
| Statistics.StatusCounted | api/routers/statistics.py:57-60 | counting status names counts the deeds with that status |
| Statistics.RemoveAll | api/routers/statistics.py:142 | removing every occurrence of a pattern never lengthens the string |
| Statistics.RemoveAllAbsent | api/routers/statistics.py:142 | a string without the pattern is unchanged |
| Statistics.PrefixStripped | api/routers/statistics.py:142 | the label of "STATUS_CHANGE_TO_" followed by x is the label of x |
| Statistics.WrittenActionsKeepTheirName | api/routers/statistics.py:142 | the STATUS_CHANGED_TO_ actions the audit writer emits pass through the label unchanged |
| Statistics.SamplesSplit | api/routers/statistics.py:127-131 | a change of deed resets the pairing: the durations of two deeds' runs are those of each run |
| Statistics.Grouped | api/routers/statistics.py:137-139 | the groups have distinct labels |
| Statistics.GroupedByLabel | api/routers/statistics.py:122-153 | the labels reported are exactly those of some duration, and each group holds that label's durations in order, never empty |
| Statistics.Min | api/routers/statistics.py:149 | the minimum is one of the durations and at most each |
| Statistics.Max | api/routers/statistics.py:150 | the maximum is one of the durations and at least each |
| Statistics.SumBounds | api/routers/statistics.py:148 | the sum of durations lies between count times the least and count times the greatest bound |
| Statistics.MeanBetween | api/routers/statistics.py:148-150 | the average lies between the minimum and the maximum |
| Statistics.StatsOf | api/routers/statistics.py:145-153 | a label's figures are its minimum and maximum, both durations it has, and an average between them that times the count is the sum |
| Statistics.GroupedUpToMatches | api/routers/statistics.py:127-142 | the loop's groups after i rows are the grouping of the durations of the first i rows |
| Statistics.GetStatusDurationStats | api/routers/statistics.py:102-158 | no logs gives []; otherwise one entry per label with durations, with its figures |
| Statistics.CollectDurations | api/routers/statistics.py:122-142 | the loop collects exactly the grouped durations of consecutive rows of the same deed |
| Statistics.CollectRow | api/routers/statistics.py:127-142 | one row of the loop: a new deed resets the state, otherwise the duration since the previous row goes to the previous label |
| Statistics.EntryFor | api/routers/statistics.py:214-216 | a date not yet present starts at zero counts |
| Statistics.SortPermutes | api/routers/statistics.py:228-229 | sorting by date is a permutation |
| Statistics.SortAscending | api/routers/statistics.py:228-229 | with distinct dates the sorted timeline is strictly ascending by date |
| Statistics.BeforeTotal | api/routers/statistics.py:229 | any two distinct dates are ordered one way or the other |
| Statistics.BeforeTransitive | api/routers/statistics.py:229 | the date order is transitive |
| Statistics.GetTimelineStats | api/routers/statistics.py:178-234 | each date of either series appears exactly once, with the last count of each series for it and 0 where absent, sorted by date |
| Statistics.MergeNew | api/routers/statistics.py:211-217 | the new-deed series gives one entry per date with its last count and no completions |
| Statistics.MergeCompleted | api/routers/statistics.py:219-225 | the completion series is merged in, keeping the new-deed counts and adding dates not yet present |

## Left out

- Network and infrastructure: the Supabase client, its query builder and the connection manager (`api/config.py:22-92`). The tables are in-memory fields instead.
- E-mail delivery and template rendering. Each send is an oracle boolean.
- Token checking. The caller is a given record.
- The dead helper `notify_parties`, which nothing calls.
- The `get_housing_cooperative_details` route. It only returns what `GetCooperativeByOrgNumber` finds.
- The `get_deeds_pending_signature` route. Its selection is a server-side `or_` filter evaluated by the database.
- The `audit_logs` router and the `get_daily_*` database functions. Their outputs are inputs to `Statistics.GetTimelineStats`.
- Database failures inside the handlers. `SupabaseUtils.HandleOperation` and `Audit.CreateAuditLog` model a failed call on their own, but every handler takes each audit insert and every other database call to succeed; only `.single()` lookups fail, their 0 or several rows being a 404. So the source's 500 "Failed to create audit log" in the middle of a request, after its earlier writes, is not modelled.
- Races between concurrent requests. In particular two final signatures at once are not modelled: the handlers run one at a time.
- Floating point:
  - Ownership percentages are exact decimals, and their conversion to float is taken as exact: the 0.01 tolerance and the update's float comparison of shares are exact, and no binary rounding shows in the printed shares.
  - Averages are exact reals, not rounded to two decimals.
  - Durations are integer timestamp differences, not hours.
  - Timestamps are integers and dates are strings ordered character by character, as ISO dates sort.
- Regular expressions: digits are '0'..'9' only. Unicode digits and `$` before a trailing newline are not modelled.
- List ordering done by the database: `sort_by` is only checked against its allow-list, and `sort_order` is only validated. The deeds are listed in table order.
- The `housing_cooperative_name` `ilike` filter of the deed listing. It filters the embedded cooperative, not the deeds.
- The listing's `bank_id` query parameter. It is ignored, as in the source.
- The e-mail format of a borrower (`EmailStr`). E-mail addresses are plain strings.
- DeedSchemas.BorrowerCreate: the share is the `Decimal` the request model holds. How the JSON number becomes it is not modelled: a number with a point passes through a float first, so its digits are those of the float's `repr()`.
- Decimals.DecimalText: no exponent form. Python's `str()` of a `Decimal` uses one for a value below 1e-6 or a number written with an exponent; validation excludes neither.
- Decimals.FloatText: no exponent form and no rounding. Python's `repr()` of a float uses the exponent form below 1e-4 and keeps at most 17 significant digits.
- DeedUpdate.InsertBorrowers: the BORROWER_ADDED line of an update prints the share of the row the insert returns. The type of that database column is not part of this model, which prints the share as the float written.
- MortgageDeeds.GetMortgageDeed: checks access with the corrected rule `VerifyDeedAccess`, so a caller with no person number is never taken for an administrator without one. The rule as written is `VerifyDeedAccessAsWritten` (see Findings).
- MortgageDeeds.DeleteMortgageDeed: checks access with the corrected rule `VerifyDeedAccess`, as `GetMortgageDeed` does.
- The route descriptions of update and delete say only cooperative administrators may use them (api/routers/mortgage_deeds.py:489 and :813). The code checks `verify_deed_access`, which also admits the deed's borrowers and its bank's users, and the model follows the code (`MortgageDeeds.AccessNotAdministratorOnly`). No administrator-only rule is modelled: the description may well be what is stale, since the bank that creates a deed passes the check the code uses.
- DeedUpdate.UpdateMortgageDeed: checks access with the corrected rule `VerifyDeedAccess`, as `GetMortgageDeed` does.
- Signing.CooperativeAdminSign: replies with the corrected `AdminSignReply`, so a completing signature on a deed without exactly one signer row replies COMPLETED. As written that request ends in a 404 after its writes (see Findings).
- Signing.SignAsAdministrator: replies with the corrected `AdminSignReply`, as `CooperativeAdminSign` does.
- Signing.SendForSigning: reads the deed back with its signers and replies with it. As written the read-back lacks the signers and every reply is a 500 after the writes and e-mails (see Findings).
- HousingCooperatives.CooperativeReply: the response model would run the company normaliser and `EmailStr` again on the row it sends. The row is sent as stored. `CooperativeSchemas.NormaliseIdempotent` shows the company would not change, and the e-mail would not change when `EmailStr` accepts its own output (`EmailIdempotent`).
- Signing.DeedReply: of MortgageDeedResponse's field types, only the nullable columns are checked: `bank_id` and the embedded cooperative's name, address, postal code and city. The borrowers and signers are sent as stored; every row of theirs is written from a request that passed the same field rules.
- MortgageDeeds.DeedViewReply: checks the same fields as `Signing.DeedReply`, for the same reason.
- DeedUpdate.ReconciledBorrowersMatchRequest: proved only for a deed with one borrower row per person number. MortgageDeedCreate accepts a repeated person number; the update then compares only the last of those rows with the request, so an earlier row with other values stays as it was when the last one already matches.
- DeedUpdate.ReconciledSignersMatchRequest: proved only for a deed with one signer row per person number, for the same reason as `ReconciledBorrowersMatchRequest`.
- Reconciliation.AppliedAgrees: proved only when the deed's rows have distinct keys, for the same reason.
- The e-mails of the administrators' notice and the completion notice after a signature. The source ignores their results. Only their database reads are kept, because a failed read ends the request in a 404.
- DeedUpdate.UpdateMortgageDeed: a new `housing_cooperative_id` naming no cooperative is taken as the foreign key's refusal, a 500 through the helper. The source does not check it itself.
- Statistics.GetStatusDurationStats: figures are not rounded and durations are in timestamp units, not hours.
- Statistics.GetStatsSummary: the average is exact, not rounded to two decimals.
- The statistics label removes "STATUS_CHANGE_TO_" exactly as written. The audit writer emits "STATUS_CHANGED_TO_…", so labels keep the full action name. `Statistics.WrittenActionsKeepTheirName` states this.

## Findings

| source | as written | input that shows it | evidently intended | confidence | as-written member | corrected member |
|---|---|---|---|---|---|---|
| api/routers/signing.py:229-238 | the completion notice reads the administrator signature with `.single()` after the deed has already been stored as COMPLETED | an administrator signs a deed that has no signer rows (or two), so all signers count as signed; the deed becomes COMPLETED, then `.single()` finds no row and the request ends in a 404 | read the signature if there is exactly one row, otherwise none, and reply COMPLETED | not executed | Signing.AdminSignWithoutSignersAsWritten | Signing.AdminSignReply |
| api/routers/mortgage_deeds.py:84 | the administrator test compares the caller's person number, possibly None, with the cooperative's administrator person number, possibly None | a caller with no person number and no bank id, on a deed whose cooperative has no administrator person number: None == None grants access | only a caller who has a person number equal to the administrator's is the administrator | not executed | MortgageDeeds.AccessWithoutPersonNumberAsWritten | MortgageDeeds.VerifyDeedAccess |
| api/routers/signing.py:367-377 | send_for_signing reads the deed back with its borrowers and cooperative but not its signers, and returns it under `response_model=MortgageDeedResponse`, whose `housing_cooperative_signers` field is required | any request for an existing deed: the status has changed, the audit lines are written and the e-mails sent, then the reply fails the response model and the client gets a 500 | read back `housing_cooperative_signers(*)` as well, as the other deed reads do, and reply with the deed | not executed | Signing.SendForSigningReplyAsWritten | Signing.SendForSigningReply |
