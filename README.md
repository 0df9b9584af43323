# Incremental ledger sync, modelled in Dafny

This project models the ledger engine behind a set of finance sync scripts
(`sync.py` for card purchases, `sync_expenses.py` for
expense claims, `sync_campaigns.py` for advertising campaigns, and the earlier
`supabase_test/sync.py`). Each run takes the records fetched from the record
store and works as follows:

- It groups them by an entity field (`cardUsed`, `employeeName` or `project`)
  and by the month of a timestamp, written `%Y_%m`.
- It maps each group's records to the ledger's display columns.
- It merges them into the ledger written by earlier runs: drop the old `TOTAL`
  row, put the existing rows before the incoming ones, keep the last row of
  every ID.
- It appends a new `TOTAL` row and writes the sheet at a fixed header offset
  (9, 7 and 6 rows).
- It downloads each record's receipt or image and keeps it as a PDF, or
  converts it to one.
- It mirrors ledgers and PDFs to a drive. The drive never creates a second
  folder of the same name and parent, and never uploads a name that already
  exists in the target folder.

The earlier script does no merge and no upload. It rewrites the ledger from
this run's rows alone and stores each receipt under the last segment of its
storage path.

Modules, one file each:

- `values.dfy` (`Values`): cells, records, timestamps, local files.
- `naming.dfy` (`Naming`): space replacement, slugs, PDF detection, `str(n)`,
  `%Y_%m`, file names, basenames.
- `partition.dfy` (`Partition`): the `groupby`.
- `ledger.dfy` (`Ledger`): total stripping, keep-last deduplication, the merge,
  the aggregate row, rendering and parsing.
- `schemas.dfy` (`Schemas`): the four column mappings, the header blocks, the
  image-column search.
- `attachments.dfy` (`Attachments`): the `Disk` class and the two download
  functions.
- `mirror.dfy` (`Mirror`): the `Drive` class with `get_or_create_folder`,
  `file_exists_in_drive` and `upload_to_drive`.
- `sync_steps.dfy` (`SyncSteps`): the steps the scripts share.
- `purchase_sync.dfy`, `expense_sync.dfy`, `campaign_sync.dfy`,
  `legacy_sync.dfy`: the four run functions. Each has its group loop and its
  per-row attachment loop.

Amounts are integers (cents). The record store's HTTP request is the parameter
`fetch`, and the image-to-PDF converter is the parameter `convert`. Nothing is
claimed about either. A run ends in one of three ways:

- `NoData`: nothing was fetched, or the frame has no columns;
- `Crashed`: an uncaught exception: a missing column, or a string method
  called on a value that is not text;
- `Completed`.

The crash conditions are stated exactly, as if-and-only-if clauses.

Facts about the code that a reader of the scripts might not expect:

- A folder query without a parent matches a folder of that name at any depth,
  not only at the top level (`Mirror.TopLevelQueryFindsNestedFolder`).
- A ledger uploaded once is never refreshed on the drive, because the upload is
  skipped by name (`Mirror.RemoteLedgerFrozen`).
- On a first run there is no readable ledger, and the incoming rows are written
  without deduplication. IDs are therefore unique only after a merge
  (`Ledger.MergeLines`).
- The earlier script writes the same local ledger path as the purchases script
  (`LegacySync.LedgerPath`). Its sheet has no header block, so the later script,
  reading nine rows down, finds a line row where it expects the labels. Once
  that sheet has nine or more lines, the `ID` lookup fails, and the later run
  drops the earlier lines and writes only its own rows
  (`LegacySync.RewrittenUnread`).

## Model

| member | source | states |
|---|---|---|
| Naming.Underscored | sync.py:177-186 | `replace(' ', '_')`: same length, no space left, every space becomes `_` and every other character is kept |
| Naming.UnderscoredIdentity | sync_expenses.py:179-188 | a name without spaces is left unchanged |
| Naming.UnderscoredCollides | sync.py:177-199 | names that differ by a space against an underscore get the same folder and file names |
| Naming.PeriodKeyUnderscored | sync_expenses.py:179-199 | a period string has no spaces, so the expense script's replacement leaves it unchanged |
| Naming.Slug | sync.py:263 | the slug has length min(\|s\|, 20), contains no space, and is the prefix of the underscored text |
| Naming.PdfPathBySuffix | sync.py:120 | a path counts as PDF exactly when its last four characters, lowercased, are `.pdf` |
| Naming.PdfSuffixes | sync.py:120 | `.pdf`, `.PDF` and `.Pdf` count as PDF; `.png` and `.jpg` do not |
| Naming.PaddedValue | sync.py:161 | zero-padded digits read back as the number they encode |
| Naming.PeriodKey | sync.py:161 | `%Y_%m` is seven characters: four digits, `_`, two digits |
| Naming.PeriodRoundTrip | sync.py:161 | parsing a period string gives back the year and month it was made from |
| Naming.PeriodKeyInjective | sync.py:161-172 | two timestamps share a period string exactly when they share year and month |
| Naming.Decimal | sync.py:262-267 | `str(n)` is non-empty, all digits except a leading minus sign |
| Naming.DecimalRoundTrip | sync.py:262-267 | `str(n)` reads back as `n` |
| Naming.DecimalInjective | sync.py:262-267 | distinct integers render as distinct strings |
| Naming.LastSegment | supabase_test/sync.py:122 | `split('/')[-1]`: a suffix of the path with no `/`, preceded by `/` when shorter than the path |
| Naming.LastSegmentOfJoin | sync.py:253 | the base name of `dir/name` is `name` when `name` has no `/` |
| Naming.ReceiptName | sync.py:267 | `Beleg_{id}_{slug}.pdf` counts as a PDF |
| Naming.ReceiptNamesDistinct | sync.py:262-268 | receipts of two distinct underscore-free IDs never share a file name |
| Naming.ReceiptNamesOfIdsDistinct | sync.py:262-268 | receipts of two distinct integer IDs never share a file name |
| Naming.TempReceiptIsNotReceipt | sync.py:265-268 | the staged image path and the receipt PDF path differ, so removing the image keeps the PDF |
| Naming.CampaignFileName | sync_campaigns.py:291 | `{slug}.pdf` counts as a PDF |
| Naming.CampaignTempIsNotFile | sync_campaigns.py:289-292 | the staged image and the campaign PDF are different paths |
| Naming.CampaignSlugsCollide | sync_campaigns.py:283-292 | two campaign names that agree on their first 20 characters share the folder and the file name |
| Partition.Keys | sync.py:172-175 | the group keys are distinct, and they are exactly the keys of the records whose grouping field and timestamp are not null |
| Partition.Group | sync.py:172-175 | a group holds exactly the input records that have its key |
| Partition.GroupAppend | sync.py:172-175 | grouping is stable: the group of a concatenation is the concatenation of the groups |
| Partition.GroupCount | sync.py:172-175 | a record occurs in its own group as often as in the input, and in no other group |
| Partition.PartitionIgnoresOrder | sync.py:172-175 | reordering the records changes neither the keys nor the contents of any group |
| Partition.GroupsCoverRecords | sync.py:160-175 | the groups together hold every keyed record exactly as often as the input does, and no record with a null key |
| Partition.GroupOfKey | sync.py:175 | every key names a non-empty group |
| Ledger.StripTotal | sync.py:203-204 | the last row is dropped exactly when the ledger is non-empty and the last ID is `TOTAL`; otherwise nothing is dropped |
| Ledger.KeepLast | sync.py:206 | keep-last keeps exactly the input's IDs, makes them unique, and invents no row |
| Ledger.KeepLastKeeps | sync.py:206 | a row survives exactly when it is the last row with its ID |
| Ledger.KeptAreLast | sync.py:206 | every surviving row is the last of its ID |
| Ledger.LastAreKept | sync.py:206 | the last row of every ID survives |
| Ledger.KeepLastIsDictionary | sync.py:206 | the survivors agree with a dictionary that maps each ID to its last row |
| Ledger.KeepLastAppend | sync.py:205-206 | keep-last of existing + incoming is the existing survivors whose ID is not incoming, in order, followed by the incoming survivors |
| Ledger.KeepLastOfUnique | sync.py:206 | rows whose IDs are already unique are left unchanged |
| Ledger.WithoutAppend | sync.py:205-206 | filtering by ID distributes over concatenation |
| Ledger.WithoutIdempotent | sync.py:205-206 | filtering by ID twice is filtering once |
| Ledger.MergeLines | sync.py:199-206 | without a readable ledger the rows are the incoming ones as they are; with one, the IDs are unique and equal the union of existing and incoming IDs, and no row is invented |
| Ledger.IncomingWins | sync.py:205-206 | the last incoming row of an ID is in the merged ledger and is the only row there with that ID |
| Ledger.ExistingSurvives | sync.py:205-206 | an existing line row whose ID no incoming row carries is kept |
| Ledger.SumAppend | sync.py:211 | the column sum of a concatenation is the sum of the two sums |
| Ledger.SumPermutation | sync.py:211 | the column sum does not depend on row order |
| Ledger.TotalRow | sync.py:211-220 | the aggregate row has ID `TOTAL`, the amount column holds the sum of the line rows, and every other column is `''` |
| Ledger.Reconcile | sync.py:199-223 | the ledger ends in the aggregate row of the rows above it (ID `TOTAL`, their sum, `''` elsewhere), and stripping it gives back the merged rows |
| Ledger.Render | sync.py:226-236 | the sheet starts with the header, has the label row at the offset, and the ledger below it |
| Ledger.Parse | sync.py:202 | `read_excel(skiprows=offset)`: nothing when the sheet has no row below the offset; otherwise the sheet is its top rows up to and including the label row, followed by the table |
| Ledger.ReadLedger | sync.py:200-208 | a ledger is read exactly when a sheet is at the path and its table is empty or has an `ID` label; then it is the parsed table. A missing file, a file that is not a sheet, and a table with rows but no `ID` column (the `KeyError` the `except` swallows) all give nothing |
| Ledger.RenderedKeyed | sync.py:202-236 | a sheet written with a label row containing `ID` is read back as its parsed table |
| Ledger.RenderParse | sync.py:202-236 | reading a written sheet at the same offset gives back the ledger, and stripping its total gives the merged rows |
| Ledger.ReconcileIdempotent | sync.py:199-236 | for a table with an `ID` label, merging the same batch again against the ledger just written gives the same ledger; on a first run this needs the batch's IDs to be unique |
| Ledger.MergeAgain | sync.py:205-206 | re-merging a batch into its own merge result changes nothing |
| Ledger.FirstMergeAgain | sync.py:205-206 | a batch with unique IDs merged with itself gives itself |
| Ledger.LaterMergeAgain | sync.py:205-206 | keep-last of (keep-last of s + incoming) + incoming equals keep-last of s + incoming |
| Schemas.MapRow | sync.py:189-196 | each output column is its mapped source field or its constant |
| Schemas.Rows | sync.py:189-196 | one mapped row per record, in group order |
| Schemas.Columns | sync.py:154-155 | the frame's columns are exactly the fields some record has |
| Schemas.MappedSum | sync.py:211 | the sum of the mapped amount column is the total of the source amount field |
| Schemas.MappedIds | sync.py:189-206 | the mapped IDs are exactly the records' `id` values |
| Schemas.PurchaseRow | sync.py:189-196 | ten columns: ID, empty `Beleg`, issuer, item name, account, cost centre, project, VAT rate, price as the amount, empty `BETRAG EUR` |
| Schemas.PurchasesHeader | sync.py:228-234 | five header rows, fewer than the offset of 9: the title `Kreditkarten-Abrechnung`, the card as it is (`Anbieter: `), the period with `_` shown as a space (`Periode: `), the company line and the fiscal year `GJ 2024/25` |
| Schemas.ExpenseRow | sync_expenses.py:191-196 | eight columns: ID, date, `description` in both `Ereignis` and `Text`, `amount` as the amount, account, cost centre, project |
| Schemas.HeaderValue | sync_expenses.py:231-232 | `N/A` when the column is missing or every value in the group is null (so for an empty group); otherwise the first row's value, even when that one is null |
| Schemas.HeaderShowsEmptyFirstValue | sync_expenses.py:231-232 | a missing first bank name is shown as `nan` even when a later row has one |
| Schemas.ExpensesHeader | sync_expenses.py:226-233 | six header rows, fewer than the offset of 7: the title, the submission notice, the employee line (`Mitarbeiter: ` with `Monat/Jahr: ` in the fourth cell), the bank line, and the IBAN line (`IBAN: ` with `Konto lautet auf: ` and the employee in the fourth cell) |
| Schemas.CampaignRow | sync_campaigns.py:209-214 | eleven columns, each the listed source field in order; `adBudget` is the amount |
| Schemas.CampaignsHeader | sync_campaigns.py:247-253 | five header rows, fewer than the offset of 6: the title `Kampagnenabrechnung`, the company line, an empty third row, the period with `_` shown as a space (`Monat/Jahr: `) and the project as it is (`Projekt: `) |
| Schemas.FirstColumn | sync_campaigns.py:166-171 | none exactly when no candidate column is present; otherwise the first candidate present, in the listed order |
| Schemas.FindImageColumn | sync_campaigns.py:166-171 | the search loop finds `FirstColumn` of the image candidates |
| Schemas.LegacyRow | supabase_test/sync.py:85-94 | nine columns: empty `Beleg` first, issuer, item name, account, cost centre, project, VAT rate, price as the amount, empty `BETRAG EUR` last; never the `TOTAL` marker |
| Attachments.Stage | sync.py:110-143 | false without change for an empty or non-text reference or a failed request; a `.pdf` reference stores the bytes as fetched; otherwise the converted PDF replaces the staged image, or the image and an empty PDF stay when conversion fails; no other path changes |
| Attachments.Disk.Download | sync.py:110-143 | the download performs the steps of `Stage` in order |
| Attachments.Fetched | supabase_test/sync.py:37-51 | nothing is written for an empty reference or a failed request; otherwise the bytes land at the local path and nothing else changes |
| Attachments.Disk.DownloadTo | supabase_test/sync.py:37-51 | the earlier script's download leaves the files as `Fetched` says |
| Mirror.FindFrom | sync.py:56-62 | the first matching folder from a position on, or none when no folder matches |
| Mirror.GetOrCreate | sync.py:55-71 | an existing match is returned with the store unchanged; otherwise exactly one folder with that name and parent is appended |
| Mirror.GetOrCreateTwice | sync.py:55-71 | a repeated call returns the same id and creates nothing |
| Mirror.GetOrCreateKeepsUnique | sync.py:55-71 | no two folders ever share a name and a parent |
| Mirror.TopLevelQueryFindsNestedFolder | sync.py:56-59 | a query without a parent returns a nested folder of that name and creates no top-level one |
| Mirror.Stored | sync.py:74-78 | a stored file exists exactly when the folder has a file of that name |
| Mirror.Upload | sync.py:81-94 | skipped exactly when the name exists in the folder; failed when the local file is missing; otherwise exactly one file is appended |
| Mirror.UploadStores | sync.py:81-94 | after an upload the name exists in the folder, and a name that was new holds the uploaded contents |
| Mirror.UploadTwice | sync.py:81-94 | a second identical upload is skipped and creates nothing |
| Mirror.UploadNeverOverwrites | sync.py:81-84 | an upload never changes the contents already stored under a name |
| Mirror.RemoteLedgerFrozen | sync.py:200-253 | after a second upload with new contents, the drive still holds the first contents |
| Mirror.UploadKeepsUnique | sync.py:81-94 | no folder ever holds two files of the same name |
| Mirror.Drive.GetOrCreateFolder | sync.py:55-71 | the list-then-create steps compute `GetOrCreate` and leave the files alone |
| Mirror.Drive.FileExistsInDrive | sync.py:74-78 | true exactly when the folder holds a file of that name |
| Mirror.Drive.UploadToDrive | sync.py:81-94 | the check-then-create steps compute `Upload` and leave the folders alone |
| SyncSteps.Roots | sync.py:167-169 | the ledger root folder and the attachment root folder carry the script's name, and the attachment root sits in a folder named `Belege`; no folder is removed |
| SyncSteps.RootFolders | sync.py:167-169 | the three folder lookups compute `Roots`; no file changes |
| SyncSteps.RootsDisjoint | sync.py:177-183 | no path lies under both the ledger root and the attachment root |
| SyncSteps.LedgersUntouched | sync.py:177-183 | writes confined to the attachment root leave every ledger of every script as it was |
| SyncSteps.GroupFolderIds | sync.py:179-186 | the month folder is `{month}` inside `{owner}` inside the ledger folder, and the bundle folder is `{bundle}` inside `{month}` inside the attachment folder; no folder is removed |
| SyncSteps.GroupFolders | sync.py:179-186 | the four folder lookups of a group compute `GroupFolderIds`; no file changes |
| SyncSteps.CompletesIff | sync.py:175-270 | the group loop runs to the end exactly when no group raises |
| SyncSteps.LoopKeepsBalanced | sync.py:175-256 | when every group keeps the other ledgers and balances its own, a balanced ledger stays balanced through the whole loop |
| SyncSteps.LoopBalanced | sync.py:175-256 | under the same conditions, a loop that runs to the end leaves the ledger of every key balanced |
| SyncSteps.LedgerSheet | sync.py:199-236 | the sheet is balanced, starts with the header, and reads back as the merge of the old ledger as `ReadLedger` reads it with the incoming rows: the incoming rows alone when the old file is missing, is not a sheet, or has a table with rows but no `ID` column |
| SyncSteps.WriteLedger | sync.py:199-251 | the file at the path becomes `LedgerSheet` of the old file and the incoming rows; no other file changes |
| SyncSteps.Filed | sync.py:199-256 | the ledger path holds `LedgerSheet` of the old file, no other local file changes, no folder is created, and the ledger's base name exists in the month folder; the drive is unchanged when that name was already there |
| SyncSteps.FileLedger | sync.py:199-256 | writing and uploading the ledger computes `Filed` |
| SyncSteps.UntilCrash | sync.py:259-270 | the rows an attachment loop gets through: a prefix with no raising row, followed in the group by the row that raises when it stops early |
| SyncSteps.ReceiptEffect | sync.py:259-270 | a false reference or a row that raises changes nothing; otherwise the disk is what staging the receipt as `Beleg_{id}_{slug}.pdf` gives, a delivered receipt exists in the folder under that name, a new name holds the staged PDF, and only PDFs in the folder are added |
| SyncSteps.Receipts | sync.py:259-270 | the receipt loop creates no folder, adds only PDFs in the receipt folder, and changes no local file outside the attachment root |
| SyncSteps.ReceiptStep | sync.py:259-270 | one row's download and upload compute `ReceiptEffect`; it raises exactly when the reference is true and the slug field is not text |
| SyncSteps.UploadReceipts | sync.py:259-270 | the loop computes `Receipts` over the rows before the first one that raises; it raises exactly when some row does |
| SyncSteps.ReceiptsCover | sync.py:259-270 | after the receipt loop, every delivered receipt is in the receipt folder |
| SyncSteps.CoveredReceiptsSkip | sync.py:81-94 | when every delivered receipt is already in the folder, the loop uploads nothing |
| SyncSteps.ReceiptsRerun | sync.py:259-270 | running a group's receipt loop a second time uploads nothing |
| PurchaseSync.LedgerPath | sync.py:177-199 | the ledger lies under `exports/Einkäufe/`; when neither card nor period contains `/`, its base name is the uploaded name `Einkauf_{card}_{period}.xlsx` |
| PurchaseSync.ReceiptsDir | sync.py:183 | the receipts directory lies under the attachment root |
| PurchaseSync.Processed | sync.py:199-270 | the ledger path holds the group's statement, the merge of the old file with this group's rows; no other ledger changes, no folder is created, and the ledger's base name exists in the month folder |
| PurchaseSync.LedgerAndReceipts | sync.py:199-270 | the ledger step and the receipt loop compute `Processed`; it raises exactly when a non-empty group lacks `receiptPath` or some receipt's item name is not text |
| PurchaseSync.GroupSynced | sync.py:175-270 | no other ledger changes; a non-text card or a missing selected column writes nothing local and uploads nothing; otherwise the ledger path holds the group's statement |
| PurchaseSync.SyncGroup | sync.py:175-270 | one iteration of the group loop computes `GroupSynced`; it raises exactly when the card is not text, a selected column is missing, a non-empty group lacks `receiptPath`, or a receipt's item name is not text |
| PurchaseSync.GroupBalanced | sync.py:175-256 | a group that does not raise leaves its own ledger balanced and every other ledger as it was |
| PurchaseSync.KeyPath | sync.py:199 | every key's ledger path lies under the purchases ledger root |
| PurchaseSync.StepKeepsLedgers | sync.py:175-256 | every group keeps the other ledgers and balances its own when it does not raise |
| PurchaseSync.SyncKeys | sync.py:175-270 | the group loop computes `Loop` over the keys, stopping after the first group that raises, and reports whether it ran to the end |
| PurchaseSync.KeysComplete | sync.py:175-270 | the loop over the frame's keys runs to the end exactly when no group raises |
| PurchaseSync.RunBalanced | sync.py:146-270 | a run with no raising group leaves a balanced ledger for every (card, period) key |
| PurchaseSync.SyncPurchases | sync.py:146-175 | the outcome is `Outcome` (no data exactly for an empty fetch or frame, a crash for a missing `created_date_time` or `cardUsed` column or a raising group) and the disk and drive become `Run`; a completed run has text cards and a balanced ledger for every key |
| ExpenseSync.LedgerPath | sync_expenses.py:179-199 | the claim form lies under `exports/Kostenabrechnungen/` |
| ExpenseSync.ReceiptsDir | sync_expenses.py:185 | the receipts directory lies under the attachment root |
| ExpenseSync.ClaimHeader | sync_expenses.py:226-233 | six header rows: the employee line names the employee and the month; the bank and IBAN lines show the header values of `bankName` and `iban`; the IBAN line names the employee as account holder |
| ExpenseSync.Processed | sync_expenses.py:199-269 | the claim form path holds the merge of the old file with this group's rows; no other claim form changes, no folder is created, and the form's base name exists in the month folder |
| ExpenseSync.LedgerAndReceipts | sync_expenses.py:199-269 | the claim form step and the receipt loop compute `Processed`; it raises exactly when some receipt's description is not text (a missing `receiptPath` column does not raise) |
| ExpenseSync.GroupSynced | sync_expenses.py:177-269 | no other claim form changes; a non-text employee or a missing selected column writes nothing local and uploads nothing; otherwise the claim form path holds the group's claim form |
| ExpenseSync.SyncGroup | sync_expenses.py:177-269 | one iteration of the group loop computes `GroupSynced`; it raises exactly when the employee is not text, a selected column is missing, or a receipt's description is not text |
| ExpenseSync.GroupBalanced | sync_expenses.py:177-255 | a group that does not raise leaves its own claim form balanced and every other one as it was |
| ExpenseSync.KeyPath | sync_expenses.py:199 | every key's claim form path lies under the claims ledger root |
| ExpenseSync.StepKeepsLedgers | sync_expenses.py:177-255 | every group keeps the other claim forms and balances its own when it does not raise |
| ExpenseSync.SyncKeys | sync_expenses.py:177-269 | the group loop computes `Loop` over the keys, stopping after the first group that raises, and reports whether it ran to the end |
| ExpenseSync.KeysComplete | sync_expenses.py:177-269 | the loop over the frame's keys runs to the end exactly when no group raises |
| ExpenseSync.RunBalanced | sync_expenses.py:146-269 | a run with no raising group leaves a balanced claim form for every (employee, period) key |
| ExpenseSync.SyncExpenses | sync_expenses.py:146-177 | the outcome is `Outcome` (no data exactly for an empty fetch or frame, a crash for a missing `created_date_time` or `employeeName` column or a raising group) and the disk and drive become `Run`; a completed run has text employees and a balanced claim form for every key |
| CampaignSync.LedgerPath | sync_campaigns.py:197-217 | the statement lies under `exports/Kampagnen/`, with the project used verbatim |
| CampaignSync.ImagesDir | sync_campaigns.py:203 | the image directory lies under the attachment root |
| CampaignSync.AddedImagesGrow | sync_campaigns.py:283-295 | creating more folders keeps every added image in a slug folder under the project folder |
| CampaignSync.ImageEffect | sync_campaigns.py:280-297 | a false reference or a row that raises changes nothing; otherwise the folders become `GetOrCreate` of the slug under the project folder, the disk is what staging the image as `{slug}.pdf` gives, a delivered image exists in that folder, a new name holds the staged PDF, and every added file is `{slug}.pdf` in its slug folder |
| CampaignSync.Images | sync_campaigns.py:278-297 | the image loop removes no folder, adds only campaign PDFs in slug folders under the project folder, and changes no local file outside the attachment root |
| CampaignSync.ImageStep | sync_campaigns.py:280-297 | one campaign's folder, download and upload compute `ImageEffect`; it raises exactly when the reference is true and the name is not text |
| CampaignSync.UploadImages | sync_campaigns.py:278-297 | the loop computes `Images` over the rows before the first one that raises; it raises exactly when some row does |
| CampaignSync.ImagesCover | sync_campaigns.py:278-297 | after the image loop, every campaign with a true reference and a text name has its folder, and every delivered image is in it |
| CampaignSync.CoveredImagesSkip | sync_campaigns.py:283-297 | when every campaign's folder and delivered image already exist, the loop creates and uploads nothing |
| CampaignSync.ImagesRerun | sync_campaigns.py:278-297 | running a group's image loop a second time creates no folder and uploads nothing |
| CampaignSync.Processed | sync_campaigns.py:217-297 | the statement path holds the merge of the old file with this group's rows; no other statement changes, and the statement's base name exists in the month folder; without an image column nothing but the statement changes |
| CampaignSync.StatementAndImages | sync_campaigns.py:217-297 | the statement step and, with an image column, the image loop compute `Processed`; it raises exactly when there is an image column and some image row's name is not text |
| CampaignSync.GroupSynced | sync_campaigns.py:195-297 | no other statement changes; a missing selected column writes nothing local and uploads nothing; otherwise the statement path holds the group's statement |
| CampaignSync.SyncGroup | sync_campaigns.py:195-297 | one iteration of the group loop computes `GroupSynced`; it raises exactly when a selected column is missing or there is an image column and an image row's name is not text |
| CampaignSync.GroupBalanced | sync_campaigns.py:195-272 | a group that does not raise leaves its own statement balanced and every other one as it was |
| CampaignSync.KeyPath | sync_campaigns.py:217 | every key's statement path lies under the campaigns ledger root |
| CampaignSync.StepKeepsLedgers | sync_campaigns.py:195-272 | every group keeps the other statements and balances its own when it does not raise |
| CampaignSync.SyncKeys | sync_campaigns.py:195-297 | the group loop computes `Loop` over the keys, stopping after the first group that raises, and reports whether it ran to the end |
| CampaignSync.KeysComplete | sync_campaigns.py:195-297 | the loop over the frame's keys runs to the end exactly when no group raises |
| CampaignSync.RunBalanced | sync_campaigns.py:146-297 | a run with no raising group leaves a balanced statement for every (project, period) key |
| CampaignSync.SyncCampaigns | sync_campaigns.py:146-195 | the outcome is `Outcome` (no data exactly for an empty fetch or frame, a crash for a missing `created_date_time` or `project` column or a raising group) and the disk and drive become `Run`; a completed run has a balanced statement for every key |
| LegacySync.LedgerPath | supabase_test/sync.py:77-111 | the earlier script's ledger path is the purchases script's ledger path |
| LegacySync.ReceiptsDir | supabase_test/sync.py:81 | the receipts directory lies under the attachment root |
| LegacySync.Target | supabase_test/sync.py:121-123 | a row has a download target exactly when its reference is true, is text, and has a non-empty last segment; the target is that segment in the receipts directory |
| LegacySync.FetchRow | supabase_test/sync.py:119-124 | one row's download changes no path other than its target |
| LegacySync.Downloads | supabase_test/sync.py:119-124 | the downloads of a group change no file outside the attachment root |
| LegacySync.DownloadsTargets | supabase_test/sync.py:119-124 | the downloads change only paths that some row targets |
| LegacySync.LastDownloadWins | supabase_test/sync.py:119-124 | the last row aiming at a path decides its contents when its request succeeds |
| LegacySync.TargetWithin | supabase_test/sync.py:81-123 | every download target lies under the attachment root |
| LegacySync.DownloadRow | supabase_test/sync.py:119-124 | one row's step leaves the files as `FetchRow` gives them: the reference downloaded to its target when it has one |
| LegacySync.DownloadReceipts | supabase_test/sync.py:119-124 | the loop computes `Downloads` over the rows before the first true reference that is not text; it raises exactly when there is one |
| LegacySync.Rewritten | supabase_test/sync.py:85-113 | the sheet reads back as exactly this run's rows followed by the total row, and is balanced |
| LegacySync.RewrittenUnread | sync.py:200-208 | when the later script reads a sheet of this script with nine or more lines, it finds a line row, not an `ID` label, at its offset of 9; it then merges nothing, and its ledger holds only its own incoming rows |
| LegacySync.GroupLedger | supabase_test/sync.py:111-116 | the ledger path is set to the rewritten sheet and no other file changes |
| LegacySync.GroupSynced | supabase_test/sync.py:75-124 | no other ledger changes; a non-text card or a missing selected column writes nothing; otherwise the ledger path holds the rewritten sheet |
| LegacySync.SyncGroup | supabase_test/sync.py:75-124 | one iteration of the group loop computes `GroupSynced`; it raises exactly when the card is not text, a selected column is missing, a non-empty group lacks `receiptPath`, or a true reference is not text |
| LegacySync.GroupBalanced | supabase_test/sync.py:75-116 | a group that does not raise leaves its own ledger balanced and every other ledger as it was |
| LegacySync.KeyPath | supabase_test/sync.py:111 | every key's ledger path lies under the purchases ledger root |
| LegacySync.StepKeepsLedgers | supabase_test/sync.py:75-116 | every group keeps the other ledgers and balances its own when it does not raise |
| LegacySync.SyncKeys | supabase_test/sync.py:75-124 | the group loop computes `Loop` over the keys, stopping after the first group that raises, and reports whether it ran to the end |
| LegacySync.KeysComplete | supabase_test/sync.py:75-124 | the loop over the frame's keys runs to the end exactly when no group raises |
| LegacySync.RunBalanced | supabase_test/sync.py:54-116 | a run with no raising group leaves a balanced ledger for every (card, period) key of the `date` field |
| LegacySync.SyncPurchases | supabase_test/sync.py:54-75 | the outcome is `Outcome` (no data exactly for an empty fetch or frame, a crash for a missing `date` or `cardUsed` column or a raising group) and the files become `Run`; a completed run has text cards and a balanced ledger for every key |

## Left out

- OAuth and the token file (`get_drive_service`), `.env` loading, the debug prints, the `schedule` loop and the polling loop: credentials and I/O. `supabase_test/test_connection.py` is not part of this model.
- `fetch_data`: the fetched records are the run's input.
- The storage GET: the function parameter `fetch`, which returns the bytes or nothing for a non-200 response or an exception.
- `img2pdf.convert`: the function parameter `convert`. Nothing is claimed about its output.
- Floats: amounts are integers (cents). Non-numeric amounts, NaN in `sum`, and pandas dtype coercion when a sheet is read back are not modelled; IDs are a single cell type.
- NaN truthiness: an empty cell is modelled as false. In Python a NaN in `receiptPath` is true, so the purchases and expenses scripts would call `download_receipt` with it, and the earlier script would crash at `split`. In the campaign script a NaN image cell is true as well: the source reads `name`, creates the slug folder on the drive and the local directory, and then the download fails, so nothing is uploaded. The model does none of these; it treats such a row as having no image.
- JSON `null` against missing keys: both are an empty cell, except that a missing column is tracked per frame.
- Group order: pandas visits groups in sorted key order, while the model visits them in order of first appearance (`Partition.Keys`). This affects `PurchaseSync.Run`, `ExpenseSync.Run`, `CampaignSync.Run` and `LegacySync.Run`, and the loops `SyncKeys` of the four scripts that compute them. The order matters in two ways. First, it decides which group's merge wins when two keys share a ledger path, as `Visa Gold` and `Visa_Gold` do (`Naming.UnderscoredCollides`). Second, a run stops at the first group that raises, so the order decides which ledgers, uploads and receipts a raising run has written before it stops. For example, take cards `B` then `A` in one month with no `receiptPath` column: the source files `A`'s ledger and then raises, while the model files `B`'s ledger and stops. When no group raises and no two keys share a path, the groups touch disjoint ledgers and the order does not change the ledgers. The `TypeError` pandas raises when it sorts keys of mixed types is not modelled.
- Mirror.Drive.Valid: the run methods require a drive with no two folders of the same name and parent and no two files of the same name in one folder, and they preserve that. A drive that already holds such duplicates, for example folders made by hand, is not covered, although the source runs on it.
- Unicode: `lower()` in the PDF test is modelled on ASCII letters only.
- Excel formatting (column widths, the bold total row) and the workbook encoding: a sheet is a sequence of rows.
- `os.makedirs` and a `/` inside a name: directories are implicit in paths. In the source, a `/` in a card, employee, project or campaign name, or in an item name used in a receipt name, points the path into a directory `makedirs` never created. The `open` then fails. The download's `except` returns False, so that receipt is not uploaded, and the ledger write ends in its `except` before the ledger upload. The model writes the file and uploads it.
- Errors reported by the drive API: the drive succeeds except in the one failure the code handles, a missing local file.
- Drive listing order: a listing returns matches in creation order.
- `pd.to_datetime`: timestamps arrive parsed as year and month; an unparsable value is not modelled.
- Path normalisation: paths are compared as strings, so a name with `/` or `..` is not resolved.
- The `try` around writing a ledger: writing a sheet is modelled as always succeeding, so its `except` branch is not modelled.
- Project keys that render to the same text (`5` and `"5"`) share a statement path. The campaign run therefore states its result per rendered path.
- Mirror.Drive.FileExistsInDrive: the source's query has no `mimeType` filter, so a folder with the file's name in the target folder also makes it true. The model counts only files.
- Mirror.Upload: because of that, the source skips an upload whose name matches a folder in the target folder, while the model uploads the file.
- Ledger.ReadLedger: a readable table's columns are taken by position. pandas `concat` aligns them by label. An old table whose labels differ from this script's, other than by a missing `ID`, would get its columns realigned or widened in the source but not in the model.
- Drive queries: the quoting of names inside the query string and the `trashed=false` filter are not modelled; names are matched exactly, and nothing is ever trashed.
- SyncPurchases (`PurchaseSync`): the final disk and drive are stated as `Run`, which folds each group's `GroupSynced` over the keys; each group's exact ledger, upload and receipts are stated by `GroupSynced` and `Processed`. About the final state, the ensures state per key only that its ledger is balanced: two cards such as `Visa Gold` and `Visa_Gold` share a ledger path, and then the later group's merge decides the contents.
- SyncExpenses: as for `PurchaseSync.SyncPurchases`: `Run` and `GroupSynced` give the exact contents, and only balance is stated per key in the final state, because two employee names can share a claim form path.
- SyncCampaigns: as for `PurchaseSync.SyncPurchases`, with the images; two projects that render to the same text share a statement path.
- SyncPurchases (`LegacySync`): the final files are stated as `Run` over `GroupSynced` (the rewritten sheet, then `Downloads`); only balance is stated per key in the final state, because two cards can share a ledger path.
