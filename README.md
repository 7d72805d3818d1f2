# WhatsApp claim and GRN service — a Dafny model

This project models the core of a WhatsApp webhook service with two jobs.

**Claims.** An employee greets the bot, picks a service and an entity, and says how many invoice images follow. The service then:
- collects the images;
- runs OCR and a language model over them in a background thread;
- offers to add the bills to the latest drafted claim or to create a new one;
- POSTs the claim to the claims back office and uploads every image to every bill of it.

**GRN.** A user uploads a goods-received note, which is handed to an extraction service.

The conversation lives in Redis, under keys `wa:{phone}:{field}`. Each of these keys expires after `CHAT_TTL` seconds when written with `setex`.

## Modules

- **Redis** is the key space as a `map<string, Entry>`, plus a `Store` class whose methods (`Get`, `SetEx`, `Delete`, `RPush`, `Incr`, `LRange`, `ScanIter`) change it one command at a time.
  - RPUSH and INCR keep an existing expiry and set none on a new key.
  - INCR works on 64-bit integers.
- **Session** holds `rkey` and `clear_session`. The latter deletes every key its prefix scan yields, in a loop proved against the `Cleared` function.
- **Flow** holds `handle_whatsapp_incoming` as a function from the key space and a message to the new key space, plus:
  - the reply sent;
  - the background task started;
  - the exception raised.

  `HandleIncoming` runs the same steps against the `Store` and is proved equal to that function.
- **Transitions** proves what a message does, state by state:
  - the greeting, the service menu, the entity choice, the image count, the claim choice, invoice images and GRN files;
  - that a message changes only its sender's session;
  - that the received count always equals the length of the image list;
  - which keys expire.
- **OcrTask** covers `process_claim_async`, **CommitTask** covers `commit_claim`, and **Tasks** covers `process_grn_async`. Each is a specification function plus a method against the `Store`, proved equal to it. Each task's reply is a value of `TaskReply`.
- **ClaimAdapter** is the claims back-office client:
  - login;
  - the one-bill payload normaliser;
  - create-or-update;
  - the attachment upload. Its open and close loops run over a `FileTable` of open handles, and every handle opened is closed again.
- **MistralOcr** covers the text handling around OCR:
  - the mime type of an upload;
  - the raw text joined from pages;
  - the removal of code fences from the model's reply;
  - the PDF branch, which keeps non-empty page texts.
- **Dates** is `normalize_date`: `DD/MM/YYYY` or `YYYY-MM-DD` become ISO text, with calendar checks including leap years.
- **Router** gives the services a phone is entitled to.
- **Constants** holds the state names and the TTL.
- **Numbers** holds Python's `int()` and `str()` and Redis's integer parsing.
- **Strings** and **JsonValues** hold the text and JSON helpers.

## Behaviour the proofs bring out

- **The image list never expires.** It is created by RPUSH, which sets no TTL (`Transitions.ImageListNeverExpires`).
- **An extra image reprocesses.** An image that arrives after the batch is complete, while the state is still WAITING_FOR_IMAGES, starts OCR processing a second time (`Transitions.ExtraImageReprocesses`).
- **WAITING_FOR_ADD_ANOTHER is never written** (`Transitions.WrittenStatesDeclared`).
- **A phone containing `:` overreaches.** Its prefix scan also matches other phones' keys (`Session.ColonPhoneOverreach`).
- **Zero means "none".** Employee number 0 is treated as unknown, and a draft claim number 0 as no draft.
- **The claim is always POSTed.** `commit_claim` POSTs even when adding to a draft, to `/api/claims/{draft}`. Only the unused `create_or_update_claim` uses PUT for an update.
- **A late upload failure is misreported.** If an upload fails after the claim POST answered 200, the user is told the save failed and the session is kept, although the back office holds the claim (`CommitTask.UploadFailureAfterSave`).

## Model

| member | source | states |
|---|---|---|
| Constants.ServiceNamesDistinct | app/constants.py:6-7 | the two service names are different strings |
| Constants.ParseState | app/constants.py:12-18 | a stored name parses to the state of that name, and a name of no state parses to nothing |
| Constants.StateRoundTrip | app/constants.py:12-18 | reading back a stored state name gives the state |
| Constants.StateNamesDistinct | app/constants.py:12-18 | distinct states are stored under distinct names |
| Router.ServicesForPhone | app/router.py:6-21 | every phone gets one or two services, never the same one twice; a phone ending in 6247 gets claims first, then GRN |
| Router.GrnEntitlement | app/router.py:13-18 | GRN is offered exactly to phones ending in 6247 or 1111 |
| Router.ClaimEntitlement | app/router.py:13-21 | claims are offered exactly to phones not ending in 1111 |
| Router.ServicesDependOnLastFour | app/router.py:13-21 | phones with the same last four characters get the same services |
| Router.ShortPhoneGetsClaim | app/router.py:21 | a phone shorter than four characters falls through to claims only |
| Numbers.PyIntOfIntToString | app/handler.py:190 | `int()` of a number written with `setex` reads the number back |
| Numbers.RedisIntOfIntToString | app/handler.py:412 | INCR reads a counter written as decimal text as that number, within 64 bits |
| Numbers.RedisIntIsCanonical | app/handler.py:412 | a counter INCR accepts is in canonical decimal form |
| JsonValues.AmountOf | app/handler.py:246 | `float(v or 0)`: a falsy value is 0, a number is itself, `True` is 1.0, a non-empty string goes through `float`'s syntax, and a non-empty list or object raises |
| Redis.PushAppends | app/handler.py:411 | RPUSH appends the path at the end of the list, keeps its expiry and changes no other key |
| Redis.IncrementCounts | app/handler.py:412 | INCR of a counter holding n stores and returns n + 1, and keeps the expiry |
| Redis.IncrementReadsBack | app/handler.py:412-413 | the counter INCR leaves is text that `int()` reads as the returned value |
| Session.Cleared | app/handler.py:68-70 | after clearing, exactly the keys outside the phone's prefix remain, each unchanged |
| Session.ClearSession | app/handler.py:68-70 | deleting the scanned keys one by one leaves exactly `Cleared` |
| Session.ClearedRemovesSession | app/handler.py:65-70 | no field of the cleared phone survives |
| Session.ClearedKeepsOtherPhones | app/handler.py:65-70 | clearing one phone keeps another phone's fields when neither phone contains `:` |
| Session.ColonPhoneOverreach | app/handler.py:65-70 | clearing phone `1` deletes the state of phone `1:2` |
| Session.ClearIdempotent | app/handler.py:68-70 | clearing twice is clearing once |
| Session.RKeyInjective | app/handler.py:65-66 | different fields of one phone are different keys |
| Session.SessionsDisjoint | app/handler.py:65-69 | a key of one phone never starts with another phone's prefix, for phones without `:` |
| Dates.NormalizeDate | app/handler.py:148-156 | a result exists exactly when the text parses as a valid date, and it is that date in ISO form |
| Dates.ParseDayMonthYear | app/handler.py:152-153 | a date read as day/month/year is a valid calendar date |
| Dates.ParseYearMonthDay | app/handler.py:154 | a date read as year-month-day is a valid calendar date |
| Dates.Format | app/handler.py:153-154 | the ISO form is ten characters with dashes at positions 4 and 7 |
| Dates.FormatParses | app/handler.py:154 | the ISO form of a valid date parses back to the date and contains no `/` |
| Dates.CanonicalUnchanged | app/handler.py:154 | a date already in ISO form normalises to itself |
| Dates.DayMonthYearRewritten | app/handler.py:152-153 | a padded day/month/year date normalises to the same date in ISO form |
| Dates.NormalizeIdempotent | app/handler.py:148-156 | normalising a normalised date changes nothing |
| Dates.NoDateWithoutText | app/handler.py:149-150 | a missing, empty or non-text value gives no date |
| Dates.NonLeapDayExample | app/handler.py:154-156 | 29 February of a non-leap year gives no date |
| Dates.UnpaddedExample | app/handler.py:154 | `2024-1-5` is accepted and written `2024-01-05` |
| Dates.BadMonthExample | app/handler.py:154-156 | month 13 gives no date |
| MistralOcr.MimeIgnoresCase | ocr/mistral_ocr.py:29-34 | the upload mime type does not depend on the case of the path |
| MistralOcr.MimeOfSuffix | ocr/mistral_ocr.py:29-32 | `.jpg` and `.jpeg` upload as JPEG and `.png` as PNG, in any case |
| MistralOcr.MimeOtherwise | ocr/mistral_ocr.py:33-34 | any other suffix uploads as octet-stream |
| MistralOcr.PagesTextSnoc | ocr/mistral_ocr.py:59-60 | the raw text is the page texts joined by blank lines, in page order |
| MistralOcr.PageWithoutMarkdown | ocr/mistral_ocr.py:60 | after any pages, a page without a `markdown` key adds only its separator, and alone it gives the empty text |
| MistralOcr.UnfencedUnchanged | ocr/mistral_ocr.py:104-108 | a reply not starting with a fence is kept as it is |
| MistralOcr.StripFencesKeepsContentLines | ocr/mistral_ocr.py:104-108 | fence removal keeps exactly the lines that are not fences, in order, and no fence line survives |
| MistralOcr.BlankTextSkipsModel | ocr/mistral_ocr.py:74-75 | blank raw text gives `{}` without asking the model |
| MistralOcr.ParsedReply | ocr/mistral_ocr.py:99-116 | for non-blank text the model is asked, and its reply without fences gives its parsed JSON, or `{}` when it does not parse |
| MistralOcr.CombinePdfText | ocr/mistral_ocr.py:154-160 | the PDF text joins the non-empty page texts with blank lines, in page order |
| MistralOcr.RunInvoiceOcr | ocr/mistral_ocr.py:139-176 | the result carries the raw text of the PDF or image branch, the structured extraction and the model name, or the extraction's error |
| ClaimAdapter.LoginWithPhone | app/services/claim_adapter.py:35-52 | login succeeds exactly for a non-error answer with a `sessionId`, and returns that id |
| ClaimAdapter.NormalizeBillPayload | app/services/claim_adapter.py:58-78 | a bill is built exactly when both amounts convert, otherwise the amount error |
| ClaimAdapter.NormalizedBillFields | app/services/claim_adapter.py:63-77 | default expense ids, one date for both ends (invoice date or today), each amount equal to what `float(v or 0)` reads from its field (0 when falsy), merchant and invoice number copied |
| ClaimAdapter.UpdateIffExisting | app/services/claim_adapter.py:113-127 | PUT to the claim's path exactly for mode `existing` with a non-zero claim number, else POST to `/api/claims` |
| ClaimAdapter.SentClaimShape | app/services/claim_adapter.py:94-127 | a sent claim holds the one normalised bill, its total is that bill's amount, and it is a draft |
| ClaimAdapter.UnauthorizedIsSessionExpired | app/services/claim_adapter.py:129-130 | a 401 is a session expiry whatever the body |
| ClaimAdapter.BillNos | app/services/claim_adapter.py:137 | the bill numbers are read exactly when every item is an object with `bill_no`, one per item in order |
| ClaimAdapter.ReturnedBillNos | app/services/claim_adapter.py:132-138 | a successful answer gives its claim number and one bill number per returned bill, none when `bills` is absent |
| ClaimAdapter.Basename | app/services/claim_adapter.py:160 | the file name is the path's last component: a suffix of it without `/` |
| ClaimAdapter.PartsFor | app/services/claim_adapter.py:156-161 | one part per file, in order, named by the file's last component |
| ClaimAdapter.FirstMissingFrom | app/services/claim_adapter.py:156-158 | no file is missing exactly when every file can be opened; a reported file cannot be |
| ClaimAdapter.FileTable.Open | app/services/claim_adapter.py:157 | opening succeeds exactly for a present file and adds one fresh handle |
| ClaimAdapter.OpenAll | app/services/claim_adapter.py:155-161 | fresh handles are opened up to the first missing file, and the parts are the files' parts when none is missing |
| ClaimAdapter.CloseAll | app/services/claim_adapter.py:180-182 | every handle opened is closed |
| ClaimAdapter.UploadBillAttachments | app/services/claim_adapter.py:144-182 | a request with every file goes out exactly when all files open; the result is the missing file, 401, another HTTP error or the body; no handle stays open |
| Flow.HandleIncoming | app/handler.py:324-453 | handling a message against the store gives the key space, reply, task and fault of `Incoming` |
| Flow.HandleGreeting | app/handler.py:338-354 | the greeting against the store is `Greet` |
| Flow.HandleText | app/handler.py:334-391 | the text branches against the store are `OnText` |
| Flow.HandleInvoiceImage | app/handler.py:394-424 | the invoice image branch against the store is `OnInvoiceImage` |
| Transitions.TextDispatch | app/handler.py:332-336 | a text message is handled with its stripped body and the stored state |
| Transitions.MediaDispatch | app/handler.py:394-427 | a media message is handled by the stored state |
| Transitions.IncomingConfined | app/handler.py:324-453 | a message writes only its sender's session, with `setex` and CHAT_TTL except for the image list and the counter |
| Transitions.OnlySenderSessionChanges | app/handler.py:324-453 | no key outside the sender's prefix changes |
| Transitions.OtherPhonesUntouched | app/handler.py:324-453 | another phone's fields are untouched when neither phone contains `:` |
| Transitions.UnknownEmployeeGreeted | app/handler.py:338-343 | an unknown employee (or number 0) is told so and left with no session field |
| Transitions.KnownEmployeeGreeted | app/handler.py:338-353 | a known employee gets the menu; the old session is cleared, and only the employee number, schema and WAITING_FOR_SERVICE are stored |
| Transitions.GreetingInAnyState | app/handler.py:336-339 | `hi` or `start`, in any case and with blanks around it, greets in every state |
| Transitions.ServiceChoice | app/handler.py:356-364 | `1` leads to the entity menu, `2` to the GRN upload, any other text does nothing |
| Transitions.EntityChoice | app/handler.py:366-374 | any answer stores an entity, EN0001 for `1` and EN0010 otherwise, and asks for the image count |
| Transitions.ImageCountNotANumber | app/handler.py:376-377 | a count that is not a number raises before any write |
| Transitions.ImageCountStartsBatch | app/handler.py:376-382 | a count stores the expected number and a received count of 0, deletes the image list, and awaits images |
| Transitions.BatchStart | app/handler.py:377-380 | a new batch reads back as n expected, 0 received and no images, and is consistent |
| Transitions.ChoiceStartsCommit | app/handler.py:385-391 | `1` or `2` starts the commit exactly in WAITING_FOR_CLAIM_CHOICE, writing nothing |
| Transitions.MediaElsewhereIgnored | app/handler.py:394-453 | media in any other state than the two upload states changes nothing |
| Transitions.GrnFileHandedOver | app/handler.py:427-453 | a GRN file is saved as `.pdf` exactly for mime type `application/pdf`, else `.jpg`, and handed to the GRN task |
| Transitions.CountsCompared | app/handler.py:413-423 | processing starts exactly when the received count reaches the expected one, else the progress is reported; an unreadable expected count raises |
| Transitions.InvoiceImageRecorded | app/handler.py:408-423 | an image appends one path, adds one to the counter, keeps both expiries, and writes nothing else |
| Transitions.InvoiceImageCounted | app/handler.py:394-424 | in WAITING_FOR_IMAGES an image is recorded and counted, and processing starts exactly at the expected count |
| Transitions.GreetingEndsBatch | app/handler.py:338-347 | a greeting leaves no batch in progress |
| Transitions.TextKeepsBatch | app/handler.py:334-391 | a text message keeps the received count equal to the number of images |
| Transitions.MediaKeepsBatch | app/handler.py:394-453 | a media message keeps the received count equal to the number of images |
| Transitions.BatchStaysConsistent | app/handler.py:324-453 | every message keeps the received count equal to the number of images |
| Transitions.ExtraImageReprocesses | app/handler.py:411-421 | an image after the batch completes starts processing again |
| Transitions.WrittenStatesDeclared | app/handler.py:347-380 | a written state is a declared state other than WAITING_FOR_ADD_ANOTHER |
| Transitions.WritesExpire | app/handler.py:345-380 | every key written with `setex` expires after CHAT_TTL |
| Transitions.ImageListNeverExpires | app/handler.py:379-411 | the image list of a new batch has no expiry |
| Tasks.GrnReplyCases | app/handler.py:161-181 | success exactly for a truthy SharePoint URL and status `Success`; failure exactly when extraction raised or gave no object |
| Tasks.GrnEndsSession | app/handler.py:182-183 | whatever the outcome, the session is cleared and other keys are kept |
| Tasks.ProcessGrnAsync | app/handler.py:161-183 | the task against the store is `GrnProcessing` |
| OcrTask.ExtractedBills | app/handler.py:194-196 | bills are extracted exactly when OCR succeeds for every image: one per image, the structured result or `{}` |
| OcrTask.ExtractAll | app/handler.py:194-196 | the OCR loop computes `ExtractedBills` |
| OcrTask.ProcessingInputs | app/handler.py:189-192 | when the inputs can be read, the images given are the stored image list |
| OcrTask.ClaimChoiceOffered | app/handler.py:188-219 | on reply: one stored bill per image, the draft stored, WAITING_FOR_CLAIM_CHOICE, and the draft offered exactly for a non-zero claim number |
| OcrTask.StoredResults | app/handler.py:198-211 | the stored bills, draft text and state are those of the results |
| OcrTask.ProcessingWritesThreeKeys | app/handler.py:198-211 | only the bills, the draft number and the state are written, each with CHAT_TTL |
| OcrTask.OcrFailureWritesNothing | app/handler.py:194-196 | an OCR error on any image leaves the store unchanged and sends nothing |
| OcrTask.OcrAsCalled | app/handler.py:196 | the call as written raises for every image |
| OcrTask.BatchStallsAsCalled | app/handler.py:194-196 | as written, a non-empty batch stores nothing and sends nothing |
| OcrTask.ReadInputs | app/handler.py:189-192 | the reads against the store are `ProcessingInputs` |
| OcrTask.WriteResults | app/handler.py:198-219 | the writes against the store are `StoreResults` |
| OcrTask.ProcessClaimAsync | app/handler.py:188-219 | the task against the store is `ClaimProcessing` |
| CommitTask.BillsDoc | app/handler.py:230 | no stored bills raise; bills stored by the OCR task read back as stored |
| CommitTask.DraftNumber | app/handler.py:233-234 | no or empty draft text is no draft; a draft is the number `int()` reads |
| CommitTask.DraftRoundTrip | app/handler.py:233-234 | the draft text the OCR task stores reads back as the claim number, or as no draft for 0 |
| CommitTask.SessionReadsBack | app/handler.py:226-234 | a session with these fields is read as those values |
| CommitTask.ProcessedSessionReadsBack | app/handler.py:198-234 | what the OCR task stores is what the commit reads: bills, images, employee number and draft |
| CommitTask.Items | app/handler.py:245 | iterating a list gives its items; only a list gives a non-empty sequence |
| CommitTask.PrepareBillCases | app/handler.py:245-260 | a bill is prepared exactly when it is an object whose amount `float()` reads; otherwise the not-a-list or the amount error |
| CommitTask.PreparedBillFields | app/handler.py:246-260 | a prepared bill has the expense type, the amount read, canonical dates with the end date falling back to the start date, and the merchant name and invoice number copied |
| CommitTask.PreparedBills | app/handler.py:245-260 | bills are prepared exactly when every one prepares: one per bill, in order |
| CommitTask.FailureStays | app/handler.py:245-260 | the first bill that fails decides the error |
| CommitTask.TotalBoundsEachBill | app/handler.py:243-247 | with non-negative amounts the total bounds every bill's amount |
| CommitTask.PrepareBills | app/handler.py:242-260 | the bills loop computes `PreparedBills` and its running total is the sum of the amounts |
| CommitTask.ClaimPathCases | app/handler.py:274-278 | the claim goes to the draft exactly for choice `1` with a non-zero draft |
| CommitTask.SavedClaim | app/handler.py:290-297 | a non-200 answer is rejected with its status; the claim is accepted exactly when the answer is 200, an object with `claim_no`, and `bills` that can be iterated, giving that claim number and those bills |
| CommitTask.EveryBillUploaded | app/handler.py:294-300 | when every upload succeeds, each returned bill gets one upload with every image, in order |
| CommitTask.UploadStep | app/handler.py:294-300 | one turn of the upload loop continues after success and stops after a failure |
| CommitTask.UploadBill | app/handler.py:295-300 | one call of the upload sends the request and gives the result of `UploadResult` |
| CommitTask.UploadAll | app/handler.py:294-300 | the upload loop computes `UploadsFrom` and leaves no file open |
| CommitTask.CommittedCases | app/handler.py:280-318 | once the request is built, saving clears the session and failing changes nothing |
| CommitTask.CommitSavesOrKeeps | app/handler.py:224-318 | the claim is saved and the session cleared exactly when the request is built, the POST succeeds and every upload succeeds; otherwise nothing changes |
| CommitTask.SavedClaimUploads | app/handler.py:280-311 | a saved claim was answered 200, and every returned bill got one upload with every image |
| CommitTask.CommittedUploads | app/handler.py:280-311 | the same, once the request is built |
| CommitTask.RequestFromSession | app/handler.py:262-291 | the request carries the chosen path, the login's session id, the stored employee and entity, the total of its bills, and exactly the bills prepared from the extracted bills, in order |
| CommitTask.UploadFailureAfterSave | app/handler.py:293-318 | an upload failure after a 200 reports failure and keeps the session |
| CommitTask.KeptFieldReads | app/handler.py:198-211 | fields the OCR task does not write read the same afterwards |
| CommitTask.ReadSession | app/handler.py:226-234 | the reads against the store are `ReadClaimSession` |
| CommitTask.CommitClaimAsync | app/handler.py:224-318 | the task against the store and the file table is `ClaimCommit`, and no file stays open |

## Left out

- HTTP calls are not modelled. Each answer is a parameter:
  - the WhatsApp media download and the replies sent;
  - the claims back office;
  - the OCR and chat-completion endpoints;
  - the GRN extraction.
- The replies' `context.message_id` is not modelled. Each reply is a constructor of `Reply` or `TaskReply`, without its exact emoji text or the exception text that `commit_claim` appends.
- The SQL queries (employee lookup, latest drafted claim, expense type ids) are parameters. Each is a `Lookup` value: found, no row, or raised. The tenant is always text. A `None` tenant makes `setex` of the schema raise after `emp_no` is written (app/handler.py:345-346), which leaves `emp_no` alone in the session with no state and no menu; the model instead writes the schema and sends the menu.
- Threads and the interleaving of a task with later messages are not modelled. Each task is modelled on its own, from the key space it starts with.
- Redis expiry is not modelled: keys carry their TTL but never expire.
  - `scan_iter`'s glob is taken as a plain prefix.
  - Responses are assumed decoded to text.
- Webhook JSON parsing is left out: the message arrives already split into sender, id and content.
- `json.dumps` and `json.loads` are taken to round-trip exactly for the bills the service writes.
- An `entity_id` stored as JSON text is carried as an array in the payload. The service only ever stores plain text there.
- Python's `float` is given by a parameter, and amounts are exact reals, not floating point.
- MistralOcr.RunInvoiceOcr: a failing OCR request inside `_ocr_image` (ocr/mistral_ocr.py:43-56) is not modelled; the OCR pages are given as parameters, so the result's error covers only the chat-completion step. Each task sees any such failure through the OCR function's `Err`.
- `resp.json()` on a body that is not JSON is not modelled. Bodies are JSON values.
- An OCR page whose `markdown` is JSON `null` is not modelled: `p.get("markdown", "")` then gives `None` and the join raises (ocr/mistral_ocr.py:60). `Page`'s `None` stands only for a missing key, which gives the empty text.
- Text handling is ASCII only:
  - Case folding and white space follow ASCII.
  - `int()` accepts ASCII digits only, not other Unicode decimal digits.
- Login answers that are not JSON objects give one generic error.
- `Path.name` of a path ending in `/` is taken as empty. Python instead strips the trailing slash.
- Dates.NormalizeDate: a year below 1000 is written with four digits. `strftime` on some platforms does not pad it.
- A failing send inside `commit_claim`'s `try` is not modelled. Sends always succeed.
- PDF-to-image conversion and the temporary files it writes are left out. The OCR pages of each rendered page are a parameter.

## Findings

| source | as written | input that shows it | evidently intended | confidence | as-written member | corrected member |
|---|---|---|---|---|---|---|
| app/handler.py:196 | `run_invoice_ocr(img)` passes one argument. `run_invoice_ocr` (ocr/mistral_ocr.py:139) requires `file_path` and `expense_mapping`, so every call raises a TypeError, which `process_claim_async` does not catch. | any batch with at least one image: the thread dies, nothing is stored, no reply is sent, and the state stays WAITING_FOR_IMAGES | the expense mapping is passed, OCR runs on each image, and the claim choice is offered | high; not executed | OcrTask.BatchStallsAsCalled | OcrTask.ClaimChoiceOffered |
