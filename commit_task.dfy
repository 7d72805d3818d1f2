/**
 * `commit_claim`: read the session, log in, look up the expense type, turn every
 * extracted bill into a claim bill, POST the claim (to the draft when the user chose to
 * add to it), upload every image to every bill the back office returns, and clear the
 * session. Any exception is reported as a failure and leaves the session as it was.
 */
module CommitTask {
  import opened Wrappers
  import opened Numbers
  import opened JsonValues
  import opened Redis
  import opened Session
  import opened Flow
  import opened Dates
  import opened ClaimAdapter
  import opened Tasks
  import opened OcrTask

  /**
   * The services `commit_claim` calls, each given by its answer: the login, the expense
   * type query, `json.loads`, Python's `float` of a string, the claim POST, and the k-th
   * attachment upload.
   */
  datatype Backend = Backend(
    login: HttpResponse,
    expenseIds: Lookup<(int, int)>,
    loads: string -> Option<Json>,
    parse: string -> Option<real>,
    post: HttpResponse,
    upload: nat -> HttpResponse)

  /** What `commit_claim` reads from the session before it calls out. */
  datatype ClaimSession = ClaimSession(empNo: int, entityId: Json, bills: Json, images: seq<string>, draft: Option<int>)

  /** One prepared bill of the payload. */
  datatype PreparedBill = PreparedBill(
    expenseTypeId: int,
    expenseSubTypeId: int,
    fromDate: Option<string>,
    toDate: Option<string>,
    billAmount: real,
    merchantName: Json,
    invoiceNumber: Json)

  /** The claim request: its path under the API base, the session header and the payload. */
  datatype CommitRequest = CommitRequest(path: string, sessionId: Json, payload: ClaimPayload<PreparedBill>)

  /** The uploads sent, and the error that stopped them if any. */
  datatype UploadRun = UploadRun(sent: seq<UploadRequest>, error: Option<CommitError>)

  /** The key space after the task, the message sent, the claim request and the uploads. */
  datatype CommitOutcome = CommitOutcome(db: Db, reply: TaskReply, request: Option<CommitRequest>, uploads: seq<UploadRequest>)

  function ReadField(db: Db, phone: string, field: string): Result<Option<Value>, CommitError> {
    match Read(db, RKey(phone, field))
    case Err(e) => Err(StoreFailed(e))
    case Ok(v) => Ok(v)
  }

  /** `int(...)` of a stored number; `int(None)` raises as well. */
  function NumberOf(v: Option<Value>): Result<int, CommitError> {
    match IntOfValue(v)
    case None => Err(BadNumber)
    case Some(n) => Ok(n)
  }

  /** A stored text as the payload carries it; a missing one is null. */
  function TextOf(v: Option<Value>): Json {
    match v
    case Some(Str(s)) => JStr(s)
    case Some(JsonText(doc)) => JArr(doc)
    case _ => JNull
  }

  /** `json.loads` of the stored bills: a missing key raises, JSON text written by the service reads back as written. */
  function BillsDoc(v: Option<Value>, loads: string -> Option<Json>): (r: Result<Json, CommitError>)
    ensures v.None? ==> r == Err(NoBills)
    ensures v.Some? && v.value.JsonText? ==> r == Ok(JArr(v.value.doc))
  {
    match v
    case None => Err(NoBills)
    case Some(JsonText(doc)) => Ok(JArr(doc))
    case Some(Str(s)) => (match loads(s) case None => Err(BadJson) case Some(j) => Ok(j))
    case Some(List(_)) => Err(StoreFailed(WrongType))
  }

  /** `int(draft_raw) if draft_raw else None`. */
  function DraftNumber(v: Option<Value>): (r: Result<Option<int>, CommitError>)
    ensures v.None? || v == Some(Str("")) ==> r == Ok(None)
    ensures r.Ok? && r.value.Some? ==> v.Some? && v.value.Str? && PyInt(v.value.s) == r.value
  {
    match v
    case None => Ok(None)
    case Some(Str(s)) =>
      if s == "" then Ok(None)
      else (match PyInt(s) case None => Err(BadNumber) case Some(n) => Ok(Some(n)))
    case Some(_) => Err(BadNumber)
  }

  /** The draft number stored by `process_claim_async` reads back as the claim number, or as no draft for 0. */
  lemma DraftRoundTrip(n: int)
    ensures DraftNumber(Some(Str(DraftText(n)))) == Ok(if n != 0 then Some(n) else None)
  {
    if n != 0 {
      PyIntOfIntToString(n);
    }
  }

  /** The reads at the top of `commit_claim`, in the order they can raise. */
  function ReadClaimSession(db: Db, phone: string, loads: string -> Option<Json>): Result<ClaimSession, CommitError> {
    var emp :- ReadField(db, phone, "emp_no");
    var empNo :- NumberOf(emp);
    var schema :- ReadField(db, phone, "schema");
    var entity :- ReadField(db, phone, "entity_id");
    var billsText :- ReadField(db, phone, "extracted_bills");
    var bills :- BillsDoc(billsText, loads);
    var images :- match Range(db, RKey(phone, "images")) case Err(e) => Err(StoreFailed(e)) case Ok(xs) => Ok(xs);
    var draftRaw :- ReadField(db, phone, "draft_claim_no");
    var draft :- DraftNumber(draftRaw);
    Ok(ClaimSession(empNo, TextOf(entity), bills, images, draft))
  }

  /**
   * `for x in j`, where every `x` must then be an object: a list gives its items, an empty
   * object or string gives nothing, and any other value raises, at once or at its first
   * element (a key or a character).
   */
  function Items(j: Json): (r: Option<seq<Json>>)
    ensures j.JArr? ==> r == Some(j.items)
    ensures r.Some? && r.value != [] ==> j.JArr?
  {
    match j
    case JArr(items) => Some(items)
    case JObj(f) => if f == map[] then Some([]) else None
    case JStr(s) => if s == "" then Some([]) else None
    case _ => None
  }

  /** One step of the bills loop: the amount as `float(amount or 0)`, the dates normalised, the end date falling back to the start date. */
  function PrepareBill(bill: Json, et: int, est: int, parse: string -> Option<real>): Result<PreparedBill, CommitError> {
    match bill
    case JObj(f) =>
      (match AmountOf(Get(f, "amount"), parse)
       case None => Err(AmountUnreadable)
       case Some(amount) =>
         var from := NormalizeDate(Get(f, "from_date"));
         var to := if NormalizeDate(Get(f, "to_date")).Some? then NormalizeDate(Get(f, "to_date")) else from;
         Ok(PreparedBill(et, est, from, to, amount, Get(f, "merchant_name"), Get(f, "invoice_number"))))
    case _ => Err(NotABillList)
  }

  /**
   * A bill is prepared exactly when it is an object whose amount `float()` reads; an
   * item that is not an object fails first, then an unreadable amount.
   */
  lemma PrepareBillCases(bill: Json, et: int, est: int, parse: string -> Option<real>)
    ensures PrepareBill(bill, et, est, parse).Ok? <==> bill.JObj? && AmountOf(Get(bill.fields, "amount"), parse).Some?
    ensures !bill.JObj? ==> PrepareBill(bill, et, est, parse) == Err(NotABillList)
    ensures bill.JObj? && AmountOf(Get(bill.fields, "amount"), parse).None? ==> PrepareBill(bill, et, est, parse) == Err(AmountUnreadable)
  {
  }

  /**
   * A prepared bill carries the expense type found, the amount read, and dates in the
   * canonical form (normalising them again changes nothing); the end date is the start
   * date when the bill's own end date does not normalise.
   */
  lemma PreparedBillFields(bill: Json, et: int, est: int, parse: string -> Option<real>)
    requires PrepareBill(bill, et, est, parse).Ok?
    ensures bill.JObj?
    ensures var b := PrepareBill(bill, et, est, parse).value;
      && b.expenseTypeId == et && b.expenseSubTypeId == est
      && Some(b.billAmount) == AmountOf(Get(bill.fields, "amount"), parse)
      && b.fromDate == NormalizeDate(Get(bill.fields, "from_date"))
      && (NormalizeDate(Get(bill.fields, "to_date")).None? ==> b.toDate == b.fromDate)
      && (NormalizeDate(Get(bill.fields, "to_date")).Some? ==> b.toDate == NormalizeDate(Get(bill.fields, "to_date")))
      && (b.fromDate.Some? ==> NormalizeDate(JStr(b.fromDate.value)) == b.fromDate)
      && (b.toDate.Some? ==> NormalizeDate(JStr(b.toDate.value)) == b.toDate)
      && b.merchantName == Get(bill.fields, "merchant_name")
      && b.invoiceNumber == Get(bill.fields, "invoice_number")
  {
    var f := bill.fields;
    if NormalizeDate(Get(f, "from_date")).Some? {
      NormalizeIdempotent(Get(f, "from_date"));
    }
    if NormalizeDate(Get(f, "to_date")).Some? {
      NormalizeIdempotent(Get(f, "to_date"));
    }
  }

  /** The bills loop: every bill prepared in order, or the first error. */
  function PreparedBills(items: seq<Json>, et: int, est: int, parse: string -> Option<real>): (r: Result<seq<PreparedBill>, CommitError>)
    ensures r.Ok? <==> forall i :: 0 <= i < |items| ==> PrepareBill(items[i], et, est, parse).Ok?
    ensures r.Ok? ==> |r.value| == |items|
    ensures r.Ok? ==> forall i :: 0 <= i < |items| ==> r.value[i] == PrepareBill(items[i], et, est, parse).value
    decreases |items|
  {
    if items == [] then Ok([])
    else
      var init := items[..|items| - 1];
      match PreparedBills(init, et, est, parse)
      case Err(e) => Err(e)
      case Ok(prefix) =>
        match PrepareBill(items[|items| - 1], et, est, parse)
        case Err(e) => Err(e)
        case Ok(b) => Ok(prefix + [b])
  }

  /** Once a prefix of the bills fails, the loop fails with the same error. */
  lemma {:induction false} FailureStays(items: seq<Json>, n: nat, et: int, est: int, parse: string -> Option<real>)
    requires n <= |items|
    requires PreparedBills(items[..n], et, est, parse).Err?
    ensures PreparedBills(items, et, est, parse) == PreparedBills(items[..n], et, est, parse)
    decreases |items| - n
  {
    if n < |items| {
      assert items[..n + 1][..n] == items[..n];
      FailureStays(items, n + 1, et, est, parse);
    } else {
      assert items[..n] == items;
    }
  }

  /** `total_amount`: the sum of the bill amounts. */
  function TotalAmount(bills: seq<PreparedBill>): real
    decreases |bills|
  {
    if bills == [] then 0.0 else TotalAmount(bills[..|bills| - 1]) + bills[|bills| - 1].billAmount
  }

  /** The total of a list of bills with non-negative amounts is at least each of them. */
  lemma {:induction false} TotalBoundsEachBill(bills: seq<PreparedBill>, i: int)
    requires forall j :: 0 <= j < |bills| ==> bills[j].billAmount >= 0.0
    requires 0 <= i < |bills|
    ensures 0.0 <= bills[i].billAmount <= TotalAmount(bills)
    decreases |bills|
  {
    var init := bills[..|bills| - 1];
    if i < |bills| - 1 {
      TotalBoundsEachBill(init, i);
    } else if init != [] {
      TotalBoundsEachBill(init, 0);
    }
  }

  /** One more bill: the loop so far is extended by it, or stops at its error. */
  lemma PreparedStep(items: seq<Json>, i: nat, et: int, est: int, parse: string -> Option<real>, prepared: seq<PreparedBill>)
    requires i < |items| && PreparedBills(items[..i], et, est, parse) == Ok(prepared)
    ensures PreparedBills(items[..i + 1], et, est, parse)
            == match PrepareBill(items[i], et, est, parse)
               case Err(e) => Err(e)
               case Ok(b) => Ok(prepared + [b])
  {
    assert items[..i + 1][..i] == items[..i];
    assert items[..i + 1][i] == items[i];
  }

  /** The bills loop of `commit_claim`, with its running total. */
  method PrepareBills(items: seq<Json>, et: int, est: int, parse: string -> Option<real>)
    returns (r: Result<seq<PreparedBill>, CommitError>, total: real)
    ensures r == PreparedBills(items, et, est, parse)
    ensures r.Ok? ==> total == TotalAmount(r.value)
  {
    var prepared: seq<PreparedBill> := [];
    total := 0.0;
    var i := 0;
    while i < |items|
      invariant 0 <= i <= |items|
      invariant PreparedBills(items[..i], et, est, parse) == Ok(prepared)
      invariant total == TotalAmount(prepared)
    {
      var b := PrepareBill(items[i], et, est, parse);
      PreparedStep(items, i, et, est, parse, prepared);
      if b.Err? {
        FailureStays(items, i + 1, et, est, parse);
        r := Err(b.error);
        return;
      }
      prepared := prepared + [b.value];
      total := total + b.value.billAmount;
      i := i + 1;
    }
    assert items[..i] == items;
    r := Ok(prepared);
  }

  /** The claim's path: the draft when the user chose to add to it and there is a draft, a new claim otherwise. */
  function ClaimPath(choice: string, draft: Option<int>): string {
    if choice == "1" && draft.Some? && draft.value != 0 then "/api/claims/" + IntToString(draft.value) else "/api/claims"
  }

  /** The request goes to the draft exactly when the user answered "1" and a non-zero draft number is stored. */
  lemma ClaimPathCases(choice: string, draft: Option<int>)
    ensures ClaimPath(choice, draft) != "/api/claims" <==> choice == "1" && draft.Some? && draft.value != 0
    ensures ClaimPath(choice, draft) != "/api/claims" ==> ClaimPath(choice, draft) == "/api/claims/" + IntToString(draft.value)
  {
    if choice == "1" && draft.Some? && draft.value != 0 {
      assert |ClaimPath(choice, draft)| > |"/api/claims"|;
    }
  }

  /** The claim header of the payload. */
  function Header(empNo: int, entityId: Json, total: real): ClaimHeader {
    ClaimHeader("WhatsApp Claim", "Created via WhatsApp", empNo, entityId, total, "Drafted")
  }

  /** Everything before the POST: the session reads, the login, the expense type and the bills. */
  function CommitRequestFor(db: Db, phone: string, choice: string, be: Backend): Result<(CommitRequest, seq<string>), CommitError> {
    var s :- ReadClaimSession(db, phone, be.loads);
    var auth :- match LoginWithPhone(be.login) case Err(e) => Err(LoginError(e)) case Ok(a) => Ok(a);
    var ids :- match be.expenseIds case Found(ids) => Ok(ids) case _ => Err(ExpenseTypeUnavailable);
    var items :- match Items(s.bills) case None => Err(NotABillList) case Some(xs) => Ok(xs);
    var bills :- PreparedBills(items, ids.0, ids.1, be.parse);
    var payload := ClaimPayload(Header(s.empNo, s.entityId, TotalAmount(bills)), bills);
    Ok((CommitRequest(ClaimPath(choice, s.draft), auth.sessionId, payload), s.images))
  }

  /** The claim POST's answer: status 200 with an object holding `claim_no` and an iterable `bills`. */
  function SavedClaim(resp: HttpResponse): (r: Result<(Json, seq<Json>), CommitError>)
    ensures resp.status != 200 ==> r == Err(Rejected(resp.status))
    ensures r.Ok? ==>
      && resp.status == 200 && resp.body.JObj? && "claim_no" in resp.body.fields
      && r.value.0 == resp.body.fields["claim_no"] && "bills" in resp.body.fields
      && Items(resp.body.fields["bills"]) == Some(r.value.1)
    ensures r.Ok? <==>
      && resp.status == 200 && resp.body.JObj?
      && "claim_no" in resp.body.fields && "bills" in resp.body.fields
      && Items(resp.body.fields["bills"]).Some?
  {
    if resp.status != 200 then Err(Rejected(resp.status))
    else match resp.body
      case JObj(data) =>
        if "claim_no" !in data || "bills" !in data then Err(MalformedReply)
        else (match Items(data["bills"]) case None => Err(MalformedReply) case Some(items) => Ok((data["claim_no"], items)))
      case _ => Err(MalformedReply)
  }

  /** `bill["bill_no"]`. */
  function BillNoOf(item: Json): Option<Json> {
    if item.JObj? && "bill_no" in item.fields then Some(item.fields["bill_no"]) else None
  }

  predicate AllPresent(files: seq<string>, present: set<string>) {
    forall j :: 0 <= j < |files| ==> files[j] in present
  }

  /** The request `upload_bill_attachments` sends: none when a file cannot be opened. */
  function SentFor(sessionId: Json, claimNo: Json, billNo: Json, files: seq<string>, present: set<string>): seq<UploadRequest> {
    if AllPresent(files, present) then [UploadRequest(sessionId, claimNo, billNo, PartsFor(files))] else []
  }

  /** The upload loop from the k-th returned bill on; `resp(k)` answers the k-th upload. */
  function UploadsFrom(items: seq<Json>, k: nat, sessionId: Json, claimNo: Json, files: seq<string>,
                       present: set<string>, resp: nat -> HttpResponse): UploadRun
    decreases |items| - k
  {
    if k >= |items| then UploadRun([], None)
    else match BillNoOf(items[k])
      case None => UploadRun([], Some(MalformedReply))
      case Some(billNo) =>
        var sent := SentFor(sessionId, claimNo, billNo, files, present);
        match UploadResult(files, present, resp(k))
        case Err(e) => UploadRun(sent, Some(UploadFailed(e)))
        case Ok(_) =>
          var rest := UploadsFrom(items, k + 1, sessionId, claimNo, files, present, resp);
          UploadRun(sent + rest.sent, rest.error)
  }

  /** When every upload succeeds, each returned bill got exactly one upload carrying every image, in order. */
  lemma {:induction false} EveryBillUploaded(items: seq<Json>, k: nat, sessionId: Json, claimNo: Json, files: seq<string>,
                                              present: set<string>, resp: nat -> HttpResponse)
    requires k <= |items|
    requires UploadsFrom(items, k, sessionId, claimNo, files, present, resp).error.None?
    ensures var run := UploadsFrom(items, k, sessionId, claimNo, files, present, resp);
      && |run.sent| == |items| - k
      && forall i :: k <= i < |items| ==>
           BillNoOf(items[i]).Some?
           && run.sent[i - k] == UploadRequest(sessionId, claimNo, BillNoOf(items[i]).value, PartsFor(files))
    decreases |items| - k
  {
    if k < |items| {
      var rest := UploadsFrom(items, k + 1, sessionId, claimNo, files, present, resp);
      assert UploadResult(files, present, resp(k)).Ok?;
      assert FirstMissingFrom(files, present, 0).None?;
      assert AllPresent(files, present);
      EveryBillUploaded(items, k + 1, sessionId, claimNo, files, present, resp);
    }
  }

  /** The upload loop so far: `sent` went out before the k-th returned bill. */
  ghost predicate UploadedUpTo(whole: UploadRun, sent: seq<UploadRequest>, items: seq<Json>, k: nat, sessionId: Json,
                               claimNo: Json, files: seq<string>, present: set<string>, resp: nat -> HttpResponse)
  {
    var rest := UploadsFrom(items, k, sessionId, claimNo, files, present, resp);
    whole == UploadRun(sent + rest.sent, rest.error)
  }

  /** One turn of the upload loop: a successful upload moves on to the next bill, a failed one ends the loop. */
  lemma UploadStep(whole: UploadRun, sent: seq<UploadRequest>, items: seq<Json>, k: nat, sessionId: Json, claimNo: Json,
                   files: seq<string>, present: set<string>, resp: nat -> HttpResponse)
    requires k < |items| && BillNoOf(items[k]).Some?
    requires UploadedUpTo(whole, sent, items, k, sessionId, claimNo, files, present, resp)
    ensures var one := SentFor(sessionId, claimNo, BillNoOf(items[k]).value, files, present);
      var r := UploadResult(files, present, resp(k));
      && (r.Ok? ==> UploadedUpTo(whole, sent + one, items, k + 1, sessionId, claimNo, files, present, resp))
      && (r.Err? ==> whole == UploadRun(sent + one, Some(UploadFailed(r.error))))
  {
    var one := SentFor(sessionId, claimNo, BillNoOf(items[k]).value, files, present);
    var rest := UploadsFrom(items, k + 1, sessionId, claimNo, files, present, resp);
    assert sent + (one + rest.sent) == (sent + one) + rest.sent;
  }

  /** One call of `upload_bill_attachments` in the loop. */
  method UploadBill(fs: FileTable, sessionId: Json, claimNo: Json, billNo: Json, files: seq<string>, resp: HttpResponse)
    returns (one: seq<UploadRequest>, r: Result<Json, AdapterError>)
    requires fs.Valid()
    modifies fs
    ensures fs.Valid() && fs.present == old(fs.present) && fs.openHandles == old(fs.openHandles)
    ensures one == SentFor(sessionId, claimNo, billNo, files, old(fs.present))
    ensures r == UploadResult(files, old(fs.present), resp)
  {
    ghost var present := fs.present;
    var request;
    request, r := UploadBillAttachments(fs, sessionId, claimNo, billNo, files, resp);
    assert request.Some? <==> AllPresent(files, present);
    one := if request.Some? then [request.value] else [];
  }

  /** The upload loop of `commit_claim`: one `upload_bill_attachments` per returned bill, stopping at the first that raises. */
  method UploadAll(fs: FileTable, items: seq<Json>, sessionId: Json, claimNo: Json, files: seq<string>, resp: nat -> HttpResponse)
    returns (sent: seq<UploadRequest>, error: Option<CommitError>)
    requires fs.Valid()
    modifies fs
    ensures fs.Valid() && fs.present == old(fs.present) && fs.openHandles == old(fs.openHandles)
    ensures UploadRun(sent, error) == UploadsFrom(items, 0, sessionId, claimNo, files, old(fs.present), resp)
  {
    ghost var present := fs.present;
    ghost var whole := UploadsFrom(items, 0, sessionId, claimNo, files, present, resp);
    assert [] + whole.sent == whole.sent;
    sent, error := [], None;
    var k := 0;
    while k < |items|
      invariant 0 <= k <= |items|
      invariant fs.Valid() && fs.present == present && fs.openHandles == old(fs.openHandles)
      invariant UploadedUpTo(whole, sent, items, k, sessionId, claimNo, files, present, resp)
    {
      var billNo := BillNoOf(items[k]);
      if billNo.None? {
        error := Some(MalformedReply);
        assert sent + [] == sent;
        return;
      }
      var one, r := UploadBill(fs, sessionId, claimNo, billNo.value, files, resp(k));
      UploadStep(whole, sent, items, k, sessionId, claimNo, files, present, resp);
      sent := sent + one;
      if r.Err? {
        error := Some(UploadFailed(r.error));
        return;
      }
      k := k + 1;
    }
    assert sent + [] == sent;
  }

  /** What happens once the request is built (or not): the POST, the uploads, and the reply. */
  function Committed(db: Db, phone: string, built: Result<(CommitRequest, seq<string>), CommitError>,
                     present: set<string>, be: Backend): CommitOutcome {
    match built
    case Err(e) => CommitOutcome(db, ClaimFailed(e), None, [])
    case Ok((request, images)) =>
      match SavedClaim(be.post)
      case Err(e) => CommitOutcome(db, ClaimFailed(e), Some(request), [])
      case Ok((claimNo, refs)) =>
        var run := UploadsFrom(refs, 0, request.sessionId, claimNo, images, present, be.upload);
        match run.error
        case Some(e) => CommitOutcome(db, ClaimFailed(e), Some(request), run.sent)
        case None => CommitOutcome(Cleared(db, phone), ClaimSaved(claimNo), Some(request), run.sent)
  }

  /**
   * `commit_claim` on the key space: the request is built from the session; the claim is
   * saved and the session cleared only when the POST answers 200 and every upload
   * succeeds; any failure is reported and leaves the key space unchanged.
   */
  function ClaimCommit(db: Db, phone: string, choice: string, present: set<string>, be: Backend): CommitOutcome {
    Committed(db, phone, CommitRequestFor(db, phone, choice, be), present, be)
  }

  lemma CommittedCases(db: Db, phone: string, built: Result<(CommitRequest, seq<string>), CommitError>, present: set<string>, be: Backend)
    ensures var o := Committed(db, phone, built, present, be);
      && (o.reply.ClaimSaved? || o.reply.ClaimFailed?)
      && (o.reply.ClaimFailed? ==> o.db == db)
      && (o.reply.ClaimSaved? ==> o.db == Cleared(db, phone))
      && (o.reply.ClaimSaved? <==>
            && built.Ok?
            && SavedClaim(be.post).Ok?
            && UploadsFrom(SavedClaim(be.post).value.1, 0, built.value.0.sessionId,
                           SavedClaim(be.post).value.0, built.value.1, present, be.upload).error.None?)
      && (o.request.Some? <==> built.Ok?)
  {
  }

  /**
   * The commit either saves the claim and clears the whole session, or reports the
   * failure and changes nothing; it saves exactly when the request was built, the POST
   * answered 200 with a usable body, and every upload succeeded.
   */
  lemma CommitSavesOrKeeps(db: Db, phone: string, choice: string, present: set<string>, be: Backend)
    ensures var o := ClaimCommit(db, phone, choice, present, be);
      && (o.reply.ClaimSaved? || o.reply.ClaimFailed?)
      && (o.reply.ClaimFailed? ==> o.db == db)
      && (o.reply.ClaimSaved? ==> o.db == Cleared(db, phone))
      && (o.reply.ClaimSaved? <==>
            && CommitRequestFor(db, phone, choice, be).Ok?
            && SavedClaim(be.post).Ok?
            && UploadsFrom(SavedClaim(be.post).value.1, 0, CommitRequestFor(db, phone, choice, be).value.0.sessionId,
                           SavedClaim(be.post).value.0, CommitRequestFor(db, phone, choice, be).value.1, present, be.upload).error.None?)
      && (o.request.Some? <==> CommitRequestFor(db, phone, choice, be).Ok?)
  {
    CommittedCases(db, phone, CommitRequestFor(db, phone, choice, be), present, be);
  }

  /** Each returned bill got exactly one upload, in order, carrying every image of the batch. */
  predicate EveryBillGot(uploads: seq<UploadRequest>, refs: seq<Json>, sessionId: Json, claimNo: Json, images: seq<string>) {
    && |uploads| == |refs|
    && forall i :: 0 <= i < |refs| ==>
         BillNoOf(refs[i]).Some?
         && uploads[i] == UploadRequest(sessionId, claimNo, BillNoOf(refs[i]).value, PartsFor(images))
  }

  /**
   * A saved claim was POSTed with answer 200, and every bill the back office returned
   * got exactly one upload carrying every image of the batch, in order.
   */
  lemma SavedClaimUploads(db: Db, phone: string, choice: string, present: set<string>, be: Backend)
    requires ClaimCommit(db, phone, choice, present, be).reply.ClaimSaved?
    ensures CommitRequestFor(db, phone, choice, be).Ok? && SavedClaim(be.post).Ok? && be.post.status == 200
    ensures var o := ClaimCommit(db, phone, choice, present, be);
      var (request, images) := CommitRequestFor(db, phone, choice, be).value;
      var (claimNo, refs) := SavedClaim(be.post).value;
      && o.request == Some(request)
      && o.reply == ClaimSaved(claimNo)
      && EveryBillGot(o.uploads, refs, request.sessionId, claimNo, images)
  {
    CommittedUploads(db, phone, CommitRequestFor(db, phone, choice, be), present, be);
  }

  lemma CommittedUploads(db: Db, phone: string, built: Result<(CommitRequest, seq<string>), CommitError>, present: set<string>, be: Backend)
    requires Committed(db, phone, built, present, be).reply.ClaimSaved?
    ensures built.Ok? && SavedClaim(be.post).Ok? && be.post.status == 200
    ensures var o := Committed(db, phone, built, present, be);
      var (request, images) := built.value;
      var (claimNo, refs) := SavedClaim(be.post).value;
      && o.request == Some(request)
      && o.reply == ClaimSaved(claimNo)
      && EveryBillGot(o.uploads, refs, request.sessionId, claimNo, images)
  {
    CommittedSaved(db, phone, built, present, be);
    RunReachesEveryBill(SavedClaim(be.post).value.1, built.value.0.sessionId, SavedClaim(be.post).value.0,
                        built.value.1, present, be.upload);
  }

  lemma RunReachesEveryBill(refs: seq<Json>, sessionId: Json, claimNo: Json, images: seq<string>,
                            present: set<string>, resp: nat -> HttpResponse)
    requires UploadsFrom(refs, 0, sessionId, claimNo, images, present, resp).error.None?
    ensures EveryBillGot(UploadsFrom(refs, 0, sessionId, claimNo, images, present, resp).sent, refs, sessionId, claimNo, images)
  {
    EveryBillUploaded(refs, 0, sessionId, claimNo, images, present, resp);
  }

  /** A saved commit, taken apart: the request was built, the POST was accepted, and no upload failed. */
  lemma CommittedSaved(db: Db, phone: string, built: Result<(CommitRequest, seq<string>), CommitError>, present: set<string>, be: Backend)
    requires Committed(db, phone, built, present, be).reply.ClaimSaved?
    ensures built.Ok? && SavedClaim(be.post).Ok?
    ensures var run := UploadsFrom(SavedClaim(be.post).value.1, 0, built.value.0.sessionId,
                                   SavedClaim(be.post).value.0, built.value.1, present, be.upload);
      var o := Committed(db, phone, built, present, be);
      && run.error.None?
      && o.reply == ClaimSaved(SavedClaim(be.post).value.0) && o.request == Some(built.value.0) && o.uploads == run.sent
  {
    assert built.Ok?;
    assert SavedClaim(be.post).Ok?;
  }

  /**
   * The request sent is built from the session: the path follows the user's choice and
   * the stored draft, the header carries the stored employee number and entity, the sum
   * of the amounts and the status "Drafted", and there is one bill per extracted bill.
   */
  lemma RequestFromSession(db: Db, phone: string, choice: string, be: Backend)
    requires CommitRequestFor(db, phone, choice, be).Ok?
    ensures var s := ReadClaimSession(db, phone, be.loads);
      var req := CommitRequestFor(db, phone, choice, be).value.0;
      && s.Ok? && LoginWithPhone(be.login).Ok? && be.expenseIds.Found? && Items(s.value.bills).Some?
      && req.path == ClaimPath(choice, s.value.draft)
      && req.sessionId == LoginWithPhone(be.login).value.sessionId
      && req.payload.claim == Header(s.value.empNo, s.value.entityId, TotalAmount(req.payload.bills))
      && |req.payload.bills| == |Items(s.value.bills).value|
      && PreparedBills(Items(s.value.bills).value, be.expenseIds.value.0, be.expenseIds.value.1, be.parse) == Ok(req.payload.bills)
      && CommitRequestFor(db, phone, choice, be).value.1 == s.value.images
  {
    var s := ReadClaimSession(db, phone, be.loads).value;
    var items := Items(s.bills).value;
    var ids := be.expenseIds.value;
    assert PreparedBills(items, ids.0, ids.1, be.parse).Ok?;
  }

  /**
   * An upload that fails after the claim POST answered 200 is reported as a failure and
   * keeps the session, although the back office has saved the claim.
   */
  lemma UploadFailureAfterSave(db: Db, phone: string, choice: string, present: set<string>, be: Backend)
    requires CommitRequestFor(db, phone, choice, be).Ok?
    requires SavedClaim(be.post).Ok? && SavedClaim(be.post).value.1 != []
    requires BillNoOf(SavedClaim(be.post).value.1[0]).Some?
    requires UploadResult(CommitRequestFor(db, phone, choice, be).value.1, present, be.upload(0)).Err?
    ensures var o := ClaimCommit(db, phone, choice, present, be);
      && be.post.status == 200 && o.request.Some?
      && o.reply.ClaimFailed? && o.reply.error.UploadFailed?
      && o.db == db
  {
  }

  /** A field `process_claim_async` does not write reads the same afterwards. */
  lemma KeptFieldReads(db: Db, phone: string, extracted: seq<Json>, draft: Lookup<int>, field: string)
    requires field != "extracted_bills" && field != "draft_claim_no" && field != "state"
    ensures var o := StoreResults(db, phone, extracted, draft);
      && ReadField(o.db, phone, field) == ReadField(db, phone, field)
      && Range(o.db, RKey(phone, field)) == Range(db, RKey(phone, field))
  {
    RKeyInjective(phone, field, "extracted_bills");
    RKeyInjective(phone, field, "draft_claim_no");
    RKeyInjective(phone, field, "state");
    StoreResultsFrame(db, phone, extracted, draft, RKey(phone, field));
  }

  /** A session with these fields reads back as these values. */
  lemma SessionReadsBack(db: Db, phone: string, loads: string -> Option<Json>, emp: Option<Value>, entity: Option<Value>,
                         images: seq<string>, extracted: seq<Json>, n: int)
    requires ReadField(db, phone, "emp_no") == Ok(emp) && NumberOf(emp).Ok?
    requires ReadField(db, phone, "schema").Ok?
    requires ReadField(db, phone, "entity_id") == Ok(entity)
    requires ReadField(db, phone, "extracted_bills") == Ok(Some(JsonText(extracted)))
    requires Range(db, RKey(phone, "images")) == Ok(images)
    requires ReadField(db, phone, "draft_claim_no") == Ok(Some(Str(DraftText(n))))
    ensures ReadClaimSession(db, phone, loads)
      == Ok(ClaimSession(NumberOf(emp).value, TextOf(entity), JArr(extracted), images, if n != 0 then Some(n) else None))
  {
    DraftRoundTrip(n);
    assert BillsDoc(Some(JsonText(extracted)), loads) == Ok(JArr(extracted));
  }

  /** The session `StoreResults` leaves, read back by `commit_claim`. */
  lemma StoredSessionReadsBack(db: Db, phone: string, images: seq<string>, extracted: seq<Json>, draft: Lookup<int>,
                               loads: string -> Option<Json>)
    requires ProcessingInputs(db, phone) == Some(images) && !draft.Unavailable?
    ensures Read(db, RKey(phone, "emp_no")).Ok? && NumberOf(Read(db, RKey(phone, "emp_no")).value).Ok?
    ensures ReadField(db, phone, "entity_id").Ok?
    ensures var n := if draft.Found? then draft.value else 0;
      ReadClaimSession(StoreResults(db, phone, extracted, draft).db, phone, loads)
      == Ok(ClaimSession(NumberOf(Read(db, RKey(phone, "emp_no")).value).value, TextOf(ReadField(db, phone, "entity_id").value),
                         JArr(extracted), images, if n != 0 then Some(n) else None))
  {
    var o := StoreResults(db, phone, extracted, draft);
    StoredResults(db, phone, extracted, draft);
    var n := if draft.Found? then draft.value else 0;
    KeptFieldReads(db, phone, extracted, draft, "emp_no");
    KeptFieldReads(db, phone, extracted, draft, "schema");
    KeptFieldReads(db, phone, extracted, draft, "entity_id");
    KeptFieldReads(db, phone, extracted, draft, "images");
    var emp := Read(db, RKey(phone, "emp_no")).value;
    assert ReadField(o.db, phone, "extracted_bills") == Ok(Some(JsonText(extracted)));
    assert ReadField(o.db, phone, "draft_claim_no") == Ok(Some(Str(DraftText(n))));
    SessionReadsBack(o.db, phone, loads, emp, ReadField(db, phone, "entity_id").value, images, extracted, n);
  }

  /**
   * What `process_claim_async` leaves behind is what `commit_claim` reads: the bills as
   * extracted, the same images and employee number, and the draft found (none for 0).
   */
  lemma ProcessedSessionReadsBack(db: Db, phone: string, ocr: Ocr, draft: Lookup<int>, loads: string -> Option<Json>)
    requires ClaimProcessing(db, phone, ocr, draft).reply.Some?
    ensures Range(db, RKey(phone, "images")).Ok?
    ensures ExtractedBills(Range(db, RKey(phone, "images")).value, ocr).Some?
    ensures var s := ReadClaimSession(ClaimProcessing(db, phone, ocr, draft).db, phone, loads);
      var images := Range(db, RKey(phone, "images")).value;
      var n := if draft.Found? then draft.value else 0;
      && s.Ok?
      && s.value.bills == JArr(ExtractedBills(images, ocr).value)
      && s.value.images == images
      && Some(s.value.empNo) == IntOfValue(Read(db, RKey(phone, "emp_no")).value)
      && s.value.draft == (if n != 0 then Some(n) else None)
  {
    var inputs := ProcessingInputs(db, phone);
    assert inputs.Some? && ExtractedBills(inputs.value, ocr).Some?;
    var images := inputs.value;
    var extracted := ExtractedBills(images, ocr).value;
    assert ClaimProcessing(db, phone, ocr, draft) == StoreResults(db, phone, extracted, draft);
    assert !draft.Unavailable?;
    StoredSessionReadsBack(db, phone, images, extracted, draft, loads);
  }

  /** The session reads of `commit_claim` against the store. */
  method ReadSession(store: Store, phone: string, loads: string -> Option<Json>) returns (r: Result<ClaimSession, CommitError>)
    ensures r == ReadClaimSession(store.db, phone, loads)
  {
    var emp := store.Get(RKey(phone, "emp_no"));
    if emp.Err? { return Err(StoreFailed(emp.error)); }
    var empNo := NumberOf(emp.value);
    if empNo.Err? { return Err(empNo.error); }
    var schema := store.Get(RKey(phone, "schema"));
    if schema.Err? { return Err(StoreFailed(schema.error)); }
    var entity := store.Get(RKey(phone, "entity_id"));
    if entity.Err? { return Err(StoreFailed(entity.error)); }
    var billsText := store.Get(RKey(phone, "extracted_bills"));
    if billsText.Err? { return Err(StoreFailed(billsText.error)); }
    var bills := BillsDoc(billsText.value, loads);
    if bills.Err? { return Err(bills.error); }
    var images := store.LRange(RKey(phone, "images"));
    if images.Err? { return Err(StoreFailed(images.error)); }
    var draftRaw := store.Get(RKey(phone, "draft_claim_no"));
    if draftRaw.Err? { return Err(StoreFailed(draftRaw.error)); }
    var draft := DraftNumber(draftRaw.value);
    if draft.Err? { return Err(draft.error); }
    r := Ok(ClaimSession(empNo.value, TextOf(entity.value), bills.value, images.value, draft.value));
  }

  /** `commit_claim` against the store and the open-file table. */
  method CommitClaimAsync(store: Store, fs: FileTable, phone: string, choice: string, be: Backend)
    returns (reply: TaskReply, request: Option<CommitRequest>, uploads: seq<UploadRequest>)
    requires fs.Valid()
    modifies store, fs
    ensures fs.Valid() && fs.present == old(fs.present) && fs.openHandles == old(fs.openHandles)
    ensures CommitOutcome(store.db, reply, request, uploads) == ClaimCommit(old(store.db), phone, choice, old(fs.present), be)
  {
    request, uploads := None, [];
    var s := ReadSession(store, phone, be.loads);
    if s.Err? {
      reply := ClaimFailed(s.error);
      return;
    }
    var auth := LoginWithPhone(be.login);
    if auth.Err? {
      reply := ClaimFailed(LoginError(auth.error));
      return;
    }
    if !be.expenseIds.Found? {
      reply := ClaimFailed(ExpenseTypeUnavailable);
      return;
    }
    var (et, est) := be.expenseIds.value;
    var items := Items(s.value.bills);
    if items.None? {
      reply := ClaimFailed(NotABillList);
      return;
    }
    var bills, total := PrepareBills(items.value, et, est, be.parse);
    if bills.Err? {
      reply := ClaimFailed(bills.error);
      return;
    }
    var payload := ClaimPayload(Header(s.value.empNo, s.value.entityId, total), bills.value);
    var req := CommitRequest(ClaimPath(choice, s.value.draft), auth.value.sessionId, payload);
    assert CommitRequestFor(old(store.db), phone, choice, be) == Ok((req, s.value.images));
    request := Some(req);
    var saved := SavedClaim(be.post);
    if saved.Err? {
      reply := ClaimFailed(saved.error);
      return;
    }
    var (claimNo, refs) := saved.value;
    var sent, error := UploadAll(fs, refs, req.sessionId, claimNo, s.value.images, be.upload);
    uploads := sent;
    if error.Some? {
      reply := ClaimFailed(error.value);
      return;
    }
    reply := ClaimSaved(claimNo);
    ClearSession(store, phone);
  }
}
