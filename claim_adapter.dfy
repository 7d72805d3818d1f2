/**
 * The client of the claims back office: login, the normalised single-bill claim payload,
 * the create-or-update request and the attachment upload. Each HTTP answer is a parameter;
 * the files opened for an upload are tracked by a `FileTable`.
 */
module ClaimAdapter {
  import opened Wrappers
  import opened Strings
  import opened Numbers
  import opened JsonValues

  /** The expense type and sub-type every normalised bill is filed under. */
  const DefaultExpenseTypeId: int := 1
  const DefaultExpenseSubTypeId: int := 1

  /** What the adapter raises. */
  datatype AdapterError =
    | SessionExpired            // SessionExpiredError: the back office answered 401
    | HttpStatus(code: int)     // raise_for_status on any other 4xx or 5xx
    | LoginFailed               // the login answer has no sessionId
    | MalformedResponse         // a missing key or a value of the wrong shape in an answer
    | BadAmount                 // float() of an amount failed
    | FileMissing(path: string) // a file to upload could not be opened

  /** An HTTP answer: its status code and its JSON body. */
  datatype HttpResponse = HttpResponse(status: int, body: Json)

  /** `raise_for_status` raises for client and server errors. */
  predicate IsHttpError(status: int) {
    400 <= status < 600
  }

  /** What `login_with_phone` returns. */
  datatype Auth = Auth(sessionId: Json, user: Json)

  /**
   * `login_with_phone` given the back office's answer: an HTTP error raises; an answer
   * without `sessionId` fails; otherwise the session id is handed back.
   */
  function LoginWithPhone(resp: HttpResponse): (r: Result<Auth, AdapterError>)
    ensures r.Ok? <==> !IsHttpError(resp.status) && resp.body.JObj? && "sessionId" in resp.body.fields
    ensures r.Ok? ==> r.value.sessionId == resp.body.fields["sessionId"]
    ensures IsHttpError(resp.status) ==> r == Err(HttpStatus(resp.status))
    ensures !IsHttpError(resp.status) && resp.body.JObj? && "sessionId" !in resp.body.fields ==> r == Err(LoginFailed)
  {
    if IsHttpError(resp.status) then Err(HttpStatus(resp.status))
    else match resp.body
      case JObj(data) =>
        if "sessionId" !in data then Err(LoginFailed)
        else Ok(Auth(data["sessionId"], Get(data, "user")))
      case _ => Err(MalformedResponse)
  }

  /** One bill of a claim, as `normalize_bill_payload` builds it. */
  datatype ClaimBill = ClaimBill(
    expenseTypeId: int,
    expenseSubTypeId: int,
    fromDate: Json,
    toDate: Json,
    billAmount: real,
    vatAmount: real,
    merchantName: Json,
    invoiceNumber: Json)

  /**
   * `normalize_bill_payload`: OCR output to a bill. `today` is the ISO date of the day,
   * `parse` is Python's float syntax for amounts given as strings.
   */
  function NormalizeBillPayload(raw: map<string, Json>, today: string, parse: string -> Option<real>): (r: Result<ClaimBill, AdapterError>)
    ensures r.Ok? <==> AmountOf(Get(raw, "total_amount"), parse).Some? && AmountOf(Get(raw, "vat_amount"), parse).Some?
    ensures r.Err? ==> r.error == BadAmount
  {
    var date := Or(Get(raw, "invoice_date"), JStr(today));
    match AmountOf(Get(raw, "total_amount"), parse)
    case None => Err(BadAmount)
    case Some(amount) =>
      match AmountOf(Get(raw, "vat_amount"), parse)
      case None => Err(BadAmount)
      case Some(vat) =>
        Ok(ClaimBill(DefaultExpenseTypeId, DefaultExpenseSubTypeId, date, date, amount, vat,
                     Get(raw, "merchant_name"), Get(raw, "invoice_number")))
  }

  /**
   * Every normalised bill has the default expense ids, one date for both ends of its
   * range (the invoice date when there is one, else today), amounts read by `float(v or 0)`
   * (so 0 by default), and the merchant and invoice number copied unchanged.
   */
  lemma NormalizedBillFields(raw: map<string, Json>, today: string, parse: string -> Option<real>)
    requires NormalizeBillPayload(raw, today, parse).Ok?
    ensures var b := NormalizeBillPayload(raw, today, parse).value;
      && b.expenseTypeId == 1 && b.expenseSubTypeId == 1
      && b.fromDate == b.toDate
      && (if "invoice_date" in raw && Truthy(raw["invoice_date"]) then b.fromDate == raw["invoice_date"] else b.fromDate == JStr(today))
      && (("total_amount" !in raw || !Truthy(raw["total_amount"])) ==> b.billAmount == 0.0)
      && (("vat_amount" !in raw || !Truthy(raw["vat_amount"])) ==> b.vatAmount == 0.0)
      && b.merchantName == Get(raw, "merchant_name")
      && b.invoiceNumber == Get(raw, "invoice_number")
      && Some(b.billAmount) == AmountOf(Get(raw, "total_amount"), parse)
      && Some(b.vatAmount) == AmountOf(Get(raw, "vat_amount"), parse)
  {
  }

  /** The claim part of a payload. */
  datatype ClaimHeader = ClaimHeader(
    title: string,
    description: string,
    empId: int,
    entityId: Json,
    totalClaimAmount: real,
    status: string)

  /** A claim payload: the claim and its bills. */
  datatype ClaimPayload<B> = ClaimPayload(claim: ClaimHeader, bills: seq<B>)

  datatype Verb = Put | Post

  /** A create or update request: verb, path under the API base, session header and payload. */
  datatype ClaimRequest = ClaimRequest(verb: Verb, path: string, sessionId: Json, payload: ClaimPayload<ClaimBill>)

  /** The verb and path of `create_or_update_claim`: update only in mode `existing` with a truthy claim number. */
  function ClaimTarget(mode: string, existingClaimNo: Option<int>): (Verb, string) {
    if mode == "existing" && existingClaimNo.Some? && existingClaimNo.value != 0
    then (Put, "/api/claims/" + IntToString(existingClaimNo.value))
    else (Post, "/api/claims")
  }

  /** An update (PUT to `/api/claims/{no}`) happens exactly for mode `existing` with a non-zero claim number. */
  lemma UpdateIffExisting(mode: string, existingClaimNo: Option<int>)
    ensures var (verb, path) := ClaimTarget(mode, existingClaimNo);
      && (verb == Put <==> mode == "existing" && existingClaimNo.Some? && existingClaimNo.value != 0)
      && (verb == Put ==> path == "/api/claims/" + IntToString(existingClaimNo.value))
      && (verb == Post ==> path == "/api/claims")
  {
  }

  /** What `create_or_update_claim` returns. */
  datatype ClaimRef = ClaimRef(claimNo: Json, billNos: seq<Json>)

  /** `[b["bill_no"] for b in bills]` over a JSON array's items. */
  function BillNos(items: seq<Json>): (r: Result<seq<Json>, AdapterError>)
    ensures r.Ok? <==> forall i :: 0 <= i < |items| ==> items[i].JObj? && "bill_no" in items[i].fields
    ensures r.Ok? ==> |r.value| == |items|
    ensures r.Ok? ==> forall i :: 0 <= i < |items| ==> r.value[i] == items[i].fields["bill_no"]
    decreases |items|
  {
    if items == [] then Ok([])
    else if !items[0].JObj? || "bill_no" !in items[0].fields then Err(MalformedResponse)
    else match BillNos(items[1..])
      case Ok(rest) => Ok([items[0].fields["bill_no"]] + rest)
      case Err(e) => Err(e)
  }

  /**
   * Iterating `data.get("bills", [])` for bill numbers: an absent key gives none, an array
   * gives one per item, and an empty string or object iterates to nothing; any other
   * value raises.
   */
  function ResponseBillNos(data: map<string, Json>): Result<seq<Json>, AdapterError> {
    if "bills" !in data then Ok([])
    else match data["bills"]
      case JArr(items) => BillNos(items)
      case JStr(s) => if s == "" then Ok([]) else Err(MalformedResponse)
      case JObj(m) => if m == map[] then Ok([]) else Err(MalformedResponse)
      case _ => Err(MalformedResponse)
  }

  /** The back office's answer to a create or update: 401 first, then other HTTP errors, then the body. */
  function ClaimResult(resp: HttpResponse): Result<ClaimRef, AdapterError> {
    if resp.status == 401 then Err(SessionExpired)
    else if IsHttpError(resp.status) then Err(HttpStatus(resp.status))
    else match resp.body
      case JObj(data) =>
        if "claim_no" !in data then Err(MalformedResponse)
        else (match ResponseBillNos(data)
          case Ok(nos) => Ok(ClaimRef(data["claim_no"], nos))
          case Err(e) => Err(e))
      case _ => Err(MalformedResponse)
  }

  /** A 401 answer is a session expiry whatever its body; it is checked before any other status. */
  lemma UnauthorizedIsSessionExpired(body: Json)
    ensures ClaimResult(HttpResponse(401, body)) == Err(SessionExpired)
  {
  }

  /** A successful answer lists each returned bill's number in order, and none when `bills` is absent. */
  lemma ReturnedBillNos(status: int, data: map<string, Json>)
    requires !IsHttpError(status) && "claim_no" in data
    ensures "bills" !in data ==> ClaimResult(HttpResponse(status, JObj(data))) == Ok(ClaimRef(data["claim_no"], []))
    ensures "bills" in data && data["bills"].JArr? && BillNos(data["bills"].items).Ok? ==>
      var items := data["bills"].items;
      var r := ClaimResult(HttpResponse(status, JObj(data)));
      && r.Ok? && r.value.claimNo == data["claim_no"] && |r.value.billNos| == |items|
      && forall i :: 0 <= i < |items| ==> r.value.billNos[i] == items[i].fields["bill_no"]
  {
  }

  /** What one call of `create_or_update_claim` did: the request it sent, if any, and its result. */
  datatype ClaimCall = ClaimCall(sent: Option<ClaimRequest>, result: Result<ClaimRef, AdapterError>)

  /**
   * `create_or_update_claim`: normalise the one bill, build the payload, send it to the
   * target chosen by `ClaimTarget`, and read the answer `resp`.
   */
  function CreateOrUpdateClaim(sessionId: Json, mode: string, empId: int, entityId: string,
                               billPayload: map<string, Json>, existingClaimNo: Option<int>,
                               today: string, parse: string -> Option<real>, resp: HttpResponse): ClaimCall
  {
    match NormalizeBillPayload(billPayload, today, parse)
    case Err(e) => ClaimCall(None, Err(e))
    case Ok(bill) =>
      var header := ClaimHeader("WhatsApp Claim", "Created via WhatsApp OCR", empId, JStr(entityId), bill.billAmount, "Drafted");
      var (verb, path) := ClaimTarget(mode, existingClaimNo);
      ClaimCall(Some(ClaimRequest(verb, path, sessionId, ClaimPayload(header, [bill]))), ClaimResult(resp))
  }

  /**
   * A sent claim carries exactly one bill, its total is that bill's amount, it is a draft,
   * and it is an update exactly when `ClaimTarget` says so.
   */
  lemma SentClaimShape(sessionId: Json, mode: string, empId: int, entityId: string,
                       billPayload: map<string, Json>, existingClaimNo: Option<int>,
                       today: string, parse: string -> Option<real>, resp: HttpResponse)
    ensures var call := CreateOrUpdateClaim(sessionId, mode, empId, entityId, billPayload, existingClaimNo, today, parse, resp);
      && (call.sent.Some? <==> NormalizeBillPayload(billPayload, today, parse).Ok?)
      && (call.sent.Some? ==>
            var p := call.sent.value.payload;
            && p.bills == [NormalizeBillPayload(billPayload, today, parse).value]
            && p.claim.totalClaimAmount == p.bills[0].billAmount
            && p.claim.status == "Drafted" && p.claim.empId == empId
            && (call.sent.value.verb == Put <==> mode == "existing" && existingClaimNo.Some? && existingClaimNo.value != 0)
            && call.result == ClaimResult(resp))
      && (call.sent.None? ==> call.result == Err(BadAmount))
  {
  }

  /** The files the process may open, and the handles it holds open. */
  class FileTable {
    var present: set<string>
    var openHandles: set<nat>
    var nextHandle: nat

    ghost predicate Valid()
      reads this
    {
      forall h :: h in openHandles ==> h < nextHandle
    }

    constructor (files: set<string>)
      ensures Valid() && present == files && openHandles == {}
    {
      present := files;
      openHandles := {};
      nextHandle := 0;
    }

    /** `path.open("rb")`: a fresh handle, or `None` when the file cannot be opened. */
    method Open(path: string) returns (h: Option<nat>)
      requires Valid()
      modifies this
      ensures Valid() && present == old(present)
      ensures h.Some? <==> path in present
      ensures h.Some? ==> h.value !in old(openHandles) && openHandles == old(openHandles) + {h.value}
      ensures h.None? ==> openHandles == old(openHandles)
    {
      if path in present {
        h := Some(nextHandle);
        openHandles := openHandles + {nextHandle};
        nextHandle := nextHandle + 1;
      } else {
        h := None;
      }
    }

    /** `fh.close()`. */
    method Close(h: nat)
      requires Valid()
      modifies this
      ensures Valid() && present == old(present)
      ensures openHandles == old(openHandles) - {h}
    {
      openHandles := openHandles - {h};
    }
  }

  /** The last component of a path (`Path.name`). */
  function Basename(path: string): (name: string)
    ensures '/' !in name
    ensures EndsWith(path, name)
    ensures |name| < |path| ==> path[|path| - |name| - 1] == '/'
  {
    if path == [] || path[|path| - 1] == '/' then []
    else Basename(path[..|path| - 1]) + [path[|path| - 1]]
  }

  /** One multipart entry of an upload. */
  datatype Part = Part(field: string, fileName: string, mime: string)

  function PartFor(path: string): Part {
    Part("files", Basename(path), "application/octet-stream")
  }

  /** One part per file, in order. */
  function PartsFor(files: seq<string>): (parts: seq<Part>)
    ensures |parts| == |files| && forall j :: 0 <= j < |files| ==> parts[j].fileName == Basename(files[j])
  {
    seq(|files|, j requires 0 <= j < |files| => PartFor(files[j]))
  }

  /** An upload request: session, claim and bill numbers, and one part per file. */
  datatype UploadRequest = UploadRequest(sessionId: Json, claimNo: Json, billNo: Json, parts: seq<Part>)

  /** The first of `files[k..]` that cannot be opened. */
  function FirstMissingFrom(files: seq<string>, present: set<string>, k: nat): (r: Option<string>)
    ensures r.None? <==> forall j :: k <= j < |files| ==> files[j] in present
    ensures r.Some? ==> r.value in files && r.value !in present
    decreases |files| - k
  {
    if k >= |files| then None
    else if files[k] !in present then Some(files[k])
    else FirstMissingFrom(files, present, k + 1)
  }

  /** The result of `upload_bill_attachments`: a file that cannot be opened raises, then 401, then other HTTP errors. */
  function UploadResult(files: seq<string>, present: set<string>, resp: HttpResponse): Result<Json, AdapterError> {
    match FirstMissingFrom(files, present, 0)
    case Some(path) => Err(FileMissing(path))
    case None =>
      if resp.status == 401 then Err(SessionExpired)
      else if IsHttpError(resp.status) then Err(HttpStatus(resp.status))
      else Ok(resp.body)
  }

  /**
   * The open loop of `upload_bill_attachments`: a fresh handle and a part per file, up to
   * the first file that cannot be opened.
   */
  method OpenAll(fs: FileTable, files: seq<string>) returns (handles: seq<nat>, parts: seq<Part>, missing: Option<string>)
    requires fs.Valid()
    modifies fs
    ensures fs.Valid() && fs.present == old(fs.present)
    ensures fs.openHandles == old(fs.openHandles) + set h | h in handles
    ensures forall h :: h in handles ==> h !in old(fs.openHandles)
    ensures missing == FirstMissingFrom(files, old(fs.present), 0)
    ensures missing.None? ==> parts == PartsFor(files)
  {
    parts, handles, missing := [], [], None;
    var i := 0;
    while i < |files| && missing.None?
      invariant 0 <= i <= |files|
      invariant fs.Valid() && fs.present == old(fs.present)
      invariant fs.openHandles == old(fs.openHandles) + set h | h in handles
      invariant forall h :: h in handles ==> h !in old(fs.openHandles)
      invariant missing.None? ==> parts == seq(i, j requires 0 <= j < i => PartFor(files[j]))
      invariant missing.None? ==> FirstMissingFrom(files, fs.present, 0) == FirstMissingFrom(files, fs.present, i)
      invariant missing.Some? ==> missing == FirstMissingFrom(files, fs.present, 0)
    {
      var h := fs.Open(files[i]);
      match h {
        case Some(fh) =>
          handles := handles + [fh];
          parts := parts + [PartFor(files[i])];
        case None =>
          missing := Some(files[i]);
      }
      i := i + 1;
    }
  }

  /** The `finally` of `upload_bill_attachments`: close every handle opened. */
  method CloseAll(fs: FileTable, handles: seq<nat>)
    requires fs.Valid()
    modifies fs
    ensures fs.Valid() && fs.present == old(fs.present)
    ensures fs.openHandles == old(fs.openHandles) - set h | h in handles
  {
    var k := 0;
    while k < |handles|
      invariant 0 <= k <= |handles|
      invariant fs.Valid() && fs.present == old(fs.present)
      invariant fs.openHandles == old(fs.openHandles) - set h | h in handles[..k]
    {
      assert handles[..k + 1] == handles[..k] + [handles[k]];
      fs.Close(handles[k]);
      k := k + 1;
    }
    assert handles[..k] == handles;
  }

  /**
   * `upload_bill_attachments`: open every file, send them all as one request, and close
   * every handle it opened whether the upload succeeds or fails. `resp` is the back
   * office's answer to the request.
   */
  method UploadBillAttachments(fs: FileTable, sessionId: Json, claimNo: Json, billNo: Json,
                               files: seq<string>, resp: HttpResponse)
    returns (sent: Option<UploadRequest>, r: Result<Json, AdapterError>)
    requires fs.Valid()
    modifies fs
    ensures fs.Valid() && fs.present == old(fs.present)
    ensures fs.openHandles == old(fs.openHandles)
    ensures sent.Some? <==> forall j :: 0 <= j < |files| ==> files[j] in old(fs.present)
    ensures sent.Some? ==> sent.value == UploadRequest(sessionId, claimNo, billNo, PartsFor(files))
    ensures r == UploadResult(files, old(fs.present), resp)
  {
    var handles, parts, missing := OpenAll(fs, files);
    if missing.None? {
      sent := Some(UploadRequest(sessionId, claimNo, billNo, parts));
      if resp.status == 401 {
        r := Err(SessionExpired);
      } else if IsHttpError(resp.status) {
        r := Err(HttpStatus(resp.status));
      } else {
        r := Ok(resp.body);
      }
    } else {
      sent := None;
      r := Err(FileMissing(missing.value));
    }
    CloseAll(fs, handles);
  }
}
