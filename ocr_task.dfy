/**
 * `process_claim_async`: read the batch of invoice images, run OCR on each, store what
 * was extracted, look up the latest drafted claim, and offer the claim choice. The task
 * catches nothing: an exception ends the thread with no reply.
 */
module OcrTask {
  import opened Wrappers
  import opened Numbers
  import opened JsonValues
  import opened Constants
  import opened Redis
  import opened Session
  import opened Flow
  import opened MistralOcr
  import opened Tasks
  import opened Transitions

  /** `run_invoice_ocr(img)` for each saved image path; `Err` when it raises. */
  type Ocr = string -> Result<OcrResult, OcrError>

  /** What is kept of one OCR result: `.get("structured") or {}`. */
  function Kept(r: OcrResult): Json {
    Or(r.structured, EmptyObject)
  }

  /** The extracted bills, one per image in order; `None` when OCR raises for any image. */
  function ExtractedBills(images: seq<string>, ocr: Ocr): (r: Option<seq<Json>>)
    ensures r.Some? <==> forall i :: 0 <= i < |images| ==> ocr(images[i]).Ok?
    ensures r.Some? ==> |r.value| == |images|
    ensures r.Some? ==> forall i :: 0 <= i < |images| ==> r.value[i] == Kept(ocr(images[i]).value)
    decreases |images|
  {
    if images == [] then Some([])
    else
      var init := images[..|images| - 1];
      match ExtractedBills(init, ocr)
      case None => None
      case Some(prefix) =>
        match ocr(images[|images| - 1])
        case Err(_) => None
        case Ok(res) => Some(prefix + [Kept(res)])
  }

  /** The OCR loop of `process_claim_async`. */
  method ExtractAll(images: seq<string>, ocr: Ocr) returns (r: Option<seq<Json>>)
    ensures r == ExtractedBills(images, ocr)
  {
    var extracted: seq<Json> := [];
    var i := 0;
    while i < |images|
      invariant 0 <= i <= |images|
      invariant ExtractedBills(images[..i], ocr) == Some(extracted)
    {
      assert images[..i + 1][..i] == images[..i];
      match ocr(images[i]) {
        case Err(_) =>
          return None;
        case Ok(res) =>
          extracted := extracted + [Kept(res)];
      }
      i := i + 1;
    }
    assert images[..i] == images;
    r := Some(extracted);
  }

  /** What `redis.setex(..., draft or "")` stores for the draft lookup's answer. */
  function DraftText(n: int): string {
    if n != 0 then IntToString(n) else ""
  }

  /**
   * The reads before OCR: the image list, the employee number (which must pass `int()`),
   * the schema and the entity. `None` when one of them raises.
   */
  function ProcessingInputs(db: Db, phone: string): (images: Option<seq<string>>)
    ensures images.Some? ==> Range(db, RKey(phone, "images")) == Ok(images.value)
  {
    match Range(db, RKey(phone, "images"))
    case Err(_) => None
    case Ok(images) =>
      match Read(db, RKey(phone, "emp_no"))
      case Err(_) => None
      case Ok(emp) =>
        if IntOfValue(emp).None? || Read(db, RKey(phone, "schema")).Err? || Read(db, RKey(phone, "entity_id")).Err?
        then None
        else Some(images)
  }

  /**
   * The writes after OCR: the extracted bills, then (unless the draft lookup raised) the
   * draft number and the state WAITING_FOR_CLAIM_CHOICE, and the reply.
   */
  function StoreResults(db: Db, phone: string, extracted: seq<Json>, draft: Lookup<int>): Outcome {
    var db1 := db[RKey(phone, "extracted_bills") := Entry(JsonText(extracted), Some(ChatTtl))];
    match draft
    case Unavailable => Outcome(db1, None)
    case _ =>
      var n := if draft.Found? then draft.value else 0;
      var db2 := Put(db1, phone, "draft_claim_no", DraftText(n));
      Outcome(WithState(db2, phone, WaitingForClaimChoice), Some(if n != 0 then DraftFound(n) else NoDraft))
  }

  /**
   * `process_claim_async` on the key space. `ocr` stands for `run_invoice_ocr` and
   * `draft` for the answer of `get_latest_drafted_claim`: a claim number, no row, or a
   * raised error.
   */
  function ClaimProcessing(db: Db, phone: string, ocr: Ocr, draft: Lookup<int>): Outcome {
    match ProcessingInputs(db, phone)
    case None => Outcome(db, None)
    case Some(images) =>
      match ExtractedBills(images, ocr)
      case None => Outcome(db, None)
      case Some(extracted) => StoreResults(db, phone, extracted, draft)
  }

  /** The keys `process_claim_async` writes. */
  predicate WrittenByProcessing(phone: string, k: string) {
    k == RKey(phone, "extracted_bills") || k == RKey(phone, "draft_claim_no") || k == RKey(phone, "state")
  }

  lemma StoredResults(db: Db, phone: string, extracted: seq<Json>, draft: Lookup<int>)
    requires !draft.Unavailable?
    ensures var o := StoreResults(db, phone, extracted, draft);
      && StoredState(o.db, phone) == Some(WaitingForClaimChoice)
      && RKey(phone, "extracted_bills") in o.db
      && o.db[RKey(phone, "extracted_bills")].value == JsonText(extracted)
      && RKey(phone, "draft_claim_no") in o.db
      && o.db[RKey(phone, "draft_claim_no")].value == Str(DraftText(if draft.Found? then draft.value else 0))
  {
    var n := if draft.Found? then draft.value else 0;
    var db1 := db[RKey(phone, "extracted_bills") := Entry(JsonText(extracted), Some(ChatTtl))];
    var db2 := Put(db1, phone, "draft_claim_no", DraftText(n));
    RKeyInjective(phone, "extracted_bills", "state");
    RKeyInjective(phone, "extracted_bills", "draft_claim_no");
    RKeyInjective(phone, "draft_claim_no", "state");
    StateWritten(db2, phone, WaitingForClaimChoice);
  }

  /**
   * When the task replies, it has stored one extracted bill per image (OCR's structured
   * result, or `{}`), stored the draft number as text, and moved to
   * WAITING_FOR_CLAIM_CHOICE; it offers the draft exactly when the lookup found a
   * non-zero claim number.
   */
  lemma ClaimChoiceOffered(db: Db, phone: string, ocr: Ocr, draft: Lookup<int>)
    requires ClaimProcessing(db, phone, ocr, draft).reply.Some?
    ensures var o := ClaimProcessing(db, phone, ocr, draft);
      var images := Range(db, RKey(phone, "images")).value;
      && Range(db, RKey(phone, "images")).Ok?
      && StoredState(o.db, phone) == Some(WaitingForClaimChoice)
      && RKey(phone, "extracted_bills") in o.db
      && o.db[RKey(phone, "extracted_bills")].value.JsonText?
      && |o.db[RKey(phone, "extracted_bills")].value.doc| == |images|
      && (forall i :: 0 <= i < |images| ==>
            o.db[RKey(phone, "extracted_bills")].value.doc[i] == Kept(ocr(images[i]).value))
      && (o.reply == Some(NoDraft) <==> draft.NotFound? || draft == Found(0))
      && (forall n :: o.reply == Some(DraftFound(n)) <==> draft == Found(n) && n != 0)
  {
    var images := ProcessingInputs(db, phone).value;
    var extracted := ExtractedBills(images, ocr).value;
    assert ClaimProcessing(db, phone, ocr, draft) == StoreResults(db, phone, extracted, draft);
    StoredResults(db, phone, extracted, draft);
  }

  lemma StoreResultsFrame(db: Db, phone: string, extracted: seq<Json>, draft: Lookup<int>, k: string)
    ensures var o := StoreResults(db, phone, extracted, draft);
      && (!WrittenByProcessing(phone, k) ==> (k in o.db <==> k in db) && (k in db ==> o.db[k] == db[k]))
      && (WrittenByProcessing(phone, k) && k in o.db ==> o.db[k].ttl == Some(ChatTtl) || (k in db && o.db[k] == db[k]))
  {
  }

  /** Only the extracted bills, the draft number and the state are written, each for CHAT_TTL seconds. */
  lemma ProcessingWritesThreeKeys(db: Db, phone: string, ocr: Ocr, draft: Lookup<int>, k: string)
    ensures var o := ClaimProcessing(db, phone, ocr, draft);
      && (!WrittenByProcessing(phone, k) ==> (k in o.db <==> k in db) && (k in db ==> o.db[k] == db[k]))
      && (WrittenByProcessing(phone, k) && k in o.db && (k !in db || o.db[k] != db[k]) ==> o.db[k].ttl == Some(ChatTtl))
  {
    var inputs := ProcessingInputs(db, phone);
    if inputs.Some? && ExtractedBills(inputs.value, ocr).Some? {
      var extracted := ExtractedBills(inputs.value, ocr).value;
      assert ClaimProcessing(db, phone, ocr, draft) == StoreResults(db, phone, extracted, draft);
      StoreResultsFrame(db, phone, extracted, draft, k);
    } else {
      assert ClaimProcessing(db, phone, ocr, draft) == Outcome(db, None);
    }
  }

  /** When OCR raises for any image, nothing is written and no message is sent. */
  lemma OcrFailureWritesNothing(db: Db, phone: string, ocr: Ocr, draft: Lookup<int>, i: int)
    requires Range(db, RKey(phone, "images")).Ok?
    requires 0 <= i < |Range(db, RKey(phone, "images")).value|
    requires ocr(Range(db, RKey(phone, "images")).value[i]).Err?
    ensures ClaimProcessing(db, phone, ocr, draft) == Outcome(db, None)
  {
  }

  /**
   * `run_invoice_ocr(img)` as `process_claim_async` calls it: one argument where the
   * function requires two, so every call raises a TypeError.
   */
  function OcrAsCalled(): (ocr: Ocr)
    ensures forall img :: ocr(img) == Err(MissingArgument)
  {
    img => Err(MissingArgument)
  }

  /**
   * As written, a batch with at least one image never gets past OCR: the task dies with
   * no reply, nothing is stored, and the state stays WAITING_FOR_IMAGES.
   */
  lemma BatchStallsAsCalled(db: Db, phone: string, draft: Lookup<int>)
    requires Range(db, RKey(phone, "images")).Ok? && Range(db, RKey(phone, "images")).value != []
    ensures ClaimProcessing(db, phone, OcrAsCalled(), draft) == Outcome(db, None)
  {
    OcrFailureWritesNothing(db, phone, OcrAsCalled(), draft, 0);
  }

  /** The reads before OCR, against the store. */
  method ReadInputs(store: Store, phone: string) returns (images: Option<seq<string>>)
    ensures images == ProcessingInputs(store.db, phone)
  {
    var list := store.LRange(RKey(phone, "images"));
    if list.Err? {
      return None;
    }
    var emp := store.Get(RKey(phone, "emp_no"));
    if emp.Err? || IntOfValue(emp.value).None? {
      return None;
    }
    var schema := store.Get(RKey(phone, "schema"));
    if schema.Err? {
      return None;
    }
    var entity := store.Get(RKey(phone, "entity_id"));
    if entity.Err? {
      return None;
    }
    images := Some(list.value);
  }

  /** The writes after OCR, against the store. */
  method WriteResults(store: Store, phone: string, extracted: seq<Json>, draft: Lookup<int>) returns (reply: Option<TaskReply>)
    modifies store
    ensures Outcome(store.db, reply) == StoreResults(old(store.db), phone, extracted, draft)
  {
    store.SetEx(RKey(phone, "extracted_bills"), ChatTtl, JsonText(extracted));
    if draft.Unavailable? {
      return None;
    }
    var n := if draft.Found? then draft.value else 0;
    store.SetEx(RKey(phone, "draft_claim_no"), ChatTtl, Str(DraftText(n)));
    store.SetEx(RKey(phone, "state"), ChatTtl, Str(StateName(WaitingForClaimChoice)));
    reply := Some(if n != 0 then DraftFound(n) else NoDraft);
  }

  /** `process_claim_async` against the store, one command at a time. */
  method ProcessClaimAsync(store: Store, phone: string, ocr: Ocr, draft: Lookup<int>) returns (reply: Option<TaskReply>)
    modifies store
    ensures Outcome(store.db, reply) == ClaimProcessing(old(store.db), phone, ocr, draft)
  {
    var images := ReadInputs(store, phone);
    if images.None? {
      return None;
    }
    var extracted := ExtractAll(images.value, ocr);
    if extracted.None? {
      return None;
    }
    reply := WriteResults(store, phone, extracted.value, draft);
  }
}
