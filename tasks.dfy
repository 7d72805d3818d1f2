/**
 * The background tasks the handler starts on threads: what they send back, and
 * `process_grn_async`, which reports the GRN extraction and always ends the session.
 * `process_claim_async` and `commit_claim` are in `OcrTask` and `CommitTask`.
 */
module Tasks {
  import opened Wrappers
  import opened Strings
  import opened JsonValues
  import opened Redis
  import opened Session
  import opened ClaimAdapter

  /** Why `commit_claim` failed; it reports any of these as "Failed to save claim". */
  datatype CommitError =
    | StoreFailed(redisError: RedisError)   // a session field of the wrong Redis type
    | BadNumber                             // `int()` of a stored employee or draft number failed
    | NoBills                               // `json.loads(None)`: no extracted bills stored
    | BadJson                               // the stored bills are not JSON text
    | NotABillList                          // iterating the bills did not give objects
    | AmountUnreadable                      // `float()` of a bill amount failed
    | LoginError(adapterError: AdapterError)
    | ExpenseTypeUnavailable                // the expense type query failed or found no row
    | Rejected(status: int)                 // the claim POST did not answer 200
    | MalformedReply                        // the answer lacks `claim_no`, `bills` or a `bill_no`
    | UploadFailed(uploadError: AdapterError)

  /** The messages the tasks send, one constructor per message text. */
  datatype TaskReply =
    | DraftFound(draftNo: int)
    | NoDraft
    | ClaimSaved(claimNo: Json)
    | ClaimFailed(error: CommitError)
    | GrnProcessed
    | GrnIncomplete
    | GrnFailed

  /** The key space after a task and the message it sent; `None` when the thread died on an exception. */
  datatype Outcome = Outcome(db: Db, reply: Option<TaskReply>)

  /**
   * `process_grn_async`: `result` is what `extract_grn(path)` returned, `None` when it
   * raised. Success needs a truthy `sharepoint_url` and `database_status == "Success"`;
   * an answer that is not an object fails in `.get`. The session is cleared in every case.
   */
  function GrnProcessing(db: Db, phone: string, result: Option<Json>): Outcome {
    var reply :=
      match result
      case Some(JObj(r)) =>
        if Truthy(Get(r, "sharepoint_url")) && Get(r, "database_status") == JStr("Success")
        then GrnProcessed else GrnIncomplete
      case _ => GrnFailed;
    Outcome(Cleared(db, phone), Some(reply))
  }

  /**
   * A GRN is reported processed exactly when extraction returned an object with a truthy
   * SharePoint URL and database status `Success`, and reported failed exactly when
   * extraction raised or returned something else than an object.
   */
  lemma GrnReplyCases(db: Db, phone: string, result: Option<Json>)
    ensures var o := GrnProcessing(db, phone, result);
      && (o.reply == Some(GrnProcessed) <==>
            result.Some? && result.value.JObj?
            && Truthy(Get(result.value.fields, "sharepoint_url"))
            && Get(result.value.fields, "database_status") == JStr("Success"))
      && (o.reply == Some(GrnFailed) <==> result.None? || !result.value.JObj?)
      && o.reply.Some?
  {
  }

  /** Whatever the outcome, no field of the session survives, and other keys outside it are kept. */
  lemma GrnEndsSession(db: Db, phone: string, result: Option<Json>, field: string, k: string)
    requires !StartsWith(k, SessionPrefix(phone))
    ensures var o := GrnProcessing(db, phone, result);
      && RKey(phone, field) !in o.db
      && (k in o.db <==> k in db)
      && (k in db ==> o.db[k] == db[k])
  {
    ClearedRemovesSession(db, phone, field);
  }

  /** `process_grn_async` against the store: the reply, then `clear_session` in `finally`. */
  method ProcessGrnAsync(store: Store, phone: string, result: Option<Json>) returns (reply: TaskReply)
    modifies store
    ensures Outcome(store.db, Some(reply)) == GrnProcessing(old(store.db), phone, result)
  {
    reply := GrnFailed;
    if result.Some? && result.value.JObj? {
      var r := result.value.fields;
      if Truthy(Get(r, "sharepoint_url")) && Get(r, "database_status") == JStr("Success") {
        reply := GrnProcessed;
      } else {
        reply := GrnIncomplete;
      }
    }
    ClearSession(store, phone);
  }
}
