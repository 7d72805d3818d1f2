/**
 * `handle_whatsapp_incoming`: one webhook message moves its sender's conversation one
 * step. The sender's `state` is read first; text and media are then handled by state.
 * The employee lookup, the media download and the clock are parameters; a background
 * step the handler starts is returned as a `Task`.
 */
module Flow {
  import opened Wrappers
  import opened Strings
  import opened Numbers
  import opened Constants
  import opened Redis
  import opened Session

  /** What a message carries: text, an image or document with its mime type, or anything else. */
  datatype Content = Text(body: string) | Media(mimeType: string) | Other

  datatype Message = Message(sender: string, id: string, content: Content)

  /** A row of the employee master: employee number and tenant schema. */
  datatype Employee = Employee(empNo: int, tenant: string)

  /**
   * The outside world for one message: the employee lookup for the sender, whether the
   * media could be fetched and written, the temporary directory and the timestamp text
   * that names the saved file.
   */
  datatype Env = Env(employee: Lookup<Employee>, downloaded: bool, tmpDir: string, stamp: string)

  /** The replies the handler sends, one constructor per message text. */
  datatype Reply =
    | ServiceMenu
    | UserNotFound
    | EntityMenu
    | AskGrnUpload
    | AskImageCount
    | SendImages(count: string)
    | ProcessingInvoices
    | Progress(received: int, expected: int)
    | ProcessingGrn

  /** A background step started on a thread. */
  datatype Task = ProcessClaim | CommitClaim(choice: string) | ProcessGrn(path: string)

  /** Why the handler raised. */
  datatype Fault = StoreFault(error: RedisError) | EmployeeLookupFailed | NotANumber | DownloadFailed

  /** The key space after a message, the reply sent, the task started and the exception raised. */
  datatype Step = Step(db: Db, reply: Option<Reply>, task: Option<Task>, fault: Option<Fault>)

  /** The entity chosen by text `1`; anything else chooses the other. */
  const EntityOne: string := "EN0001"
  const EntityTwo: string := "EN0010"

  /** `setex(rkey(phone, field), CHAT_TTL, v)`. */
  function Put(db: Db, phone: string, field: string, v: string): Db {
    db[RKey(phone, field) := Entry(Str(v), Some(ChatTtl))]
  }

  function WithState(db: Db, phone: string, s: State): Db {
    Put(db, phone, "state", StateName(s))
  }

  /** The state a stored value names; `None` for a missing key or any other value. */
  function StateOf(stored: Option<Value>): Option<State> {
    match stored
    case Some(Str(s)) => ParseState(s)
    case _ => None
  }

  /** The state stored for a phone, when it can be read. */
  function StoredState(db: Db, phone: string): Option<State> {
    match Read(db, RKey(phone, "state"))
    case Ok(v) => StateOf(v)
    case Err(_) => None
  }

  /** Python's `int()` of a value read from the store: `int(None)` and `int` of JSON text fail. */
  function IntOfValue(v: Option<Value>): Option<int> {
    match v
    case Some(Str(s)) => PyInt(s)
    case _ => None
  }

  function IsGreeting(text: string): bool {
    Lower(text) == "hi" || Lower(text) == "start"
  }

  /** `hi` or `start`: a fresh session for a known employee. */
  function Greet(db: Db, phone: string, employee: Lookup<Employee>): Step {
    var cleared := Cleared(db, phone);
    match employee
    case Unavailable => Step(cleared, None, None, Some(EmployeeLookupFailed))
    case NotFound => Step(cleared, Some(UserNotFound), None, None)
    case Found(e) =>
      if e.empNo == 0 then Step(cleared, Some(UserNotFound), None, None)
      else
        var db1 := Put(Put(cleared, phone, "emp_no", IntToString(e.empNo)), phone, "schema", e.tenant);
        Step(WithState(db1, phone, WaitingForService), Some(ServiceMenu), None, None)
  }

  /** A text message, `text` already stripped, in the stored `state`. */
  function OnText(db: Db, phone: string, text: string, state: Option<State>, employee: Lookup<Employee>): Step {
    if IsGreeting(text) then Greet(db, phone, employee)
    else if state == Some(WaitingForService) && text == "1" then
      Step(WithState(db, phone, WaitingForEntity), Some(EntityMenu), None, None)
    else if state == Some(WaitingForService) && text == "2" then
      Step(WithState(db, phone, WaitingForGrnUpload), Some(AskGrnUpload), None, None)
    else if state == Some(WaitingForEntity) then
      var entity := if text == "1" then EntityOne else EntityTwo;
      Step(WithState(Put(db, phone, "entity_id", entity), phone, WaitingForImageCount), Some(AskImageCount), None, None)
    else if state == Some(WaitingForImageCount) then
      match PyInt(text)
      case None => Step(db, None, None, Some(NotANumber))
      case Some(n) =>
        var db1 := Put(Put(db, phone, "expected_images", IntToString(n)), phone, "received_images", "0");
        Step(WithState(db1 - {RKey(phone, "images")}, phone, WaitingForImages), Some(SendImages(text)), None, None)
    else if state == Some(WaitingForClaimChoice) && (text == "1" || text == "2") then
      Step(db, None, Some(CommitClaim(text)), None)
    else Step(db, None, None, None)
  }

  /** Where a downloaded file is saved. */
  function MediaPath(env: Env, phone: string, ext: string): string {
    env.tmpDir + "/" + phone + "_" + env.stamp + ext
  }

  /** After the image is counted: compare the received count with the expected one. */
  function CompareCounts(db: Db, phone: string, received: int): Step {
    match Read(db, RKey(phone, "expected_images"))
    case Err(e) => Step(db, None, None, Some(StoreFault(e)))
    case Ok(v) =>
      match IntOfValue(v)
      case None => Step(db, None, None, Some(NotANumber))
      case Some(expected) =>
        if received >= expected then Step(db, Some(ProcessingInvoices), Some(ProcessClaim), None)
        else Step(db, Some(Progress(received, expected)), None, None)
  }

  /** An invoice image while images are awaited: record it, count it, and compare with the expected count. */
  function OnInvoiceImage(db: Db, phone: string, env: Env): Step {
    if !env.downloaded then Step(db, None, None, Some(DownloadFailed))
    else match Pushed(db, RKey(phone, "images"), MediaPath(env, phone, ".jpg"))
      case Err(e) => Step(db, None, None, Some(StoreFault(e)))
      case Ok(db1) =>
        match Incremented(db1, RKey(phone, "received_images"))
        case Err(e) => Step(db1, None, None, Some(StoreFault(e)))
        case Ok((db2, received)) => CompareCounts(db2, phone, received)
  }

  /** A GRN file: saved as `.pdf` when its mime type says PDF, else as `.jpg`, and handed to a task. */
  function OnGrnFile(db: Db, phone: string, mimeType: string, env: Env): Step {
    if !env.downloaded then Step(db, None, None, Some(DownloadFailed))
    else
      var ext := if mimeType == "application/pdf" then ".pdf" else ".jpg";
      Step(db, Some(ProcessingGrn), Some(ProcessGrn(MediaPath(env, phone, ext))), None)
  }

  function OnMedia(db: Db, phone: string, mimeType: string, state: Option<State>, env: Env): Step {
    if state == Some(WaitingForImages) then OnInvoiceImage(db, phone, env)
    else if state == Some(WaitingForGrnUpload) then OnGrnFile(db, phone, mimeType, env)
    else Step(db, None, None, None)
  }

  /** `handle_whatsapp_incoming` for the message `msg`, `None` when the webhook carries none. */
  function Incoming(db: Db, msg: Option<Message>, env: Env): Step {
    match msg
    case None => Step(db, None, None, None)
    case Some(m) =>
      match Read(db, RKey(m.sender, "state"))
      case Err(e) => Step(db, None, None, Some(StoreFault(e)))
      case Ok(stored) =>
        match m.content
        case Text(body) => OnText(db, m.sender, Strip(body), StateOf(stored), env.employee)
        case Media(mime) => OnMedia(db, m.sender, mime, StateOf(stored), env)
        case Other => Step(db, None, None, None)
  }

  // ---------------------------------------------------------------------------
  // The handler over the store, one command at a time.
  // ---------------------------------------------------------------------------

  method HandleGreeting(store: Store, phone: string, employee: Lookup<Employee>)
    returns (reply: Option<Reply>, task: Option<Task>, fault: Option<Fault>)
    modifies store
    ensures Step(store.db, reply, task, fault) == Greet(old(store.db), phone, employee)
  {
    reply, task, fault := None, None, None;
    ClearSession(store, phone);
    match employee {
      case Unavailable =>
        fault := Some(EmployeeLookupFailed);
      case NotFound =>
        reply := Some(UserNotFound);
      case Found(e) =>
        if e.empNo == 0 {
          reply := Some(UserNotFound);
        } else {
          store.SetEx(RKey(phone, "emp_no"), ChatTtl, Str(IntToString(e.empNo)));
          store.SetEx(RKey(phone, "schema"), ChatTtl, Str(e.tenant));
          store.SetEx(RKey(phone, "state"), ChatTtl, Str(StateName(WaitingForService)));
          reply := Some(ServiceMenu);
        }
    }
  }

  method HandleText(store: Store, phone: string, text: string, state: Option<State>, employee: Lookup<Employee>)
    returns (reply: Option<Reply>, task: Option<Task>, fault: Option<Fault>)
    modifies store
    ensures Step(store.db, reply, task, fault) == OnText(old(store.db), phone, text, state, employee)
  {
    reply, task, fault := None, None, None;
    var lowered := Lower(text);
    if lowered == "hi" || lowered == "start" {
      reply, task, fault := HandleGreeting(store, phone, employee);
      return;
    }
    if state == Some(WaitingForService) {
      if text == "1" {
        store.SetEx(RKey(phone, "state"), ChatTtl, Str(StateName(WaitingForEntity)));
        reply := Some(EntityMenu);
        return;
      }
      if text == "2" {
        store.SetEx(RKey(phone, "state"), ChatTtl, Str(StateName(WaitingForGrnUpload)));
        reply := Some(AskGrnUpload);
        return;
      }
    }
    if state == Some(WaitingForEntity) {
      store.SetEx(RKey(phone, "entity_id"), ChatTtl, Str(if text == "1" then EntityOne else EntityTwo));
      store.SetEx(RKey(phone, "state"), ChatTtl, Str(StateName(WaitingForImageCount)));
      reply := Some(AskImageCount);
      return;
    }
    if state == Some(WaitingForImageCount) {
      var count := PyInt(text);
      if count.None? {
        fault := Some(NotANumber);
        return;
      }
      store.SetEx(RKey(phone, "expected_images"), ChatTtl, Str(IntToString(count.value)));
      store.SetEx(RKey(phone, "received_images"), ChatTtl, Str("0"));
      store.Delete(RKey(phone, "images"));
      store.SetEx(RKey(phone, "state"), ChatTtl, Str(StateName(WaitingForImages)));
      reply := Some(SendImages(text));
      return;
    }
    if state == Some(WaitingForClaimChoice) && (text == "1" || text == "2") {
      task := Some(CommitClaim(text));
    }
  }

  method HandleInvoiceImage(store: Store, phone: string, env: Env)
    returns (reply: Option<Reply>, task: Option<Task>, fault: Option<Fault>)
    modifies store
    ensures Step(store.db, reply, task, fault) == OnInvoiceImage(old(store.db), phone, env)
  {
    reply, task, fault := None, None, None;
    if !env.downloaded {
      fault := Some(DownloadFailed);
      return;
    }
    var pushed := store.RPush(RKey(phone, "images"), MediaPath(env, phone, ".jpg"));
    if pushed.Err? {
      fault := Some(StoreFault(pushed.error));
      return;
    }
    var received := store.Incr(RKey(phone, "received_images"));
    if received.Err? {
      fault := Some(StoreFault(received.error));
      return;
    }
    var stored := store.Get(RKey(phone, "expected_images"));
    if stored.Err? {
      fault := Some(StoreFault(stored.error));
      return;
    }
    var expected := IntOfValue(stored.value);
    if expected.None? {
      fault := Some(NotANumber);
      return;
    }
    if received.value >= expected.value {
      reply := Some(ProcessingInvoices);
      task := Some(ProcessClaim);
    } else {
      reply := Some(Progress(received.value, expected.value));
    }
  }

  /** One webhook message, handled against the store. */
  method HandleIncoming(store: Store, msg: Option<Message>, env: Env)
    returns (reply: Option<Reply>, task: Option<Task>, fault: Option<Fault>)
    modifies store
    ensures Step(store.db, reply, task, fault) == Incoming(old(store.db), msg, env)
  {
    reply, task, fault := None, None, None;
    if msg.None? {
      return;
    }
    var m := msg.value;
    var stored := store.Get(RKey(m.sender, "state"));
    if stored.Err? {
      fault := Some(StoreFault(stored.error));
      return;
    }
    var state := StateOf(stored.value);
    match m.content {
      case Text(body) =>
        reply, task, fault := HandleText(store, m.sender, Strip(body), state, env.employee);
      case Media(mime) =>
        if state == Some(WaitingForImages) {
          reply, task, fault := HandleInvoiceImage(store, m.sender, env);
        } else if state == Some(WaitingForGrnUpload) {
          if !env.downloaded {
            fault := Some(DownloadFailed);
          } else {
            var ext := if mime == "application/pdf" then ".pdf" else ".jpg";
            reply := Some(ProcessingGrn);
            task := Some(ProcessGrn(MediaPath(env, m.sender, ext)));
          }
        }
      case Other =>
    }
  }
}
