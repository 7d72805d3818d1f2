/**
 * What one message does to its sender's session, stated over `Flow.Incoming`: the
 * transitions of each state, the keys that may change, the image batch counter, the
 * expiry of written keys and the state values written.
 */
module Transitions {
  import opened Wrappers
  import opened Strings
  import opened Numbers
  import opened Constants
  import opened Redis
  import opened Session
  import opened Flow

  /** The session fields the handler writes are distinct keys. */
  lemma FieldKeysDistinct(phone: string)
    ensures RKey(phone, "state") != RKey(phone, "images")
    ensures RKey(phone, "state") != RKey(phone, "received_images")
    ensures RKey(phone, "state") != RKey(phone, "expected_images")
    ensures RKey(phone, "images") != RKey(phone, "received_images")
    ensures RKey(phone, "images") != RKey(phone, "expected_images")
    ensures RKey(phone, "received_images") != RKey(phone, "expected_images")
  {
    RKeyInjective(phone, "state", "images");
    RKeyInjective(phone, "state", "received_images");
    RKeyInjective(phone, "state", "expected_images");
    RKeyInjective(phone, "images", "received_images");
    RKeyInjective(phone, "images", "expected_images");
    RKeyInjective(phone, "received_images", "expected_images");
  }

  /** The state stored after writing `s` is `s`. */
  lemma StateWritten(db: Db, phone: string, s: State)
    ensures StoredState(WithState(db, phone, s), phone) == Some(s)
  {
    StateRoundTrip(s);
  }

  /** The number stored in a session field, as `int(redis.get(...))` reads it. */
  function CountIn(db: Db, phone: string, field: string): Option<int> {
    match Read(db, RKey(phone, field))
    case Ok(v) => IntOfValue(v)
    case Err(_) => None
  }

  /** A text message goes to the text branch with the stripped body and the stored state. */
  lemma TextDispatch(db: Db, m: Message, env: Env)
    requires m.content.Text? && Read(db, RKey(m.sender, "state")).Ok?
    ensures Incoming(db, Some(m), env) == OnText(db, m.sender, Strip(m.content.body), StoredState(db, m.sender), env.employee)
  {
  }

  /** A media message goes to the media branch with the stored state. */
  lemma MediaDispatch(db: Db, m: Message, env: Env)
    requires m.content.Media? && Read(db, RKey(m.sender, "state")).Ok?
    ensures Incoming(db, Some(m), env) == OnMedia(db, m.sender, m.content.mimeType, StoredState(db, m.sender), env)
  {
  }

  /** A state value the handler writes: a declared state other than WAITING_FOR_ADD_ANOTHER. */
  ghost predicate WrittenState(v: Value) {
    exists s: State :: s != WaitingForAddAnother && v == Str(StateName(s))
  }

  /**
   * What a message may do to the store: keys outside the sender's session stay as they
   * were, and every key of the result is unchanged, is the image list or the received
   * count, or was written with `setex` for CHAT_TTL seconds, a `state` key then holding
   * a `WrittenState`.
   */
  ghost predicate Confined(db: Db, after: Db, p: string) {
    && (forall k :: !StartsWith(k, SessionPrefix(p)) ==> (k in after <==> k in db) && (k in db ==> after[k] == db[k]))
    && (forall k :: k in after ==>
         || (k in db && after[k] == db[k])
         || k == RKey(p, "images") || k == RKey(p, "received_images")
         || (after[k].ttl == Some(ChatTtl) && (k == RKey(p, "state") ==> WrittenState(after[k].value))))
  }

  lemma ConfinedCompose(a: Db, b: Db, c: Db, p: string)
    requires Confined(a, b, p) && Confined(b, c, p)
    ensures Confined(a, c, p)
  {
  }

  lemma PutConfined(db: Db, p: string, field: string, v: string)
    requires field != "state"
    ensures Confined(db, Put(db, p, field, v), p)
  {
    RKeyInSession(p, field);
    RKeyInjective(p, field, "state");
  }

  lemma WithStateConfined(db: Db, p: string, s: State)
    requires s != WaitingForAddAnother
    ensures Confined(db, WithState(db, p, s), p)
  {
    RKeyInSession(p, "state");
    assert WrittenState(Str(StateName(s)));
  }

  lemma GreetConfined(db: Db, p: string, employee: Lookup<Employee>)
    ensures Confined(db, Greet(db, p, employee).db, p)
  {
    var cleared := Cleared(db, p);
    assert Confined(db, cleared, p);
    if employee.Found? && employee.value.empNo != 0 {
      var e := employee.value;
      var db1 := Put(cleared, p, "emp_no", IntToString(e.empNo));
      var db2 := Put(db1, p, "schema", e.tenant);
      PutConfined(cleared, p, "emp_no", IntToString(e.empNo));
      PutConfined(db1, p, "schema", e.tenant);
      WithStateConfined(db2, p, WaitingForService);
      ConfinedCompose(db, cleared, db1, p);
      ConfinedCompose(db, db1, db2, p);
      ConfinedCompose(db, db2, WithState(db2, p, WaitingForService), p);
    }
  }

  lemma EntityConfined(db: Db, p: string, entity: string)
    ensures Confined(db, WithState(Put(db, p, "entity_id", entity), p, WaitingForImageCount), p)
  {
    PutConfined(db, p, "entity_id", entity);
    WithStateConfined(Put(db, p, "entity_id", entity), p, WaitingForImageCount);
    ConfinedCompose(db, Put(db, p, "entity_id", entity), WithState(Put(db, p, "entity_id", entity), p, WaitingForImageCount), p);
  }

  lemma CountConfined(db: Db, p: string, n: int)
    ensures Confined(db, WithState(Put(Put(db, p, "expected_images", IntToString(n)), p, "received_images", "0") - {RKey(p, "images")}, p, WaitingForImages), p)
  {
    var db1 := Put(db, p, "expected_images", IntToString(n));
    var db2 := Put(db1, p, "received_images", "0");
    var db3 := db2 - {RKey(p, "images")};
    PutConfined(db, p, "expected_images", IntToString(n));
    PutConfined(db1, p, "received_images", "0");
    RKeyInSession(p, "images");
    assert Confined(db2, db3, p);
    WithStateConfined(db3, p, WaitingForImages);
    ConfinedCompose(db, db1, db2, p);
    ConfinedCompose(db, db2, db3, p);
    ConfinedCompose(db, db3, WithState(db3, p, WaitingForImages), p);
  }

  lemma TextConfined(db: Db, p: string, text: string, state: Option<State>, employee: Lookup<Employee>)
    ensures Confined(db, OnText(db, p, text, state, employee).db, p)
  {
    if IsGreeting(text) {
      GreetConfined(db, p, employee);
    } else if state == Some(WaitingForService) && text == "1" {
      WithStateConfined(db, p, WaitingForEntity);
    } else if state == Some(WaitingForService) && text == "2" {
      WithStateConfined(db, p, WaitingForGrnUpload);
    } else if state == Some(WaitingForEntity) {
      EntityConfined(db, p, if text == "1" then EntityOne else EntityTwo);
    } else if state == Some(WaitingForImageCount) && PyInt(text).Some? {
      CountConfined(db, p, PyInt(text).value);
    } else {
      assert OnText(db, p, text, state, employee).db == db;
    }
  }

  lemma ImageConfined(db: Db, p: string, env: Env)
    ensures Confined(db, OnInvoiceImage(db, p, env).db, p)
  {
    var path := MediaPath(env, p, ".jpg");
    RKeyInSession(p, "images");
    RKeyInSession(p, "received_images");
    if env.downloaded && Pushed(db, RKey(p, "images"), path).Ok? {
      var db1 := Pushed(db, RKey(p, "images"), path).value;
      PushOnlyKey(db, RKey(p, "images"), path);
      assert Confined(db, db1, p);
      if Incremented(db1, RKey(p, "received_images")).Ok? {
        var db2 := Incremented(db1, RKey(p, "received_images")).value.0;
        IncrementOnlyKey(db1, RKey(p, "received_images"));
        assert Confined(db1, db2, p);
        ConfinedCompose(db, db1, db2, p);
      }
    }
  }

  lemma MediaConfined(db: Db, p: string, mime: string, state: Option<State>, env: Env)
    ensures Confined(db, OnMedia(db, p, mime, state, env).db, p)
  {
    if state == Some(WaitingForImages) {
      ImageConfined(db, p, env);
    }
  }

  /** Every message is confined to its sender's session, in the sense of `Confined`. */
  lemma IncomingConfined(db: Db, m: Message, env: Env)
    ensures Confined(db, Incoming(db, Some(m), env).db, m.sender)
  {
    if Read(db, RKey(m.sender, "state")).Ok? {
      match m.content {
        case Text(body) =>
          TextDispatch(db, m, env);
          TextConfined(db, m.sender, Strip(body), StoredState(db, m.sender), env.employee);
        case Media(mime) =>
          MediaDispatch(db, m, env);
          MediaConfined(db, m.sender, mime, StoredState(db, m.sender), env);
        case Other =>
      }
    }
  }

  /** A message changes no key outside its sender's session. */
  lemma OnlySenderSessionChanges(db: Db, m: Message, env: Env, k: string)
    requires !StartsWith(k, SessionPrefix(m.sender))
    ensures var after := Incoming(db, Some(m), env).db;
      && (k in after <==> k in db)
      && (k in db ==> after[k] == db[k])
  {
    IncomingConfined(db, m, env);
  }

  /** So another phone's session fields are untouched, as long as neither phone contains `:`. */
  lemma OtherPhonesUntouched(db: Db, m: Message, env: Env, q: string, field: string)
    requires ':' !in m.sender && ':' !in q && q != m.sender
    ensures var after := Incoming(db, Some(m), env).db;
      && (RKey(q, field) in after <==> RKey(q, field) in db)
      && (RKey(q, field) in db ==> after[RKey(q, field)] == db[RKey(q, field)])
  {
    SessionsDisjoint(m.sender, q, field);
    OnlySenderSessionChanges(db, m, env, RKey(q, field));
  }

  /** A greeting from an unknown employee (or employee number 0) is answered, and leaves no session field at all. */
  lemma UnknownEmployeeGreeted(db: Db, p: string, employee: Lookup<Employee>)
    requires employee.NotFound? || (employee.Found? && employee.value.empNo == 0)
    ensures var s := Greet(db, p, employee);
      && s.reply == Some(UserNotFound) && s.task.None? && s.fault.None?
      && forall field :: RKey(p, field) !in s.db
  {
    var s := Greet(db, p, employee);
    assert s.db == Cleared(db, p);
    forall field
      ensures RKey(p, field) !in s.db
    {
      ClearedRemovesSession(db, p, field);
    }
  }

  /**
   * A greeting from a known employee starts a fresh session: the employee number (read
   * back by `int()`), the tenant schema and the state WAITING_FOR_SERVICE, and no other
   * field of the old session is left.
   */
  lemma KnownEmployeeGreeted(db: Db, p: string, e: Employee)
    requires e.empNo != 0
    ensures var s := Greet(db, p, Found(e));
      && s.reply == Some(ServiceMenu) && s.task.None? && s.fault.None?
      && StoredState(s.db, p) == Some(WaitingForService)
      && CountIn(s.db, p, "emp_no") == Some(e.empNo)
      && RKey(p, "schema") in s.db && s.db[RKey(p, "schema")].value == Str(e.tenant)
    ensures var s := Greet(db, p, Found(e));
      forall field :: field != "emp_no" && field != "schema" && field != "state" ==> RKey(p, field) !in s.db
  {
    var s := Greet(db, p, Found(e));
    var db1 := Put(Put(Cleared(db, p), p, "emp_no", IntToString(e.empNo)), p, "schema", e.tenant);
    assert s.db == WithState(db1, p, WaitingForService);
    RKeyInjective(p, "emp_no", "state");
    RKeyInjective(p, "emp_no", "schema");
    RKeyInjective(p, "schema", "state");
    assert s.db[RKey(p, "emp_no")].value == Str(IntToString(e.empNo));
    PyIntOfIntToString(e.empNo);
    StateWritten(db1, p, WaitingForService);
    GreetingLeavesOnlyThree(db, p, e);
  }

  /** The three writes of a known employee's greeting are the only fields after the clear. */
  lemma GreetingLeavesOnlyThree(db: Db, p: string, e: Employee)
    requires e.empNo != 0
    ensures var s := Greet(db, p, Found(e));
      forall field :: field != "emp_no" && field != "schema" && field != "state" ==> RKey(p, field) !in s.db
  {
    var db1 := Put(Put(Cleared(db, p), p, "emp_no", IntToString(e.empNo)), p, "schema", e.tenant);
    assert Greet(db, p, Found(e)).db == WithState(db1, p, WaitingForService);
    forall field | field != "emp_no" && field != "schema" && field != "state"
      ensures RKey(p, field) !in WithState(db1, p, WaitingForService)
    {
      ClearedRemovesSession(db, p, field);
      RKeyInjective(p, field, "emp_no");
      RKeyInjective(p, field, "schema");
      RKeyInjective(p, field, "state");
    }
  }

  /** `hi` or `start`, in any case and with surrounding blanks, is a greeting whatever the stored state. */
  lemma GreetingInAnyState(db: Db, m: Message, env: Env)
    requires m.content.Text? && IsGreeting(Strip(m.content.body))
    requires Read(db, RKey(m.sender, "state")).Ok?
    ensures Incoming(db, Some(m), env) == Greet(db, m.sender, env.employee)
  {
    TextDispatch(db, m, env);
  }

  /** In WAITING_FOR_SERVICE, `1` chooses claims, `2` chooses GRN, and any other text changes nothing. */
  lemma ServiceChoice(db: Db, m: Message, env: Env)
    requires m.content.Text? && !IsGreeting(Strip(m.content.body))
    requires StoredState(db, m.sender) == Some(WaitingForService)
    ensures var s := Incoming(db, Some(m), env);
      var text := Strip(m.content.body);
      && (text == "1" ==> StoredState(s.db, m.sender) == Some(WaitingForEntity) && s.reply == Some(EntityMenu))
      && (text == "2" ==> StoredState(s.db, m.sender) == Some(WaitingForGrnUpload) && s.reply == Some(AskGrnUpload))
      && (text != "1" && text != "2" ==> s == Step(db, None, None, None))
  {
    var p, text := m.sender, Strip(m.content.body);
    assert Read(db, RKey(p, "state")).Ok?;
    TextDispatch(db, m, env);
    if text == "1" {
      assert Incoming(db, Some(m), env) == Step(WithState(db, p, WaitingForEntity), Some(EntityMenu), None, None);
      StateWritten(db, p, WaitingForEntity);
    } else if text == "2" {
      assert Incoming(db, Some(m), env) == Step(WithState(db, p, WaitingForGrnUpload), Some(AskGrnUpload), None, None);
      StateWritten(db, p, WaitingForGrnUpload);
    } else {
      assert Incoming(db, Some(m), env) == Step(db, None, None, None);
    }
  }

  /** In WAITING_FOR_ENTITY any text is an answer: `1` picks EN0001, anything else EN0010. */
  lemma EntityChoice(db: Db, m: Message, env: Env)
    requires m.content.Text? && !IsGreeting(Strip(m.content.body))
    requires StoredState(db, m.sender) == Some(WaitingForEntity)
    ensures var s := Incoming(db, Some(m), env);
      var k := RKey(m.sender, "entity_id");
      && k in s.db
      && s.db[k] == Entry(Str(if Strip(m.content.body) == "1" then "EN0001" else "EN0010"), Some(ChatTtl))
      && StoredState(s.db, m.sender) == Some(WaitingForImageCount)
      && s.reply == Some(AskImageCount)
  {
    var p, text := m.sender, Strip(m.content.body);
    var entity := if text == "1" then EntityOne else EntityTwo;
    assert Read(db, RKey(p, "state")).Ok?;
    TextDispatch(db, m, env);
    assert Incoming(db, Some(m), env)
        == Step(WithState(Put(db, p, "entity_id", entity), p, WaitingForImageCount), Some(AskImageCount), None, None);
    StateWritten(Put(db, p, "entity_id", entity), p, WaitingForImageCount);
    RKeyInjective(p, "entity_id", "state");
  }

  /** In WAITING_FOR_IMAGE_COUNT, text that is not a number fails in `int()` before any write. */
  lemma ImageCountNotANumber(db: Db, m: Message, env: Env)
    requires m.content.Text? && !IsGreeting(Strip(m.content.body)) && PyInt(Strip(m.content.body)).None?
    requires StoredState(db, m.sender) == Some(WaitingForImageCount)
    ensures Incoming(db, Some(m), env) == Step(db, None, None, Some(NotANumber))
  {
    assert Read(db, RKey(m.sender, "state")).Ok?;
    TextDispatch(db, m, env);
    CountTextNotANumber(db, m.sender, Strip(m.content.body), env.employee);
  }

  lemma CountTextNotANumber(db: Db, p: string, text: string, employee: Lookup<Employee>)
    requires !IsGreeting(text) && PyInt(text).None?
    ensures OnText(db, p, text, Some(WaitingForImageCount), employee) == Step(db, None, None, Some(NotANumber))
  {
    var state: Option<State> := Some(WaitingForImageCount);
    assert state != Some(WaitingForService) && state != Some(WaitingForEntity);
  }

  /** The store a count of `n` leaves. */
  function BatchStarted(db: Db, p: string, n: int): Db {
    WithState(Put(Put(db, p, "expected_images", IntToString(n)), p, "received_images", "0") - {RKey(p, "images")}, p, WaitingForImages)
  }

  lemma BatchStartFields(db: Db, p: string, n: int)
    ensures var after := BatchStarted(db, p, n);
      && StoredState(after, p) == Some(WaitingForImages)
      && RKey(p, "expected_images") in after && after[RKey(p, "expected_images")].value == Str(IntToString(n))
      && RKey(p, "received_images") in after && after[RKey(p, "received_images")].value == Str("0")
      && RKey(p, "images") !in after
  {
    var db1 := Put(Put(db, p, "expected_images", IntToString(n)), p, "received_images", "0");
    FieldKeysDistinct(p);
    StateWritten(db1 - {RKey(p, "images")}, p, WaitingForImages);
  }

  lemma BatchStart(db: Db, p: string, n: int)
    ensures var after := BatchStarted(db, p, n);
      && StoredState(after, p) == Some(WaitingForImages)
      && CountIn(after, p, "expected_images") == Some(n)
      && CountIn(after, p, "received_images") == Some(0)
      && RKey(p, "received_images") in after && after[RKey(p, "received_images")].value == Str("0")
      && RKey(p, "images") !in after && Range(after, RKey(p, "images")) == Ok([])
      && BatchConsistent(after, p)
  {
    BatchStartFields(db, p, n);
    PyIntOfIntToString(n);
    PyIntOfIntToString(0);
    assert IntToString(0) == "0";
  }

  /**
   * In WAITING_FOR_IMAGE_COUNT a number starts a batch: it is the expected count, the
   * received count is 0, the image list is empty, and images are awaited.
   */
  lemma ImageCountStartsBatch(db: Db, m: Message, env: Env, n: int)
    requires m.content.Text? && !IsGreeting(Strip(m.content.body)) && PyInt(Strip(m.content.body)) == Some(n)
    requires StoredState(db, m.sender) == Some(WaitingForImageCount)
    ensures var s := Incoming(db, Some(m), env);
      var p := m.sender;
      && StoredState(s.db, p) == Some(WaitingForImages)
      && CountIn(s.db, p, "expected_images") == Some(n)
      && CountIn(s.db, p, "received_images") == Some(0)
      && RKey(p, "received_images") in s.db && s.db[RKey(p, "received_images")].value == Str("0")
      && RKey(p, "images") !in s.db && Range(s.db, RKey(p, "images")) == Ok([])
      && s.reply == Some(SendImages(Strip(m.content.body)))
  {
    assert Read(db, RKey(m.sender, "state")).Ok?;
    TextDispatch(db, m, env);
    CountTextStartsBatch(db, m.sender, Strip(m.content.body), env.employee, n);
    BatchStart(db, m.sender, n);
  }

  lemma CountTextStartsBatch(db: Db, p: string, text: string, employee: Lookup<Employee>, n: int)
    requires !IsGreeting(text) && PyInt(text) == Some(n)
    ensures OnText(db, p, text, Some(WaitingForImageCount), employee) == Step(BatchStarted(db, p, n), Some(SendImages(text)), None, None)
  {
    var state: Option<State> := Some(WaitingForImageCount);
    assert state != Some(WaitingForService) && state != Some(WaitingForEntity);
  }

  /** A `1` or `2` starts the commit exactly in WAITING_FOR_CLAIM_CHOICE, and writes nothing then. */
  lemma ChoiceStartsCommit(db: Db, m: Message, env: Env)
    requires m.content.Text? && (Strip(m.content.body) == "1" || Strip(m.content.body) == "2")
    requires Read(db, RKey(m.sender, "state")).Ok?
    ensures var s := Incoming(db, Some(m), env);
      && (s.task == Some(CommitClaim(Strip(m.content.body))) <==> StoredState(db, m.sender) == Some(WaitingForClaimChoice))
      && (StoredState(db, m.sender) == Some(WaitingForClaimChoice) ==> s.db == db && s.reply.None?)
  {
    TextDispatch(db, m, env);
    ChoiceText(db, m.sender, Strip(m.content.body), StoredState(db, m.sender), env.employee);
  }

  lemma ChoiceText(db: Db, p: string, text: string, state: Option<State>, employee: Lookup<Employee>)
    requires text == "1" || text == "2"
    ensures var s := OnText(db, p, text, state, employee);
      && (s.task == Some(CommitClaim(text)) <==> state == Some(WaitingForClaimChoice))
      && (state == Some(WaitingForClaimChoice) ==> s.db == db && s.reply.None?)
  {
    assert Lower(text) == text;
    assert !IsGreeting(text);
  }

  /** Media outside WAITING_FOR_IMAGES and WAITING_FOR_GRN_UPLOAD is ignored. */
  lemma MediaElsewhereIgnored(db: Db, m: Message, env: Env)
    requires m.content.Media?
    requires Read(db, RKey(m.sender, "state")).Ok?
    requires StoredState(db, m.sender) != Some(WaitingForImages) && StoredState(db, m.sender) != Some(WaitingForGrnUpload)
    ensures Incoming(db, Some(m), env) == Step(db, None, None, None)
  {
  }

  /** A GRN file is saved as PDF exactly when its mime type is `application/pdf`, and the store is not written. */
  lemma GrnFileHandedOver(db: Db, m: Message, env: Env)
    requires m.content.Media? && env.downloaded
    requires StoredState(db, m.sender) == Some(WaitingForGrnUpload)
    ensures var s := Incoming(db, Some(m), env);
      && s.db == db && s.reply == Some(ProcessingGrn)
      && s.task == Some(ProcessGrn(MediaPath(env, m.sender, if m.content.mimeType == "application/pdf" then ".pdf" else ".jpg")))
  {
  }

  /** The comparison writes nothing; it faults unless an expected count can be read. */
  lemma CountsCompared(db: Db, p: string, received: int)
    ensures var s := CompareCounts(db, p, received);
      && s.db == db
      && (s.fault.None? <==> CountIn(db, p, "expected_images").Some?)
      && (CountIn(db, p, "expected_images").Some? ==>
            var expected := CountIn(db, p, "expected_images").value;
            && (s.task == Some(ProcessClaim) <==> received >= expected)
            && (received < expected ==> s.reply == Some(Progress(received, expected))))
  {
    match Read(db, RKey(p, "expected_images")) {
      case Err(_) =>
        assert CompareCounts(db, p, received).fault.Some?;
      case Ok(v) =>
        assert CountIn(db, p, "expected_images") == IntOfValue(v);
        match IntOfValue(v) {
          case None =>
            assert CompareCounts(db, p, received) == Step(db, None, None, Some(NotANumber));
          case Some(e) =>
            assert CompareCounts(db, p, received) == if received >= e then Step(db, Some(ProcessingInvoices), Some(ProcessClaim), None)
              else Step(db, Some(Progress(received, e)), None, None);
        }
    }
  }

  /**
   * The image branch, once the download succeeded and the counter holds `received`: one
   * path is appended to the image list, one is added to the count, nothing else is
   * written, and the expected count decides between processing and a progress reply.
   */
  lemma InvoiceImageRecorded(db: Db, p: string, env: Env, received: int)
    requires env.downloaded
    requires Range(db, RKey(p, "images")).Ok?
    requires RKey(p, "received_images") in db
    requires db[RKey(p, "received_images")].value == Str(IntToString(received))
    requires Int64Min <= received < Int64Max
    ensures var s := OnInvoiceImage(db, p, env);
      && Range(s.db, RKey(p, "images")) == Ok(Range(db, RKey(p, "images")).value + [MediaPath(env, p, ".jpg")])
      && s.db[RKey(p, "images")].ttl == (if RKey(p, "images") in db then db[RKey(p, "images")].ttl else None)
      && RKey(p, "received_images") in s.db
      && s.db[RKey(p, "received_images")] == Entry(Str(IntToString(received + 1)), db[RKey(p, "received_images")].ttl)
      && (forall k :: k != RKey(p, "images") && k != RKey(p, "received_images") ==>
            (k in s.db <==> k in db) && (k in db ==> s.db[k] == db[k]))
      && (s.fault.None? <==> CountIn(db, p, "expected_images").Some?)
      && (CountIn(db, p, "expected_images").Some? ==>
            var expected := CountIn(db, p, "expected_images").value;
            && (s.task == Some(ProcessClaim) <==> received + 1 >= expected)
            && (received + 1 < expected ==> s.reply == Some(Progress(received + 1, expected))))
  {
    var path := MediaPath(env, p, ".jpg");
    var ki, kr, ke := RKey(p, "images"), RKey(p, "received_images"), RKey(p, "expected_images");
    FieldKeysDistinct(p);
    PushAppends(db, ki, path);
    PushOnlyKey(db, ki, path);
    var db1 := Pushed(db, ki, path).value;
    assert db1[kr] == db[kr];
    IncrementCounts(db1, kr, received);
    var db2 := db1[kr := Entry(Str(IntToString(received + 1)), db[kr].ttl)];
    assert OnInvoiceImage(db, p, env) == CompareCounts(db2, p, received + 1);
    assert Read(db2, ke) == Read(db, ke);
    assert CountIn(db2, p, "expected_images") == CountIn(db, p, "expected_images");
    CountsCompared(db2, p, received + 1);
  }

  /**
   * An invoice image in WAITING_FOR_IMAGES appends exactly one path to the image list and
   * adds exactly one to the received count; processing starts exactly when the count
   * reaches the expected number, otherwise the reply reports the progress.
   */
  lemma InvoiceImageCounted(db: Db, m: Message, env: Env, received: int, expected: int)
    requires m.content.Media? && env.downloaded
    requires StoredState(db, m.sender) == Some(WaitingForImages)
    requires Range(db, RKey(m.sender, "images")).Ok?
    requires RKey(m.sender, "received_images") in db
    requires db[RKey(m.sender, "received_images")].value == Str(IntToString(received))
    requires Int64Min <= received < Int64Max
    requires CountIn(db, m.sender, "expected_images") == Some(expected)
    ensures var s := Incoming(db, Some(m), env);
      var p := m.sender;
      && Range(s.db, RKey(p, "images")) == Ok(Range(db, RKey(p, "images")).value + [MediaPath(env, p, ".jpg")])
      && RKey(p, "received_images") in s.db
      && s.db[RKey(p, "received_images")].value == Str(IntToString(received + 1))
      && (s.task == Some(ProcessClaim) <==> received + 1 >= expected)
      && (received + 1 < expected ==> s.reply == Some(Progress(received + 1, expected)))
      && s.fault.None?
  {
    MediaDispatch(db, m, env);
    InvoiceImageRecorded(db, m.sender, env, received);
  }

  /**
   * The image batch is consistent when, in WAITING_FOR_IMAGES, the received count is the
   * length of the image list.
   */
  predicate BatchConsistent(db: Db, phone: string) {
    StoredState(db, phone) == Some(WaitingForImages) ==>
      && Range(db, RKey(phone, "images")).Ok?
      && RKey(phone, "received_images") in db
      && db[RKey(phone, "received_images")].value == Str(IntToString(|Range(db, RKey(phone, "images")).value|))
  }

  /** A greeting leaves no batch in progress. */
  lemma GreetingEndsBatch(db: Db, p: string, employee: Lookup<Employee>)
    ensures StoredState(Greet(db, p, employee).db, p) != Some(WaitingForImages)
  {
    ClearedRemovesSession(db, p, "state");
    if employee.Found? && employee.value.empNo != 0 {
      KnownEmployeeGreeted(db, p, employee.value);
    }
  }

  /** A text message keeps its sender's batch consistent. */
  lemma TextKeepsBatch(db: Db, p: string, text: string, employee: Lookup<Employee>)
    requires BatchConsistent(db, p)
    ensures BatchConsistent(OnText(db, p, text, StoredState(db, p), employee).db, p)
  {
    var state := StoredState(db, p);
    if IsGreeting(text) {
      GreetingEndsBatch(db, p, employee);
    } else if state == Some(WaitingForService) && (text == "1" || text == "2") {
      StateWritten(db, p, WaitingForEntity);
      StateWritten(db, p, WaitingForGrnUpload);
    } else if state == Some(WaitingForEntity) {
      StateWritten(Put(db, p, "entity_id", if text == "1" then EntityOne else EntityTwo), p, WaitingForImageCount);
    } else if state == Some(WaitingForImageCount) && PyInt(text).Some? {
      BatchStart(db, p, PyInt(text).value);
    }
  }

  /** A media message keeps its sender's batch consistent (below 2^63 - 2 images). */
  lemma MediaKeepsBatch(db: Db, p: string, mime: string, env: Env)
    requires BatchConsistent(db, p)
    requires Range(db, RKey(p, "images")).Ok? ==> |Range(db, RKey(p, "images")).value| + 1 < Int64Max
    ensures BatchConsistent(OnMedia(db, p, mime, StoredState(db, p), env).db, p)
  {
    if StoredState(db, p) == Some(WaitingForImages) && env.downloaded {
      var n := |Range(db, RKey(p, "images")).value|;
      assert OnMedia(db, p, mime, StoredState(db, p), env) == OnInvoiceImage(db, p, env);
      InvoiceImageRecorded(db, p, env, n);
      FieldKeysDistinct(p);
      var after := OnInvoiceImage(db, p, env).db;
      assert Read(after, RKey(p, "state")) == Read(db, RKey(p, "state"));
      assert |Range(after, RKey(p, "images")).value| == n + 1;
    } else {
      assert OnMedia(db, p, mime, StoredState(db, p), env).db == db;
    }
  }

  /** Every message keeps its sender's batch consistent (below 2^63 - 2 images). */
  lemma BatchStaysConsistent(db: Db, m: Message, env: Env)
    requires BatchConsistent(db, m.sender)
    requires Range(db, RKey(m.sender, "images")).Ok? ==> |Range(db, RKey(m.sender, "images")).value| + 1 < Int64Max
    ensures BatchConsistent(Incoming(db, Some(m), env).db, m.sender)
  {
    if Read(db, RKey(m.sender, "state")).Ok? {
      match m.content {
        case Text(body) =>
          TextDispatch(db, m, env);
          TextKeepsBatch(db, m.sender, Strip(body), env.employee);
        case Media(mime) =>
          MediaDispatch(db, m, env);
          MediaKeepsBatch(db, m.sender, mime, env);
        case Other =>
      }
    }
  }

  /**
   * An image that arrives after the batch is complete, while the state is still
   * WAITING_FOR_IMAGES, starts processing a second time: the state only changes when the
   * background processing finishes.
   */
  lemma ExtraImageReprocesses(db: Db, m1: Message, m2: Message, env1: Env, env2: Env, received: int, expected: int)
    requires m1.content.Media? && m2.content.Media? && m2.sender == m1.sender && env1.downloaded && env2.downloaded
    requires StoredState(db, m1.sender) == Some(WaitingForImages)
    requires Range(db, RKey(m1.sender, "images")).Ok?
    requires RKey(m1.sender, "received_images") in db
    requires db[RKey(m1.sender, "received_images")].value == Str(IntToString(received))
    requires Int64Min <= received && received + 2 < Int64Max
    requires CountIn(db, m1.sender, "expected_images") == Some(expected)
    requires Incoming(db, Some(m1), env1).task == Some(ProcessClaim)
    ensures Incoming(Incoming(db, Some(m1), env1).db, Some(m2), env2).task == Some(ProcessClaim)
  {
    var p := m1.sender;
    MediaDispatch(db, m1, env1);
    InvoiceImageRecorded(db, p, env1, received);
    var after := Incoming(db, Some(m1), env1).db;
    FieldKeysDistinct(p);
    assert after[RKey(p, "state")] == db[RKey(p, "state")];
    assert Read(after, RKey(p, "expected_images")) == Read(db, RKey(p, "expected_images"));
    assert CountIn(after, p, "expected_images") == Some(expected);
    InvoiceImageCounted(after, m2, env2, received + 1, expected);
  }

  /**
   * The `state` the handler leaves is unchanged, missing, or one of the declared state
   * names other than WAITING_FOR_ADD_ANOTHER, which is never written.
   */
  lemma WrittenStatesDeclared(db: Db, m: Message, env: Env)
    ensures var after := Incoming(db, Some(m), env).db;
      var k := RKey(m.sender, "state");
      k in after ==>
        || (k in db && after[k] == db[k])
        || exists s: State :: s != WaitingForAddAnother && after[k].value == Str(StateName(s))
  {
    IncomingConfined(db, m, env);
  }

  /**
   * Every key a message writes with `setex` expires after CHAT_TTL; only the image list
   * and the received count, written by RPUSH and INCR, may lack that expiry.
   */
  lemma WritesExpire(db: Db, m: Message, env: Env, k: string)
    requires k != RKey(m.sender, "images") && k != RKey(m.sender, "received_images")
    ensures var after := Incoming(db, Some(m), env).db;
      k in after && (k !in db || after[k] != db[k]) ==> after[k].ttl == Some(ChatTtl)
  {
    IncomingConfined(db, m, env);
  }

  /**
   * The image list of a batch never expires: the count message deletes it, and the
   * first image re-creates it with RPUSH, which sets no expiry.
   */
  lemma ImageListNeverExpires(db: Db, m1: Message, m2: Message, env1: Env, env2: Env)
    requires m1.content.Text? && !IsGreeting(Strip(m1.content.body)) && PyInt(Strip(m1.content.body)).Some?
    requires StoredState(db, m1.sender) == Some(WaitingForImageCount)
    requires m2.content.Media? && m2.sender == m1.sender && env2.downloaded
    ensures var after := Incoming(Incoming(db, Some(m1), env1).db, Some(m2), env2).db;
      RKey(m1.sender, "images") in after && after[RKey(m1.sender, "images")].ttl.None?
  {
    var p := m1.sender;
    var mid := Incoming(db, Some(m1), env1).db;
    ImageCountStartsBatch(db, m1, env1, PyInt(Strip(m1.content.body)).value);
    assert IntToString(0) == "0";
    MediaDispatch(mid, m2, env2);
    assert Incoming(mid, Some(m2), env2) == OnInvoiceImage(mid, p, env2);
    InvoiceImageRecorded(mid, p, env2, 0);
  }
}
