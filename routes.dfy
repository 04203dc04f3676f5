/** The HTTP handlers of the server, each a guard-then-mutate procedure over the
    store. Stripe, the AI service, the random source and the clock are parameters:
    a handler receives the answer the external call would give and uses it only on
    the path that makes the call. */
module Routes {
  import opened Wrappers
  import opened Schema
  import opened Storage
  import opened Hex
  import opened PdfParser

  datatype Body =
    | Message(message: string)
    | Created(sessionToken: string, sessionId: string)
    | SessionJson(session: CvSession)
    | Uploaded(cvData: CvData)
    | Extracted(extracted: Json)
    | Enhanced(enhancedDescription: string)
    | ClientSecret(clientSecret: Option<string>)
    | Verified(success: bool, text: string)
    | PdfStarted(success: bool, text: string, downloadUrl: string)

  datatype Response = Response(status: int, body: Body)

  function NotFound(): Response {
    Response(404, Message("Session not found"))
  }

  // ---------------------------------------------------------------------------
  // POST /api/cv-session

  /** The document a new session is stored with. */
  function NewSessionDocument(): Json {
    JObj(map[
      "personalInfo" := JObj(map["fullName" := JStr(""), "title" := JStr(""), "email" := JStr(""),
                                 "phone" := JStr(""), "location" := JStr(""), "summary" := JStr("")]),
      "experiences" := JArr([]), "education" := JArr([]), "skills" := JArr([])])
  }

  function NewSessionInsert(token: string): InsertCvSession {
    InsertCvSession(token, NewSessionDocument(), Val(DEFAULT_STEP), Val(DEFAULT_STEP), Val(false), Val(None))
  }

  /** The stored document is the client's empty document, serialised, and the schema
      rejects it. */
  lemma NewSessionDocumentIsEmpty()
    ensures NewSessionDocument() == EncodeCvData(EmptyCvData())
    ensures ValidateCvData(NewSessionDocument()).Err?
  {
    var d := EmptyCvData();
    assert OptionalEntry("summary", d.personalInfo.summary) == map["summary" := JStr("")];
    assert EncodePersonalInfo(d.personalInfo) == NewSessionDocument().fields["personalInfo"];
    assert EncodeExperiences(d.experiences) == [] && EncodeEducations(d.education) == [] && EncodeSkills(d.skills) == [];
    EmptyCvDataRejected();
  }

  /** The session a new token gets: the empty document, both steps `"personal-info"`,
      unpaid, no intent id, created and updated at the same instant. */
  lemma NewSessionShape(random: seq<Byte>, id: string, now: int)
    requires |random| == 32
    ensures var s := NewSession(NewSessionInsert(HexEncode(random)), id, now);
      |s.sessionToken| == 64 && s.cvData == Val(NewSessionDocument()) &&
      s.currentStep == Val("personal-info") && s.currentSubStep == Val("personal-info") &&
      s.isPaid == Val(false) && s.paymentIntentId == Val(None) && s.createdAt == s.updatedAt
  {
  }

  method CreateSession(store: MemStorage, random: seq<Byte>, id: string, now: int) returns (resp: Response)
    requires store.Valid() && |random| == 32
    modifies store
    ensures store.Valid()
    ensures resp == Response(200, Created(HexEncode(random), id))
    ensures store.sessions == old(store.sessions)[id := NewSession(NewSessionInsert(HexEncode(random)), id, now)]
    ensures store.sessionOrder == if id in old(store.sessions) then old(store.sessionOrder) else old(store.sessionOrder) + [id]
    ensures store.payments == old(store.payments) && store.paymentOrder == old(store.paymentOrder)
    ensures store.users == old(store.users)
    ensures id !in old(store.sessions) ==> PaymentFieldsKept(old(store.sessions), store.sessions)
  {
    var token := HexEncode(random);
    var s := store.CreateCvSession(NewSessionInsert(token), id, now);
    resp := Response(200, Created(token, s.id));
  }

  // ---------------------------------------------------------------------------
  // GET /api/cv-session/:token

  method GetSession(store: MemStorage, token: string) returns (resp: Response)
    requires store.Valid()
    ensures FirstWithToken(store.SessionList(), token).None? ==> resp == NotFound()
    ensures FirstWithToken(store.SessionList(), token).Some? ==>
      resp == Response(200, SessionJson(FirstWithToken(store.SessionList(), token).value))
    ensures resp.status == 200 ==> resp.body.session.sessionToken == token
  {
    var found := store.GetCvSessionByToken(token);
    if found.None? {
      return NotFound();
    }
    resp := Response(200, SessionJson(found.value));
  }

  // ---------------------------------------------------------------------------
  // PUT /api/cv-session/:token

  /** The three keys the handler destructures from the request body. */
  datatype PutBody = PutBody(cvData: Js<Json>, currentStep: Js<string>, currentSubStep: Js<string>)

  /** The update the handler passes to the store: always all three keys, each
      possibly undefined, and never the payment fields. */
  function ForwardedPatch(b: PutBody): (p: SessionPatch)
    ensures p.cvData.Present? && p.currentStep.Present? && p.currentSubStep.Present?
    ensures p.isPaid.Absent? && p.paymentIntentId.Absent?
    ensures p.cvData.value == b.cvData && p.currentStep.value == b.currentStep
    ensures p.currentSubStep.value == b.currentSubStep
  {
    SessionPatch(Present(b.cvData), Present(b.currentStep), Present(b.currentSubStep), Absent, Absent)
  }

  /** A key missing from the body reaches the store as `undefined` and blanks the
      stored field; the payment fields are never touched. */
  lemma PutBlanksMissingKeys(s: CvSession, b: PutBody, now: int)
    ensures var r := ApplySessionPatch(s, ForwardedPatch(b), now);
      r.cvData == b.cvData && r.currentStep == b.currentStep && r.currentSubStep == b.currentSubStep &&
      r.isPaid == s.isPaid && r.paymentIntentId == s.paymentIntentId
  {
  }

  method PutSession(store: MemStorage, token: string, body: PutBody, now: int) returns (resp: Response)
    requires store.Valid()
    modifies store
    ensures store.Valid()
    ensures FirstWithToken(old(store.SessionList()), token).None? ==>
      resp == NotFound() && store.sessions == old(store.sessions)
    ensures FirstWithToken(old(store.SessionList()), token).Some? ==>
      var found := FirstWithToken(old(store.SessionList()), token).value;
      var updated := ApplySessionPatch(found, ForwardedPatch(body), now);
      resp == Response(200, SessionJson(updated)) && store.sessions == old(store.sessions)[found.id := updated]
    ensures store.sessionOrder == old(store.sessionOrder)
    ensures store.payments == old(store.payments) && store.paymentOrder == old(store.paymentOrder)
    ensures store.users == old(store.users)
    ensures PaymentFieldsKept(old(store.sessions), store.sessions)
  {
    var found := store.GetCvSessionByToken(token);
    if found.None? {
      return NotFound();
    }
    FoundSessionIsStored(store, token);
    PutBlanksMissingKeys(found.value, body, now);
    var r := store.UpdateCvSession(found.value.id, ForwardedPatch(body), now);
    resp := Response(200, SessionJson(r.value));
  }

  // ---------------------------------------------------------------------------
  // POST /api/upload-json

  /** `upload` is `None` without a file, otherwise the outcome of `JSON.parse` on
      its text. */
  function UploadJson(upload: Option<Result<Json, string>>): (r: Response)
    ensures upload.None? ==> r == Response(400, Message("No file uploaded"))
    ensures r.status == 200 <==> upload.Some? && upload.value.Ok? && ValidateCvData(upload.value.value).Ok?
    ensures r.status == 200 ==> r.body.Uploaded? && Ok(r.body.cvData) == ValidateCvData(upload.value.value)
    ensures r.status == 200 ==> ValidCvData(r.body.cvData)
    ensures r.status == 200 || r.status == 400
  {
    match upload
    case None => Response(400, Message("No file uploaded"))
    case Some(Err(parseError)) => Response(400, Message("Invalid JSON file: " + parseError))
    case Some(Ok(j)) =>
      match ValidateCvData(j)
      case Ok(d) => Response(200, Uploaded(d))
      case Err(issue) => Response(400, Message("Invalid JSON file: " + issue.message))
  }

  /** Uploading a serialised document returns it iff it satisfies the schema. */
  lemma UploadJsonRoundTrip(d: CvData)
    ensures UploadJson(Some(Ok(EncodeCvData(d)))).status == 200 <==> ValidCvData(d)
    ensures ValidCvData(d) ==> UploadJson(Some(Ok(EncodeCvData(d)))) == Response(200, Uploaded(d))
  {
    CvDataRoundTrip(d);
  }

  // ---------------------------------------------------------------------------
  // POST /api/upload-pdf

  /** `extract` is the AI service's answer for a given text. */
  function UploadPdf(file: Option<seq<Byte>>, extract: string -> Result<Json, string>): (r: Response)
    ensures file.None? ==> r == Response(400, Message("No file uploaded"))
    ensures file.Some? && !ValidatePdf(file.value) ==> r == Response(400, Message("Invalid PDF file"))
    ensures r.status == 200 <==> file.Some? && ValidatePdf(file.value) && extract(ExtractText(file.value)).Ok?
    ensures r.status == 200 ==> r.body == Extracted(extract(ExtractText(file.value)).value)
  {
    if file.None? then Response(400, Message("No file uploaded"))
    else if !ValidatePdf(file.value) then Response(400, Message("Invalid PDF file"))
    else
      match extract(ExtractText(file.value))
      case Ok(j) => Response(200, Extracted(j))
      case Err(e) => Response(500, Message("Error processing PDF: " + e))
  }

  /** The guards come before the AI call: when they reject, the AI's answer makes
      no difference. */
  lemma UploadPdfGuardsFirst(file: Option<seq<Byte>>, e1: string -> Result<Json, string>, e2: string -> Result<Json, string>)
    requires file.None? || !ValidatePdf(file.value)
    ensures UploadPdf(file, e1) == UploadPdf(file, e2) && UploadPdf(file, e1).status == 400
  {
  }

  /** What the AI returns is passed on without schema validation. */
  lemma UploadPdfDoesNotValidate(rest: seq<Byte>)
    ensures UploadPdf(Some(PDF_MAGIC + rest), _ => Ok(JNull)) == Response(200, Extracted(JNull))
    ensures ValidateCvData(JNull).Err?
  {
    MagicAccepted(rest);
  }

  // ---------------------------------------------------------------------------
  // POST /api/enhance-description

  datatype EnhanceBody = EnhanceBody(description: Js<string>, jobTitle: Js<string>, company: Js<string>)

  predicate EnhanceGuard(b: EnhanceBody) {
    TruthyString(b.description) && TruthyString(b.jobTitle) && TruthyString(b.company)
  }

  /** `enhance` is the AI service's answer for (description, job title, company). */
  function EnhanceDescription(b: EnhanceBody, enhance: (string, string, string) -> Result<string, string>): (r: Response)
    ensures !EnhanceGuard(b) ==> r == Response(400, Message("Missing required fields"))
    ensures EnhanceGuard(b) ==>
      var answer := enhance(b.description.value, b.jobTitle.value, b.company.value);
      (r.status == 200 <==> answer.Ok?) && (answer.Ok? ==> r.body == Enhanced(answer.value)) &&
      (answer.Err? ==> r.status == 500)
  {
    if !EnhanceGuard(b) then Response(400, Message("Missing required fields"))
    else
      match enhance(b.description.value, b.jobTitle.value, b.company.value)
      case Ok(text) => Response(200, Enhanced(text))
      case Err(e) => Response(500, Message("Error enhancing description: " + e))
  }

  lemma EnhanceGuardFirst(b: EnhanceBody, e1: (string, string, string) -> Result<string, string>,
                          e2: (string, string, string) -> Result<string, string>)
    requires !EnhanceGuard(b)
    ensures EnhanceDescription(b, e1) == EnhanceDescription(b, e2)
  {
  }

  // ---------------------------------------------------------------------------
  // POST /api/create-payment-intent

  const PRICE_CENTS := 999
  const PRICE_TEXT := "9.99"

  /** What the handler asks Stripe to create. */
  datatype IntentRequest = IntentRequest(amount: int, currency: string, sessionId: string, sessionToken: string)

  /** What Stripe answers. */
  datatype Intent = Intent(id: string, status: string, clientSecret: Option<string>)

  /** The payment record stored for an intent. */
  function PaymentInsert(sessionId: string, intent: Intent): InsertPayment {
    InsertPayment(Val(Some(sessionId)), intent.id, PRICE_TEXT, Val(DEFAULT_CURRENCY), intent.status)
  }

  lemma PaymentRecordShape(sessionId: string, intent: Intent, id: string, now: int)
    requires sessionId != ""
    ensures var p := NewPayment(PaymentInsert(sessionId, intent), id, now);
      p.sessionId == Some(sessionId) && p.amount == "9.99" && p.currency == "usd" &&
      p.status == intent.status && p.stripePaymentIntentId == intent.id
  {
  }

  /** `request` is the Stripe call the handler makes, if any; `stripe` is its answer. */
  method CreatePaymentIntent(store: MemStorage, token: string, stripe: Result<Intent, string>, paymentId: string, now: int)
    returns (resp: Response, request: Option<IntentRequest>)
    requires store.Valid()
    modifies store
    ensures store.Valid()
    ensures store.sessions == old(store.sessions) && store.sessionOrder == old(store.sessionOrder)
    ensures store.users == old(store.users)
    ensures FirstWithToken(old(store.SessionList()), token).None? ==>
      resp == NotFound() && request == None && store.payments == old(store.payments)
    ensures FirstWithToken(old(store.SessionList()), token).Some? ==>
      var s := FirstWithToken(old(store.SessionList()), token).value;
      (s.isPaid == Val(true) ==>
        resp == Response(400, Message("Session already paid")) && request == None &&
        store.payments == old(store.payments)) &&
      (s.isPaid != Val(true) ==>
        request == Some(IntentRequest(PRICE_CENTS, DEFAULT_CURRENCY, s.id, token)) &&
        (stripe.Err? ==>
          resp == Response(500, Message("Error creating payment intent: " + stripe.error)) &&
          store.payments == old(store.payments)) &&
        (stripe.Ok? ==>
          resp == Response(200, ClientSecret(stripe.value.clientSecret)) &&
          store.payments == old(store.payments)[paymentId := NewPayment(PaymentInsert(s.id, stripe.value), paymentId, now)] &&
          store.paymentOrder ==
            if paymentId in old(store.payments) then old(store.paymentOrder) else old(store.paymentOrder) + [paymentId]))
    ensures store.payments == old(store.payments) ==> store.paymentOrder == old(store.paymentOrder)
    ensures PaymentFieldsKept(old(store.sessions), store.sessions)
  {
    request := None;
    var found := store.GetCvSessionByToken(token);
    if found.None? {
      return NotFound(), request;
    }
    var s := found.value;
    if s.isPaid == Val(true) {
      return Response(400, Message("Session already paid")), request;
    }
    request := Some(IntentRequest(PRICE_CENTS, DEFAULT_CURRENCY, s.id, token));
    if stripe.Err? {
      return Response(500, Message("Error creating payment intent: " + stripe.error)), request;
    }
    var p := store.CreatePayment(PaymentInsert(s.id, stripe.value), paymentId, now);
    resp := Response(200, ClientSecret(stripe.value.clientSecret));
  }

  // ---------------------------------------------------------------------------
  // POST /api/verify-payment

  /** `retrieved` is the status Stripe reports for the intent, or its error. */
  method VerifyPayment(store: MemStorage, paymentIntentId: string, token: string, retrieved: Result<string, string>, now: int)
    returns (resp: Response)
    requires store.Valid()
    modifies store
    ensures store.Valid()
    ensures store.sessionOrder == old(store.sessionOrder) && store.users == old(store.users)
    ensures store.payments == old(store.payments) && store.paymentOrder == old(store.paymentOrder)
    ensures retrieved.Err? ==>
      resp == Response(500, Message("Error verifying payment: " + retrieved.error)) && store.sessions == old(store.sessions)
    ensures retrieved.Ok? && retrieved.value != "succeeded" ==>
      resp == Response(400, Message("Payment not completed")) && store.sessions == old(store.sessions)
    ensures retrieved == Ok("succeeded") && FirstWithToken(old(store.SessionList()), token).None? ==>
      resp == NotFound() && store.sessions == old(store.sessions)
    ensures retrieved == Ok("succeeded") && FirstWithToken(old(store.SessionList()), token).Some? ==>
      var s := FirstWithToken(old(store.SessionList()), token).value;
      resp == Response(200, Verified(true, "Payment verified and premium features unlocked")) &&
      store.sessions == old(store.sessions)[s.id := ApplySessionPatch(s, PaidPatch(paymentIntentId), now)]
    ensures PaymentFlagOnlyRaised(old(store.sessions), store.sessions)
  {
    if retrieved.Err? {
      return Response(500, Message("Error verifying payment: " + retrieved.error));
    }
    if retrieved.value != "succeeded" {
      return Response(400, Message("Payment not completed"));
    }
    var found := store.GetCvSessionByToken(token);
    if found.None? {
      return NotFound();
    }
    FoundSessionIsStored(store, token);
    var marked := store.MarkSessionAsPaid(found.value.id, paymentIntentId, now);
    // The payment record is looked up, and its status is left as it was.
    var payment := store.GetPaymentByIntentId(paymentIntentId);
    resp := Response(200, Verified(true, "Payment verified and premium features unlocked"));
  }

  // ---------------------------------------------------------------------------
  // POST /api/generate-pdf

  const DOWNLOAD_PREFIX := "/api/download-pdf/"

  method GeneratePdf(store: MemStorage, token: string) returns (resp: Response)
    requires store.Valid()
    ensures FirstWithToken(store.SessionList(), token).None? ==> resp == NotFound()
    ensures FirstWithToken(store.SessionList(), token).Some? ==>
      var s := FirstWithToken(store.SessionList(), token).value;
      (s.isPaid != Val(true) ==> resp == Response(403, Message("Premium feature - payment required"))) &&
      (s.isPaid == Val(true) ==> resp == Response(200, PdfStarted(true, "PDF generation initiated", DOWNLOAD_PREFIX + token)))
  {
    var found := store.GetCvSessionByToken(token);
    if found.None? {
      return NotFound();
    }
    if found.value.isPaid != Val(true) {
      return Response(403, Message("Premium feature - payment required"));
    }
    resp := Response(200, PdfStarted(true, "PDF generation initiated", DOWNLOAD_PREFIX + token));
  }

  // ---------------------------------------------------------------------------
  // The payment flag across handlers

  /** No stored session's payment fields differ between `before` and `after`. */
  ghost predicate PaymentFieldsKept(before: map<string, CvSession>, after: map<string, CvSession>) {
    forall k | k in before :: k in after && after[k].isPaid == before[k].isPaid &&
      after[k].paymentIntentId == before[k].paymentIntentId
  }

  /** A session's flag after any handler: kept, or set to `true` (by `verify-payment`). */
  ghost predicate PaymentFlagOnlyRaised(before: map<string, CvSession>, after: map<string, CvSession>) {
    forall k | k in before :: k in after && (after[k].isPaid == before[k].isPaid || after[k].isPaid == Val(true))
  }

  /** With a single session stored, the iteration order lists just that session. */
  lemma SingleSessionList(store: MemStorage, k: string)
    requires store.sessionOrder == [k] && k in store.sessions
    ensures store.SessionList() == [store.sessions[k]]
  {
    assert store.sessionOrder[1..] == [];
  }

  /** A client of the handlers: a new session is edited; the PUT keeps the payment
      fields, and `generate-pdf` refuses the unpaid session. */
  method EditNewSession(random: seq<Byte>, body: PutBody) returns (store: MemStorage, put: Response, pdf: Response)
    requires |random| == 32
    ensures fresh(store) && store.Valid() && store.sessionOrder == ["session-1"]
    ensures "session-1" in store.sessions && store.sessions["session-1"].sessionToken == HexEncode(random)
    ensures store.sessions["session-1"].isPaid == Val(false)
    ensures put.status == 200
    ensures pdf == Response(403, Message("Premium feature - payment required"))
  {
    store := new MemStorage();
    var token := HexEncode(random);
    var created := CreateSession(store, random, "session-1", 0);
    SingleSessionList(store, "session-1");

    put := PutSession(store, token, body, 1);
    SingleSessionList(store, "session-1");

    pdf := GeneratePdf(store, token);
  }

  /** A client of the handlers: the unpaid session is paid for and verified twice.
      The second verification answers as the first did, the flag stays `true`, a
      second payment intent is refused, and `generate-pdf` now answers 200. */
  method PayAndVerifyTwice(store: MemStorage, k: string, intent: Intent)
    returns (payment: Response, v1: Response, v2: Response, again: Response, pdf: Response)
    requires store.Valid() && store.sessionOrder == [k] && k in store.sessions
    requires store.sessions[k].isPaid == Val(false)
    modifies store
    ensures k in store.sessions && store.sessions[k].isPaid == Val(true)
    ensures payment == Response(200, ClientSecret(intent.clientSecret))
    ensures v1 == Response(200, Verified(true, "Payment verified and premium features unlocked")) && v2 == v1
    ensures again == Response(400, Message("Session already paid"))
    ensures pdf == Response(200, PdfStarted(true, "PDF generation initiated", DOWNLOAD_PREFIX + old(store.sessions[k].sessionToken)))
  {
    var token := store.sessions[k].sessionToken;
    SingleSessionList(store, k);
    var request;
    payment, request := CreatePaymentIntent(store, token, Ok(intent), "payment-1", 2);
    SingleSessionList(store, k);

    v1 := VerifyPayment(store, intent.id, token, Ok("succeeded"), 3);
    SingleSessionList(store, k);

    v2 := VerifyPayment(store, intent.id, token, Ok("succeeded"), 4);
    SingleSessionList(store, k);

    var none;
    again, none := CreatePaymentIntent(store, token, Ok(intent), "payment-2", 5);
    SingleSessionList(store, k);

    pdf := GeneratePdf(store, token);
  }
}
