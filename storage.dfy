/** The server's in-memory store: three maps keyed by id (users, CV sessions,
    payments), with the insertion order a JavaScript `Map` iterates in kept as a
    sequence of ids. Fresh ids and the clock are parameters. */
module Storage {
  import opened Wrappers
  import opened Schema

  // ---------------------------------------------------------------------------
  // Records

  datatype User = User(
    id: string, email: Js<Option<string>>, firstName: Js<Option<string>>,
    lastName: Js<Option<string>>, profileImageUrl: Js<Option<string>>,
    createdAt: int, updatedAt: int)

  /** The payload of `upsertUser`: `id` may be missing, the other keys may be
      absent, undefined, null or a string. */
  datatype UserPatch = UserPatch(
    id: Js<string>, email: Field<Option<string>>, firstName: Field<Option<string>>,
    lastName: Field<Option<string>>, profileImageUrl: Field<Option<string>>)

  /** A stored CV session. The keys an update may overwrite with `undefined` are `Js`. */
  datatype CvSession = CvSession(
    id: string, sessionToken: string, cvData: Js<Json>,
    currentStep: Js<string>, currentSubStep: Js<string>,
    isPaid: Js<bool>, paymentIntentId: Js<Option<string>>,
    createdAt: int, updatedAt: int)

  /** The payload of `createCvSession`; the defaulted columns may be missing. */
  datatype InsertCvSession = InsertCvSession(
    sessionToken: string, cvData: Json, currentStep: Js<string>, currentSubStep: Js<string>,
    isPaid: Js<bool>, paymentIntentId: Js<Option<string>>)

  /** `Partial<CvSession>` as `updateCvSession` receives it, for the keys callers pass. */
  datatype SessionPatch = SessionPatch(
    cvData: Field<Json>, currentStep: Field<string>, currentSubStep: Field<string>,
    isPaid: Field<bool>, paymentIntentId: Field<Option<string>>)

  datatype Payment = Payment(
    id: string, sessionId: Option<string>, stripePaymentIntentId: string,
    amount: string, currency: string, status: string, createdAt: int)

  datatype InsertPayment = InsertPayment(
    sessionId: Js<Option<string>>, stripePaymentIntentId: string,
    amount: string, currency: Js<string>, status: string)

  // ---------------------------------------------------------------------------
  // JavaScript `||` defaults

  /** `x || d` for a possibly undefined string. */
  function StringOr(x: Js<string>, d: string): (r: string)
    ensures TruthyString(x) ==> r == x.value
    ensures !TruthyString(x) ==> r == d
  {
    if TruthyString(x) then x.value else d
  }

  /** `x || null` for a possibly undefined, possibly null string. */
  function JsOrNull(x: Js<Option<string>>): (r: Option<string>)
    ensures r.Some? <==> x.Val? && x.value.Some? && x.value.value != ""
    ensures r.Some? ==> r == x.value
  {
    if x.Val? && x.value.Some? && x.value.value != "" then x.value else None
  }

  /** `x || null` for a patch key. */
  function FieldOrNull(f: Field<Option<string>>): Option<string> {
    if f.Present? then JsOrNull(f.value) else None
  }

  // ---------------------------------------------------------------------------
  // The records the operations build

  /** The session `createCvSession` stores. */
  function NewSession(ins: InsertCvSession, id: string, now: int): (s: CvSession)
    ensures s.id == id && s.sessionToken == ins.sessionToken && s.cvData == Val(ins.cvData)
    ensures s.currentStep.Val? && s.currentStep.value != "" && s.currentSubStep.Val? && s.currentSubStep.value != ""
    ensures TruthyString(ins.currentStep) ==> s.currentStep == ins.currentStep
    ensures !TruthyString(ins.currentStep) ==> s.currentStep == Val("personal-info")
    ensures TruthyString(ins.currentSubStep) ==> s.currentSubStep == ins.currentSubStep
    ensures !TruthyString(ins.currentSubStep) ==> s.currentSubStep == Val("personal-info")
    ensures s.isPaid.Val? && (s.isPaid.value <==> ins.isPaid == Val(true))
    ensures s.paymentIntentId == Val(JsOrNull(ins.paymentIntentId))
    ensures s.createdAt == s.updatedAt == now
  {
    CvSession(
      id, ins.sessionToken, Val(ins.cvData),
      Val(StringOr(ins.currentStep, "personal-info")), Val(StringOr(ins.currentSubStep, "personal-info")),
      Val(ins.isPaid == Val(true)), Val(JsOrNull(ins.paymentIntentId)), now, now)
  }

  /** `{ ...session, ...updates, updatedAt: now }`. */
  function ApplySessionPatch(s: CvSession, p: SessionPatch, now: int): (r: CvSession)
    ensures r.id == s.id && r.sessionToken == s.sessionToken && r.createdAt == s.createdAt
    ensures r.cvData == Merge(s.cvData, p.cvData)
    ensures r.currentStep == Merge(s.currentStep, p.currentStep)
    ensures r.currentSubStep == Merge(s.currentSubStep, p.currentSubStep)
    ensures r.isPaid == Merge(s.isPaid, p.isPaid)
    ensures r.paymentIntentId == Merge(s.paymentIntentId, p.paymentIntentId)
    ensures r.updatedAt == now
  {
    s.(cvData := Merge(s.cvData, p.cvData), currentStep := Merge(s.currentStep, p.currentStep),
       currentSubStep := Merge(s.currentSubStep, p.currentSubStep), isPaid := Merge(s.isPaid, p.isPaid),
       paymentIntentId := Merge(s.paymentIntentId, p.paymentIntentId), updatedAt := now)
  }

  /** The update `markSessionAsPaid` performs. */
  function PaidPatch(paymentIntentId: string): SessionPatch {
    SessionPatch(Absent, Absent, Absent, Present(Val(true)), Present(Val(Some(paymentIntentId))))
  }

  /** The payment `createPayment` stores. */
  function NewPayment(ins: InsertPayment, id: string, now: int): (p: Payment)
    ensures p.id == id && p.stripePaymentIntentId == ins.stripePaymentIntentId
    ensures p.amount == ins.amount && p.status == ins.status && p.createdAt == now
    ensures p.sessionId == JsOrNull(ins.sessionId)
    ensures TruthyString(ins.currency) ==> p.currency == ins.currency.value
    ensures !TruthyString(ins.currency) ==> p.currency == DEFAULT_CURRENCY
  {
    Payment(id, JsOrNull(ins.sessionId), ins.stripePaymentIntentId, ins.amount,
            StringOr(ins.currency, DEFAULT_CURRENCY), ins.status, now)
  }

  /** `{ ...existingUser, ...userData, updatedAt: now }`. */
  function MergeUser(u: User, p: UserPatch, now: int): (r: User)
    ensures r.id == u.id && r.createdAt == u.createdAt && r.updatedAt == now
    ensures r.email == Merge(u.email, p.email) && r.firstName == Merge(u.firstName, p.firstName)
    ensures r.lastName == Merge(u.lastName, p.lastName)
    ensures r.profileImageUrl == Merge(u.profileImageUrl, p.profileImageUrl)
  {
    u.(email := Merge(u.email, p.email), firstName := Merge(u.firstName, p.firstName),
       lastName := Merge(u.lastName, p.lastName), profileImageUrl := Merge(u.profileImageUrl, p.profileImageUrl),
       updatedAt := now)
  }

  /** The user `upsertUser` creates when no user has the given id. */
  function NewUser(p: UserPatch, freshId: string, now: int): (r: User)
    ensures r.id == StringOr(p.id, freshId)
    ensures r.email == Val(FieldOrNull(p.email)) && r.firstName == Val(FieldOrNull(p.firstName))
    ensures r.lastName == Val(FieldOrNull(p.lastName))
    ensures r.profileImageUrl == Val(FieldOrNull(p.profileImageUrl))
    ensures r.createdAt == r.updatedAt == now
  {
    User(StringOr(p.id, freshId), Val(FieldOrNull(p.email)), Val(FieldOrNull(p.firstName)),
         Val(FieldOrNull(p.lastName)), Val(FieldOrNull(p.profileImageUrl)), now, now)
  }

  // ---------------------------------------------------------------------------
  // Map iteration order and first-match lookup

  /** The values of `m` in the order `order` lists their keys. */
  function Values<V>(order: seq<string>, m: map<string, V>): (vs: seq<V>)
    ensures |vs| <= |order|
  {
    if order == [] then []
    else ValueAt(m, order[0]) + Values(order[1..], m)
  }

  /** The value stored under `k`, as a sequence of at most one element. */
  function ValueAt<V>(m: map<string, V>, k: string): seq<V> {
    if k in m then [m[k]] else []
  }

  /** `order` lists every key of a map exactly once. */
  ghost predicate OrderOf(order: seq<string>, keys: set<string>) {
    (forall i, j | 0 <= i < j < |order| :: order[i] != order[j]) &&
    (forall k :: k in keys <==> k in order)
  }

  /** `Array.from(values).find(s => s.sessionToken === token)`. */
  function FirstWithToken(xs: seq<CvSession>, token: string): (r: Option<CvSession>)
    ensures r.None? <==> forall i | 0 <= i < |xs| :: xs[i].sessionToken != token
    ensures r.Some? ==> r.value.sessionToken == token && r.value in xs
  {
    if xs == [] then None
    else if xs[0].sessionToken == token then Some(xs[0])
    else
      FirstWithToken(xs[1..], token)
  }

  /** The match found is the first one: every earlier element differs. */
  lemma {:induction false} FirstWithTokenIsFirstMatch(xs: seq<CvSession>, token: string)
    ensures FirstWithToken(xs, token).Some? ==> exists i | 0 <= i < |xs| ::
      xs[i] == FirstWithToken(xs, token).value && forall j | 0 <= j < i :: xs[j].sessionToken != token
  {
    if xs != [] && xs[0].sessionToken != token {
      FirstWithTokenIsFirstMatch(xs[1..], token);
      if FirstWithToken(xs[1..], token).Some? {
        var i :| 0 <= i < |xs[1..]| && xs[1..][i] == FirstWithToken(xs[1..], token).value &&
          forall j | 0 <= j < i :: xs[1..][j].sessionToken != token;
        assert xs[i + 1] == FirstWithToken(xs, token).value && forall j | 0 <= j < i + 1 :: xs[j].sessionToken != token;
      }
    } else if xs != [] {
      assert xs[0] == FirstWithToken(xs, token).value;
    }
  }

  /** `Array.from(values).find(p => p.stripePaymentIntentId === intentId)`. */
  function FirstWithIntent(xs: seq<Payment>, intentId: string): (r: Option<Payment>)
    ensures r.None? <==> forall i | 0 <= i < |xs| :: xs[i].stripePaymentIntentId != intentId
    ensures r.Some? ==> r.value.stripePaymentIntentId == intentId && r.value in xs
  {
    if xs == [] then None
    else if xs[0].stripePaymentIntentId == intentId then Some(xs[0])
    else
      FirstWithIntent(xs[1..], intentId)
  }

  /** The match found is the first one: every earlier element differs. */
  lemma {:induction false} FirstWithIntentIsFirstMatch(xs: seq<Payment>, intentId: string)
    ensures FirstWithIntent(xs, intentId).Some? ==> exists i | 0 <= i < |xs| ::
      xs[i] == FirstWithIntent(xs, intentId).value && forall j | 0 <= j < i :: xs[j].stripePaymentIntentId != intentId
  {
    if xs != [] && xs[0].stripePaymentIntentId != intentId {
      FirstWithIntentIsFirstMatch(xs[1..], intentId);
      if FirstWithIntent(xs[1..], intentId).Some? {
        var i :| 0 <= i < |xs[1..]| && xs[1..][i] == FirstWithIntent(xs[1..], intentId).value &&
          forall j | 0 <= j < i :: xs[1..][j].stripePaymentIntentId != intentId;
        assert xs[i + 1] == FirstWithIntent(xs, intentId).value && forall j | 0 <= j < i + 1 :: xs[j].stripePaymentIntentId != intentId;
      }
    } else if xs != [] {
      assert xs[0] == FirstWithIntent(xs, intentId).value;
    }
  }

  class MemStorage {
    var users: map<string, User>
    var sessions: map<string, CvSession>
    var sessionOrder: seq<string>
    var payments: map<string, Payment>
    var paymentOrder: seq<string>

    /** The iteration orders list each key once, every record is stored under its
        own id, and no user is stored under the empty id. */
    ghost predicate Valid()
      reads this
    {
      OrderOf(sessionOrder, sessions.Keys) && OrderOf(paymentOrder, payments.Keys) &&
      (forall k | k in sessions :: sessions[k].id == k) &&
      (forall k | k in payments :: payments[k].id == k) &&
      (forall k | k in users :: users[k].id == k) &&
      "" !in users
    }

    /** The sessions in `Map` iteration order. */
    function SessionList(): seq<CvSession>
      reads this
    {
      Values(sessionOrder, sessions)
    }

    function PaymentList(): seq<Payment>
      reads this
    {
      Values(paymentOrder, payments)
    }

    constructor ()
      ensures Valid()
      ensures users == map[] && sessions == map[] && payments == map[]
      ensures sessionOrder == [] && paymentOrder == []
    {
      users := map[];
      sessions := map[];
      sessionOrder := [];
      payments := map[];
      paymentOrder := [];
    }

    /** `getUser`. */
    method GetUser(id: string) returns (r: Option<User>)
      ensures r.Some? <==> id in users
      ensures r.Some? ==> r.value == users[id]
    {
      r := if id in users then Some(users[id]) else None;
    }

    /** `upsertUser`: an existing id merges the payload into the stored user;
        otherwise a user is created under the payload's id, or under `freshId`
        when the payload's id is missing or empty. */
    method UpsertUser(p: UserPatch, freshId: string, now: int) returns (u: User)
      requires Valid() && freshId != ""
      modifies this`users
      ensures Valid()
      ensures p.id.Val? && p.id.value in old(users) ==>
        u == MergeUser(old(users)[p.id.value], p, now) && users == old(users)[p.id.value := u]
      ensures !(p.id.Val? && p.id.value in old(users)) ==>
        u == NewUser(p, freshId, now) && users == old(users)[u.id := u]
      ensures old(users).Keys <= users.Keys
    {
      if p.id.Val? && p.id.value in users {
        u := MergeUser(users[p.id.value], p, now);
        users := users[p.id.value := u];
      } else {
        u := NewUser(p, freshId, now);
        users := users[u.id := u];
      }
    }

    /** `createCvSession`: stores the new session under `id` and touches no other
        entry; a new id goes to the end of the iteration order. */
    method CreateCvSession(ins: InsertCvSession, id: string, now: int) returns (s: CvSession)
      requires Valid()
      modifies this`sessions, this`sessionOrder
      ensures Valid()
      ensures s == NewSession(ins, id, now) && sessions == old(sessions)[id := s]
      ensures sessionOrder == if id in old(sessions) then old(sessionOrder) else old(sessionOrder) + [id]
      ensures old(sessions).Keys <= sessions.Keys && |old(sessionOrder)| <= |sessionOrder|
    {
      s := NewSession(ins, id, now);
      if id !in sessions {
        sessionOrder := sessionOrder + [id];
      }
      sessions := sessions[id := s];
    }

    /** `getCvSessionByToken`: the first session in insertion order whose token is
        exactly `token`. */
    method GetCvSessionByToken(token: string) returns (r: Option<CvSession>)
      requires Valid()
      ensures r == FirstWithToken(SessionList(), token)
    {
      var i := 0;
      while i < |sessionOrder|
        invariant 0 <= i <= |sessionOrder|
        invariant FirstWithToken(SessionList(), token) == FirstWithToken(Values(sessionOrder[i..], sessions), token)
      {
        var s := sessions[sessionOrder[i]];
        assert sessionOrder[i..][1..] == sessionOrder[i + 1..];
        assert ValueAt(sessions, sessionOrder[i]) == [s];
        if s.sessionToken == token {
          return Some(s);
        }
        i := i + 1;
      }
      return None;
    }

    /** `updateCvSession`: fails with "Session not found" on an unknown id and
        leaves the store as it was; otherwise replaces the session by the merge. */
    method UpdateCvSession(id: string, p: SessionPatch, now: int) returns (r: Result<CvSession, string>)
      requires Valid()
      modifies this`sessions
      ensures Valid()
      ensures id !in old(sessions) ==> r == Err("Session not found") && sessions == old(sessions)
      ensures id in old(sessions) ==>
        r == Ok(ApplySessionPatch(old(sessions)[id], p, now)) && sessions == old(sessions)[id := r.value]
      ensures sessions.Keys == old(sessions).Keys
    {
      if id !in sessions {
        return Err("Session not found");
      }
      var updated := ApplySessionPatch(sessions[id], p, now);
      sessions := sessions[id := updated];
      r := Ok(updated);
    }

    /** `markSessionAsPaid`: the update `{ isPaid: true, paymentIntentId }`. */
    method MarkSessionAsPaid(id: string, paymentIntentId: string, now: int) returns (r: Result<CvSession, string>)
      requires Valid()
      modifies this`sessions
      ensures Valid()
      ensures id !in old(sessions) ==> r == Err("Session not found") && sessions == old(sessions)
      ensures id in old(sessions) ==>
        r == Ok(ApplySessionPatch(old(sessions)[id], PaidPatch(paymentIntentId), now)) &&
        sessions == old(sessions)[id := r.value]
      ensures r.Ok? ==> r.value.isPaid == Val(true) && r.value.paymentIntentId == Val(Some(paymentIntentId))
      ensures r.Ok? ==>
        r.value.cvData == old(sessions)[id].cvData &&
        r.value.currentStep == old(sessions)[id].currentStep &&
        r.value.currentSubStep == old(sessions)[id].currentSubStep
      ensures sessions.Keys == old(sessions).Keys
    {
      r := UpdateCvSession(id, PaidPatch(paymentIntentId), now);
    }

    /** `createPayment`. */
    method CreatePayment(ins: InsertPayment, id: string, now: int) returns (p: Payment)
      requires Valid()
      modifies this`payments, this`paymentOrder
      ensures Valid()
      ensures p == NewPayment(ins, id, now) && payments == old(payments)[id := p]
      ensures paymentOrder == if id in old(payments) then old(paymentOrder) else old(paymentOrder) + [id]
      ensures old(payments).Keys <= payments.Keys && |old(paymentOrder)| <= |paymentOrder|
    {
      p := NewPayment(ins, id, now);
      if id !in payments {
        paymentOrder := paymentOrder + [id];
      }
      payments := payments[id := p];
    }

    /** `getPaymentByIntentId`: the first payment in insertion order with that
        intent id. */
    method GetPaymentByIntentId(intentId: string) returns (r: Option<Payment>)
      requires Valid()
      ensures r == FirstWithIntent(PaymentList(), intentId)
    {
      var i := 0;
      while i < |paymentOrder|
        invariant 0 <= i <= |paymentOrder|
        invariant FirstWithIntent(PaymentList(), intentId) == FirstWithIntent(Values(paymentOrder[i..], payments), intentId)
      {
        var p := payments[paymentOrder[i]];
        assert paymentOrder[i..][1..] == paymentOrder[i + 1..];
        assert ValueAt(payments, paymentOrder[i]) == [p];
        if p.stripePaymentIntentId == intentId {
          return Some(p);
        }
        i := i + 1;
      }
      return None;
    }
  }

  // ---------------------------------------------------------------------------
  // Properties

  /** Storing a value under a key the order does not list leaves the listed values alone. */
  lemma {:induction false} ValuesIgnoreUnlisted<V>(order: seq<string>, m: map<string, V>, k: string, v: V)
    requires k !in order
    ensures Values(order, m[k := v]) == Values(order, m)
  {
    if order != [] {
      ValuesIgnoreUnlisted(order[1..], m, k, v);
    }
  }

  lemma {:induction false} ValuesAppend<V>(order: seq<string>, m: map<string, V>, k: string)
    ensures Values(order + [k], m) == Values(order, m) + ValueAt(m, k)
  {
    if order == [] {
      assert [k][1..] == [];
    } else {
      var head := ValueAt(m, order[0]);
      assert (order + [k])[1..] == order[1..] + [k];
      ValuesAppend(order[1..], m, k);
      calc {
        Values(order + [k], m);
        head + Values(order[1..] + [k], m);
        head + (Values(order[1..], m) + ValueAt(m, k));
        (head + Values(order[1..], m)) + ValueAt(m, k);
      }
    }
  }

  /** A session created under a new id goes to the end of the iteration order. */
  lemma CreatedSessionIsLast(order: seq<string>, m: map<string, CvSession>, id: string, s: CvSession)
    requires OrderOf(order, m.Keys) && id !in m
    ensures Values(order + [id], m[id := s]) == Values(order, m) + [s]
  {
    ValuesAppend(order, m[id := s], id);
    ValuesIgnoreUnlisted(order, m, id, s);
  }

  lemma {:induction false} FirstWithTokenAppend(xs: seq<CvSession>, s: CvSession, token: string)
    ensures FirstWithToken(xs + [s], token) ==
      if FirstWithToken(xs, token).Some? then FirstWithToken(xs, token)
      else if s.sessionToken == token then Some(s) else None
  {
    if xs == [] {
      assert [s][1..] == [];
    } else {
      assert (xs + [s])[1..] == xs[1..] + [s];
      FirstWithTokenAppend(xs[1..], s, token);
    }
  }

  /** Looking up a token after creating a session: a token no earlier session
      carries finds the new session; a token an earlier session carries still finds
      that earlier session. */
  lemma LookupAfterCreate(order: seq<string>, m: map<string, CvSession>, id: string, s: CvSession, token: string)
    requires OrderOf(order, m.Keys) && id !in m
    ensures FirstWithToken(Values(order, m), token).None? && s.sessionToken == token ==>
      FirstWithToken(Values(order + [id], m[id := s]), token) == Some(s)
    ensures FirstWithToken(Values(order, m), token).Some? ==>
      FirstWithToken(Values(order + [id], m[id := s]), token) == FirstWithToken(Values(order, m), token)
  {
    CreatedSessionIsLast(order, m, id, s);
    FirstWithTokenAppend(Values(order, m), s, token);
  }

  /** Marking a session paid twice is marking it paid once: `isPaid` stays true and
      only the timestamp moves. */
  lemma MarkPaidIdempotent(s: CvSession, intentId: string, t1: int, t2: int)
    ensures ApplySessionPatch(ApplySessionPatch(s, PaidPatch(intentId), t1), PaidPatch(intentId), t2) ==
      ApplySessionPatch(s, PaidPatch(intentId), t2)
    ensures ApplySessionPatch(ApplySessionPatch(s, PaidPatch(intentId), t1), PaidPatch(intentId), t2).isPaid == Val(true)
  {
  }

  /** The shallow merge overwrites with `undefined`: a patch key present with an
      undefined value blanks the stored field. */
  lemma UndefinedOverwrites(s: CvSession, p: SessionPatch, now: int)
    requires p.cvData == Present(Undefined) && p.currentStep == Present(Undefined)
    ensures ApplySessionPatch(s, p, now).cvData == Undefined
    ensures ApplySessionPatch(s, p, now).currentStep == Undefined
  {
  }

  /** A new session's defaulted fields: both steps `"personal-info"` when not
      given, unpaid unless `isPaid` is `true`, and a null intent id when none. */
  lemma NewSessionDefaults(token: string, cvData: Json, id: string, now: int)
    ensures NewSession(InsertCvSession(token, cvData, Undefined, Val(""), Undefined, Undefined), id, now) ==
      CvSession(id, token, Val(cvData), Val("personal-info"), Val("personal-info"), Val(false), Val(None), now, now)
  {
  }

  /** Every value listed by `Values` is stored under one of the listed keys. */
  lemma {:induction false} ValuesStored<V>(order: seq<string>, m: map<string, V>, x: V)
    requires x in Values(order, m)
    ensures exists k | k in order :: k in m && m[k] == x
  {
    if order != [] {
      assert x in ValueAt(m, order[0]) || x in Values(order[1..], m);
      if x in ValueAt(m, order[0]) {
        assert order[0] in order;
      } else {
        ValuesStored(order[1..], m, x);
        var k :| k in order[1..] && k in m && m[k] == x;
        assert k in order;
      }
    }
  }

  /** The session a token lookup finds is the one stored under its own id. */
  lemma FoundSessionIsStored(store: MemStorage, token: string)
    requires store.Valid()
    ensures FirstWithToken(store.SessionList(), token).Some? ==>
      FirstWithToken(store.SessionList(), token).value.id in store.sessions &&
      store.sessions[FirstWithToken(store.SessionList(), token).value.id] == FirstWithToken(store.SessionList(), token).value
  {
    var r := FirstWithToken(store.SessionList(), token);
    if r.Some? {
      ValuesStored(store.sessionOrder, store.sessions, r.value);
    }
  }
}
