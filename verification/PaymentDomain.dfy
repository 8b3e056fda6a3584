/** The payment record, the requests and webhook payloads, and the pure functions the executors apply to them. */
module PaymentDomain {
  import opened Wrappers

  const PENDING := "pending"
  const COMPLETED := "completed"
  const FAILED := "failed"

  const MPESA := "MPESA"
  const AIRTEL := "AIRTEL"

  /** The statuses that are announced to RabbitMQ by a status check. */
  predicate IsTerminal(status: string) {
    status == COMPLETED || status == FAILED
  }

  predicate IsThreeWord(status: string) {
    status == PENDING || IsTerminal(status)
  }

  /** One row of the payments table. Timestamps are left out. */
  datatype Row = Row(
    reference: string,
    transactionId: Option<string>,
    partnerId: string,
    channel: string,
    customerId: string,
    phoneNumber: string,
    gateway: string,
    amount: real,
    currency: string,
    status: string,
    processed: bool)

  /** Everything in a row that no protocol step is meant to change once the row exists. */
  predicate SameIdentity(a: Row, b: Row) {
    a.(transactionId := b.transactionId, status := b.status, processed := b.processed) == b
  }

  datatype Request = Request(
    amount: real,
    currency: string,
    customerId: string,
    reference: string,
    phoneNumber: string,
    partnerId: string,
    channel: string)

  /** A field of an untyped JSON payload, as far as `||` and `===` can tell such fields apart. */
  datatype JsValue = Undefined | Text(text: string) | Number(value: int)
  {
    predicate Truthy() {
      match this
      case Undefined => false
      case Text(t) => t != ""
      case Number(n) => n != 0
    }

    /** JavaScript's `a || b`. */
    function Or(other: JsValue): JsValue {
      if Truthy() then this else other
    }
  }

  /** The fields of a webhook body that some code reads, under each of the spellings it tries. */
  datatype WebhookPayload = WebhookPayload(
    idSnake: Option<string>,
    idCamel: Option<string>,
    idPascal: Option<string>,
    statusLower: JsValue,
    statusPascal: JsValue,
    resultCode: JsValue,
    partnerId: Option<string>,
    merchantRequestId: JsValue,
    checkoutRequestId: JsValue,
    airtelTransactionId: JsValue,
    airtelMoneyId: JsValue)

  function FirstNonEmpty(a: Option<string>, b: Option<string>): Option<string> {
    if a.Some? && a.value != "" then a else b
  }

  function ExtractTransactionId(p: WebhookPayload): Option<string> {
    FirstNonEmpty(FirstNonEmpty(p.idSnake, p.idCamel), p.idPascal)
  }

  function RawStatus(p: WebhookPayload): JsValue {
    p.statusLower.Or(p.statusPascal).Or(p.resultCode)
  }

  function Normalise(raw: JsValue): (status: string)
    ensures IsThreeWord(status)
  {
    if raw == Text("0") || raw == Text("completed") || raw == Text("SUCCESS") then COMPLETED
    else if raw == Text("failed") || raw == Text("FAILED") then FAILED
    else PENDING
  }

  function ExtractStatusFromCallback(p: WebhookPayload): (status: string)
    ensures IsThreeWord(status)
  {
    Normalise(RawStatus(p))
  }

  /** Normalising a stored word again gives the same word. */
  lemma NormaliseIdempotent(raw: JsValue)
    ensures Normalise(Text(Normalise(raw))) == Normalise(raw)
  {
    assert "pending" != "0" && "pending" != "SUCCESS" && "pending" != "FAILED";
    assert "failed" != "0" && "failed" != "SUCCESS" && "failed" != "completed";
  }

  // ---------- What a webhook body says, field by field ----------

  /** The field holds something: it is neither missing, nor the empty string, nor the number 0. */
  predicate Given(v: JsValue) {
    v != Undefined && v != Text("") && v != Number(0)
  }

  /** `v` is the first of the fields that holds something. */
  predicate FirstGiven(fields: seq<JsValue>, v: JsValue) {
    Given(v) && exists k :: 0 <= k < |fields| && fields[k] == v && forall j :: 0 <= j < k ==> !Given(fields[j])
  }

  /** The first of `status`, `Status` and `ResultCode` that holds something is this. */
  predicate SaysStatus(p: WebhookPayload, v: JsValue) {
    FirstGiven([p.statusLower, p.statusPascal, p.resultCode], v)
  }

  predicate SaysCompleted(p: WebhookPayload) {
    SaysStatus(p, Text("0")) || SaysStatus(p, Text("completed")) || SaysStatus(p, Text("SUCCESS"))
  }

  predicate SaysFailed(p: WebhookPayload) {
    SaysStatus(p, Text("failed")) || SaysStatus(p, Text("FAILED"))
  }

  /** The status that the body reports. */
  predicate ReportsStatus(p: WebhookPayload, status: string) {
    status == if SaysCompleted(p) then "completed" else if SaysFailed(p) then "failed" else "pending"
  }

  /** The first of `transaction_id`, `transactionId` and `TransactionID` that is there and not empty; if there is none,
      the last of them, which is then empty. */
  predicate GivesId(p: WebhookPayload, id: string) {
    var fields := [p.idSnake, p.idCamel, p.idPascal];
    || (exists k :: 0 <= k < 3 && fields[k] == Some(id) && id != "" &&
                    forall j :: 0 <= j < k ==> fields[j] == None || fields[j] == Some(""))
    || (id == "" && p.idPascal == Some("") && forall j :: 0 <= j < 3 ==> fields[j] == None || fields[j] == Some(""))
  }

  lemma FirstOfThree(a: JsValue, b: JsValue, c: JsValue, v: JsValue)
    ensures FirstGiven([a, b, c], v) <==>
            Given(v) && (a == v || (!Given(a) && b == v) || (!Given(a) && !Given(b) && c == v))
  {
    var fields := [a, b, c];
    assert fields[0] == a && fields[1] == b && fields[2] == c;
  }

  lemma RawIsFirstGiven(p: WebhookPayload, v: JsValue)
    requires Given(v)
    ensures SaysStatus(p, v) <==> RawStatus(p) == v
  {
    FirstOfThree(p.statusLower, p.statusPascal, p.resultCode, v);
  }

  /** The status of a callback comes from the first field that holds something, and from nothing else. */
  lemma StatusComesFromFields(p: WebhookPayload, status: string)
    ensures ReportsStatus(p, status) <==> ExtractStatusFromCallback(p) == status
  {
    RawIsFirstGiven(p, Text("0"));
    RawIsFirstGiven(p, Text("completed"));
    RawIsFirstGiven(p, Text("SUCCESS"));
    RawIsFirstGiven(p, Text("failed"));
    RawIsFirstGiven(p, Text("FAILED"));
    hide RawStatus, SaysStatus;
  }

  /** The transaction id of a callback comes from the first id field that holds something, unchanged. */
  lemma IdComesFromFields(p: WebhookPayload, id: string)
    ensures GivesId(p, id) <==> ExtractTransactionId(p) == Some(id)
  {
    var fields := [p.idSnake, p.idCamel, p.idPascal];
    assert fields[0] == p.idSnake && fields[1] == p.idCamel && fields[2] == p.idPascal;
  }

  /** A callback is final exactly for five strings in the first field that holds something. A numeric M-Pesa result
      code, 0 included, and the upper-case word of the README's example never finish a payment. */
  lemma FinalWords(p: WebhookPayload)
    ensures ExtractStatusFromCallback(p) == COMPLETED <==> SaysCompleted(p)
    ensures ExtractStatusFromCallback(p) == FAILED <==> SaysFailed(p)
    ensures SaysStatus(p, Text("COMPLETED")) ==> ExtractStatusFromCallback(p) == PENDING
    ensures forall n :: SaysStatus(p, Number(n)) ==> ExtractStatusFromCallback(p) == PENDING
  {
    StatusComesFromFields(p, ExtractStatusFromCallback(p));
    forall v, w | SaysStatus(p, v) && SaysStatus(p, w)
      ensures v == w
    {
      FirstOfThree(p.statusLower, p.statusPascal, p.resultCode, v);
      FirstOfThree(p.statusLower, p.statusPascal, p.resultCode, w);
    }
    hide ExtractStatusFromCallback, SaysStatus;
    assert "COMPLETED"[0] != "completed"[0];
    NotBoth(p);
  }

  /** A body does not report both outcomes. */
  lemma NotBoth(p: WebhookPayload)
    ensures !(SaysCompleted(p) && SaysFailed(p))
  {
    RawIsFirstGiven(p, Text("0"));
    RawIsFirstGiven(p, Text("completed"));
    RawIsFirstGiven(p, Text("SUCCESS"));
    RawIsFirstGiven(p, Text("failed"));
    RawIsFirstGiven(p, Text("FAILED"));
    hide RawStatus, SaysStatus;
  }

  // ---------- Lock keys ----------

  function BuildCallbackLockKey(partner: string, transactionId: string): string {
    "callback:" + partner + ":" + transactionId
  }

  /** What stands behind the last separator is what is free of it. */
  lemma SplitAtLast(sep: char, a: string, x: string, b: string, y: string)
    requires sep !in x && sep !in y
    requires a + [sep] + x == b + [sep] + y
    ensures a == b && x == y
  {
    var l, r := a + [sep] + x, b + [sep] + y;
    assert l[|a|] == sep && r[|b|] == sep;
    assert forall i :: |a| < i < |l| ==> l[i] == x[i - |a| - 1] != sep;
    assert forall i :: |b| < i < |r| ==> r[i] == y[i - |b| - 1] != sep;
    assert a == l[..|a|] && b == r[..|b|];
    assert x == l[|a| + 1..] && y == r[|b| + 1..];
  }

  /** For one transaction any two partner names have two keys, colons or not. */
  lemma PartnersSeparateKeys(p: string, q: string, t: string)
    ensures BuildCallbackLockKey(p, t) == BuildCallbackLockKey(q, t) <==> p == q
  {
    var n := |"callback:"|;
    var k, m := BuildCallbackLockKey(p, t), BuildCallbackLockKey(q, t);
    assert p == k[n..n + |p|] && q == m[n..n + |q|];
  }

  /** No two transactions of these partners share a lock key, unless they are the same. */
  ghost predicate KeysApart(p: string, q: string) {
    forall t, u :: BuildCallbackLockKey(p, t) == BuildCallbackLockKey(q, u) ==> p == q && t == u
  }

  /** One name is the beginning of the other, up to a colon: two transactions that share a key. */
  lemma PrefixCollides(p: string, q: string) returns (t: string, u: string)
    requires p + ":" <= q
    ensures p != q && BuildCallbackLockKey(p, t) == BuildCallbackLockKey(q, u)
  {
    u := "";
    t := q[|p| + 1..] + ":" + u;
    assert q == p + ":" + q[|p| + 1..];
    assert "callback:" + p + ":" + t == "callback:" + q + ":" + u;
  }

  lemma OverlapIsPrefix(p: string, t: string, q: string, u: string)
    requires BuildCallbackLockKey(p, t) == BuildCallbackLockKey(q, u) && |p| <= |q|
    ensures p + ":" <= q || (p == q && t == u)
  {
    var n := |"callback:"|;
    var k, m := BuildCallbackLockKey(p, t), BuildCallbackLockKey(q, u);
    assert k[n..] == p + ":" + t && m[n..] == q + ":" + u;
    var body := k[n..];
    assert body[..|p|] == p && body[|p|] == ':' && body[..|q|] == q;
    if |p| < |q| {
      assert body[..|p| + 1] == p + ":";
      assert q[..|p| + 1] == body[..|p| + 1];
    } else {
      assert t == body[|p| + 1..] && u == body[|q| + 1..];
    }
  }

  /** The lock keys of two partner names stay apart for all transactions exactly when neither name is the other's
      beginning up to a colon. */
  lemma KeysApartIff(p: string, q: string)
    ensures KeysApart(p, q) <==> !(p + ":" <= q) && !(q + ":" <= p)
  {
    hide BuildCallbackLockKey;
    if p + ":" <= q {
      var t, u := PrefixCollides(p, q);
    } else if q + ":" <= p {
      var u, t := PrefixCollides(q, p);
      assert BuildCallbackLockKey(p, t) == BuildCallbackLockKey(q, u);
    } else {
      forall t, u | BuildCallbackLockKey(p, t) == BuildCallbackLockKey(q, u)
        ensures p == q && t == u
      {
        if |p| <= |q| {
          OverlapIsPrefix(p, t, q, u);
        } else {
          OverlapIsPrefix(q, u, p, t);
        }
      }
    }
  }

  /** Distinct (colon-free partner, transaction) pairs never share a lock key. */
  lemma LockKeysSeparate(p: string, t: string, q: string, u: string)
    requires ':' !in p && ':' !in q
    ensures BuildCallbackLockKey(p, t) == BuildCallbackLockKey(q, u) <==> p == q && t == u
  {
    KeysApartIff(p, q);
    PrefixHasColon(p, q);
    PrefixHasColon(q, p);
    hide BuildCallbackLockKey;
  }

  lemma PrefixHasColon(p: string, q: string)
    ensures p + ":" <= q ==> ':' in q
  {
    if p + ":" <= q {
      assert q[|p|] == (p + ":")[|p|] == ':';
    }
  }

  // ---------- Letter case ----------

  function UpperChar(c: char): char {
    if 'a' <= c <= 'z' then (c as int - 32) as char else c
  }

  /** `toUpperCase`, on the ASCII letters. */
  function Upper(s: string): (r: string)
    ensures |r| == |s|
    ensures forall i :: 0 <= i < |s| ==> r[i] == UpperChar(s[i])
  {
    seq(|s|, i requires 0 <= i < |s| => UpperChar(s[i]))
  }

  /** The same letter, in either case, or the same character. */
  predicate SameLetter(a: char, b: char) {
    || a == b
    || ('a' <= a <= 'z' && a as int == b as int + 32)
    || ('a' <= b <= 'z' && b as int == a as int + 32)
  }

  /** The same name up to the case of ASCII letters. */
  predicate SameLetters(s: string, t: string) {
    |s| == |t| && forall i :: 0 <= i < |s| ==> SameLetter(s[i], t[i])
  }

  predicate NoLowerCase(s: string) {
    forall i :: 0 <= i < |s| ==> !('a' <= s[i] <= 'z')
  }

  lemma UpperCharsAgree(a: char, b: char)
    ensures UpperChar(a) == UpperChar(b) <==> SameLetter(a, b)
  {
  }

  /** Upper-casing identifies exactly the names that differ in case alone. */
  lemma UpperIffSameLetters(s: string, t: string)
    ensures Upper(s) == Upper(t) <==> SameLetters(s, t)
  {
    hide UpperChar, SameLetter;
    forall i | 0 <= i < |s| && i < |t|
      ensures UpperChar(s[i]) == UpperChar(t[i]) <==> SameLetter(s[i], t[i])
    {
      UpperCharsAgree(s[i], t[i]);
    }
    if Upper(s) == Upper(t) {
      assert forall i :: 0 <= i < |s| ==> Upper(s)[i] == UpperChar(s[i]) && Upper(t)[i] == UpperChar(t[i]);
    }
  }

  /** The upper-cased name is that name without a lower-case letter. */
  lemma UpperIsCapital(s: string)
    ensures SameLetters(Upper(s), s) && NoLowerCase(Upper(s))
  {
  }

  lemma CapitalNamesAreFixed(s: string, t: string)
    requires NoLowerCase(s) && NoLowerCase(t) && SameLetters(s, t)
    ensures s == t
  {
  }

  lemma SameLettersSame(s: string, t: string, c: char)
    requires SameLetters(s, t) && !('a' <= c <= 'z') && !('A' <= c <= 'Z')
    ensures c in s <==> c in t
  {
    if c in s {
      var i :| 0 <= i < |s| && s[i] == c;
      assert t[i] == c;
    }
    if c in t {
      var i :| 0 <= i < |t| && t[i] == c;
      assert s[i] == c;
    }
  }

  // ---------- Routing keys ----------

  function RoutingKey(status: string, partner: string): string {
    if status == COMPLETED then "payment.completed." + partner
    else if status == FAILED then "payment.failed." + partner
    else "payment.pending." + partner
  }

  /** For the three words, the routing key spells out the status. */
  lemma RoutingKeySpellsStatus(status: string, partner: string)
    requires IsThreeWord(status)
    ensures RoutingKey(status, partner) == "payment." + status + "." + partner
  {
    assert "payment." + COMPLETED + "." == "payment.completed.";
    assert "payment." + FAILED + "." == "payment.failed.";
    assert "payment." + PENDING + "." == "payment.pending.";
  }

  /** A routing key gives back the written status and the partner. */
  lemma RoutingKeyDecodes(s: string, p: string, t: string, q: string)
    requires IsThreeWord(s) && IsThreeWord(t)
    ensures RoutingKey(s, p) == RoutingKey(t, q) <==> s == t && p == q
  {
    var a, b := RoutingKey(s, p), RoutingKey(t, q);
    assert a[8] == s[0] && b[8] == t[0];
    if a == b {
      assert s == t;
      var n := |a| - |p|;
      assert p == a[n..] && q == b[n..];
    }
  }
}
