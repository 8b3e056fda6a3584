/** Operations one after another: redelivered callbacks, repeated status checks, repeated initiations. */
module SequentialRuns {
  import opened Wrappers
  import opened PaymentDomain
  import opened PaymentTable
  import opened World
  import opened Protocol
  import opened Answers
  import opened SoleRuns

  // ---------- Callbacks ----------

  predicate Undisturbed(env: Env) {
    env.CallbackEnv? && env.lock.Ok? && env.read.Ok? && env.config.Ok? && env.update.Ok? && env.release.Ok?
  }

  /** The callback that is first: the row gets the status that the body reports and is processed, the result is published
      once and sent to Aspin once, the lock table is as before, and neither delivery failure reaches the caller. */
  lemma FirstCallbackDelivers(sh: Shared, me: nat, partner: string, payload: WebhookPayload, env: Env, row: Row,
                              id: string, status: string)
    requires Undisturbed(env) && GivesId(payload, id) && ReportsStatus(payload, status)
    requires "callback:" + partner + ":" + id !in sh.locks && FindById(sh.rows, id) == Some(row) && !row.processed
    ensures var f := Finish(sh, me, NewCallback(partner, payload), env);
            && f.shared.rows == UpdateWhere(sh.rows, id, CallbackPatch(status))
            && f.shared.locks == sh.locks
            && f.shared.broker == sh.broker + [AttemptFor(row, status, env.publish.Ok?)]
            && f.shared.notices == sh.notices +
               [Notice(row.transactionId, if status == "completed" then "completed" else "failed", row.amount, row.currency,
                       env.notify.Ok?)]
            && ResultOf(f.handler) == Success(Response(id, status, row.amount, row.currency))
  {
    IdComesFromFields(payload, id);
    StatusComesFromFields(payload, status);
    hide Finish, CallbackStep, FindById, UpdateWhere, RoutingKey, ExtractStatusFromCallback, EventFor,
      ExtractTransactionId;
    var h := NewCallback(partner, payload);
    assert h.Key() == "callback:" + partner + ":" + id && h.Id() == id;
    hide BuildCallbackLockKey;
    var n := LockStep(sh, me, h, env.lock);
    TakeLock(sh, me, h, env, n);
    var n2 := ReadStep(n.shared, me, n.handler, env.read);
    TakeRead(n.shared, me, n.handler, env, n2);
    var n3 := ConfigStep(n2.shared, me, n2.handler, env.config);
    TakeConfig(n2.shared, me, n2.handler, env, n3);
    var n4 := UpdateStep(n3.shared, me, n3.handler, env.update);
    TakeUpdate(n3.shared, me, n3.handler, env, n4);
    DeliverAndRelease(n4.shared, me, n4.handler, env);
    assert sh.locks[h.Key() := Lock(me, sh.now + TTL)] - {h.Key()} == sh.locks;
  }

  lemma DeliverAndRelease(sh: Shared, me: nat, h: Handler, env: Env)
    requires Undisturbed(env) && h.Callback? && h.cpc.AwaitPublish?
    ensures var f := Finish(sh, me, h, env);
            && f.shared.rows == sh.rows
            && f.shared.locks == sh.locks - {h.Key()}
            && f.shared.broker == sh.broker + [AttemptFor(h.cpc.row, h.cpc.status, env.publish.Ok?)]
            && f.shared.notices == sh.notices + [NoticeFor(h.cpc.row, h.cpc.status, env.notify.Ok?)]
            && ResultOf(f.handler) == Success(Response(h.Id(), h.cpc.status, h.cpc.row.amount, h.cpc.row.currency))
  {
    hide Finish, RoutingKey, EventFor, ExtractTransactionId, BuildCallbackLockKey;
    var n := PublishStep(sh, me, h, env.publish);
    TakeCallbackStep(sh, me, h, env, n);
    var n2 := NotifyStep(n.shared, me, n.handler, env.notify);
    TakeCallbackStep(n.shared, me, n.handler, env, n2);
    var n3 := ReleaseStep(n2.shared, me, n2.handler, env.release);
    TakeRelease(n2.shared, me, n2.handler, env, n3);
    NothingLeft(n3.shared, me, n3.handler, env);
  }

  /** A callback for a processed transaction, whatever it reports, whoever it claims to come from and whatever fails,
      changes no row, publishes nothing and notifies nobody. */
  lemma RedeliveryIsIdempotent(sh: Shared, me: nat, partner: string, payload: WebhookPayload, env: Env)
    requires env.CallbackEnv?
    requires var found := FindById(sh.rows, NewCallback(partner, payload).Id()); found.Some? && found.value.processed
    ensures var f := Finish(sh, me, NewCallback(partner, payload), env);
            f.shared.rows == sh.rows && f.shared.broker == sh.broker && f.shared.notices == sh.notices
  {
    hide Finish, CallbackStep, FindById, ExtractTransactionId, BuildCallbackLockKey;
    var h := NewCallback(partner, payload);
    var n := LockStep(sh, me, h, env.lock);
    TakeLock(sh, me, h, env, n);
    if n.handler.cpc.AwaitMissRead? {
      var n2 := MissReadStep(n.shared, me, n.handler, env.missRead);
      TakeMissRead(n.shared, me, n.handler, env, n2);
      NothingLeft(n2.shared, me, n2.handler, env);
    } else if n.handler.cpc.AwaitRead? {
      var n2 := ReadStep(n.shared, me, n.handler, env.read);
      TakeRead(n.shared, me, n.handler, env, n2);
      var n3 := ReleaseStep(n2.shared, me, n2.handler, env.release);
      TakeRelease(n2.shared, me, n2.handler, env, n3);
      NothingLeft(n3.shared, me, n3.handler, env);
    } else {
      NothingLeft(n.shared, me, n.handler, env);
    }
  }

  // ---------- Status checks ----------

  /** One status check: how each of its awaits ends. */
  type Poll = e: Env | e.CheckEnv? witness CheckEnv(Ok, Ok, Ok, Ok, Ok)

  /** The word the hub gave, if the check got that far. */
  function HubWord(poll: Poll): Option<string> {
    if !poll.find.Throws? && poll.query.Answer? then poll.query.word else None
  }

  /** The check changes a row of this status. */
  predicate Writes(status: string, poll: Poll) {
    HubWord(poll).Some? && HubWord(poll).value != status && poll.store.TakesEffect()
  }

  /** The check publishes for a row of this status. */
  predicate Announces(status: string, poll: Poll) {
    HubWord(poll).Some? && HubWord(poll).value != status && !poll.store.Throws? && IsTerminal(HubWord(poll).value)
  }

  /** The check answers its caller. */
  predicate GetsAnswer(status: string, poll: Poll) {
    HubWord(poll).Some? && (HubWord(poll).value == status || !poll.store.Throws?)
  }

  ghost function PollAll(sh: Shared, me: nat, id: string, polls: seq<Poll>): Shared
    decreases |polls|
  {
    if polls == [] then sh
    else PollAll(Finish(sh, me, NewCheck(id), polls[0]).shared, me, id, polls[1..])
  }

  /** The polls that write. */
  function Changes(status: string, polls: seq<Poll>): (writes: seq<Poll>)
    ensures forall k :: 0 <= k < |writes| ==> HubWord(writes[k]).Some?
    decreases |polls|
  {
    if polls == [] then []
    else if Writes(status, polls[0]) then [polls[0]] + Changes(HubWord(polls[0]).value, polls[1..])
    else Changes(status, polls[1..])
  }

  /** The last word among the polls, or the status before them. */
  function LastWord(status: string, polls: seq<Poll>): string {
    if polls == [] then status
    else if HubWord(polls[|polls| - 1]).Some? then HubWord(polls[|polls| - 1]).value
    else LastWord(status, polls[..|polls| - 1])
  }

  function WriteAll(rows: Table, id: string, writes: seq<Poll>): Table {
    if writes == [] then rows
    else WriteAll(UpdateWhere(rows, id, StatusPatch(HubWord(writes[0]).GetOr(""))), id, writes[1..])
  }

  /** The attempts of acknowledged final writes. */
  function Announcements(row: Row, writes: seq<Poll>): seq<Attempt>
    requires forall k :: 0 <= k < |writes| ==> HubWord(writes[k]).Some?
  {
    if writes == [] then []
    else
      var word := HubWord(writes[0]).value;
      (if !writes[0].store.Throws? && IsTerminal(word) then [AttemptFor(row, word, writes[0].publish.Ok?)] else []) +
      Announcements(row, writes[1..])
  }

  lemma OnePoll(sh: Shared, me: nat, id: string, poll: Poll, row: Row)
    requires FindById(sh.rows, id) == Some(row)
    ensures var f := Finish(sh, me, NewCheck(id), poll);
            && f.shared.rows ==
               (if Writes(row.status, poll) then UpdateWhere(sh.rows, id, StatusPatch(HubWord(poll).value)) else sh.rows)
            && f.shared.broker == sh.broker +
               (if Announces(row.status, poll) then [AttemptFor(row, HubWord(poll).value, poll.publish.Ok?)] else [])
            && f.shared.locks == sh.locks
            && (ResultOf(f.handler).Success? <==> GetsAnswer(row.status, poll))
            && (GetsAnswer(row.status, poll) ==>
                  ResultOf(f.handler).value == Response(id, HubWord(poll).value, row.amount, row.currency))
  {
    hide Finish, FindById, UpdateWhere, RoutingKey, EventFor, IsTerminal, StoreStep;
    var n := FindStep(sh, me, NewCheck(id), poll.find);
    TakeCheckStep(sh, me, NewCheck(id), poll, n);
    NothingLeft(n.shared, me, n.handler, poll);
    if !poll.find.Throws? {
      var n2 := QueryStep(n.shared, me, n.handler, poll.query);
      TakeCheckStep(n.shared, me, n.handler, poll, n2);
      NothingLeft(n2.shared, me, n2.handler, poll);
      if n2.handler.spc.AwaitStore? {
        OneStore(sh, me, id, poll, row);
      }
    }
  }

  lemma OneStore(sh: Shared, me: nat, id: string, poll: Poll, row: Row)
    requires HubWord(poll).Some? && HubWord(poll).value != row.status
    ensures var f := Finish(sh, me, Check(id, AwaitStore(row, HubWord(poll).value)), poll);
            && f.shared.rows ==
               (if Writes(row.status, poll) then UpdateWhere(sh.rows, id, StatusPatch(HubWord(poll).value)) else sh.rows)
            && f.shared.broker == sh.broker +
               (if Announces(row.status, poll) then [AttemptFor(row, HubWord(poll).value, poll.publish.Ok?)] else [])
            && f.shared.locks == sh.locks
            && (ResultOf(f.handler).Success? <==> GetsAnswer(row.status, poll))
            && (GetsAnswer(row.status, poll) ==>
                  ResultOf(f.handler).value == Response(id, HubWord(poll).value, row.amount, row.currency))
  {
    hide Finish, FindById, UpdateWhere, RoutingKey, EventFor, IsTerminal;
    var h := Check(id, AwaitStore(row, HubWord(poll).value));
    var n3 := StoreStep(sh, me, h, poll.store);
    TakeCheckStep(sh, me, h, poll, n3);
    NothingLeft(n3.shared, me, n3.handler, poll);
    if !poll.store.Throws? && IsTerminal(HubWord(poll).value) {
      var n4 := CheckStep(n3.shared, me, n3.handler, poll.publish);
      TakeCheckStep(n3.shared, me, n3.handler, poll, n4);
      var n5 := CheckStep(n4.shared, me, n4.handler, poll.notify);
      TakeCheckStep(n4.shared, me, n4.handler, poll, n5);
      NothingLeft(n5.shared, me, n5.handler, poll);
    }
  }

  /** The status that one poll leaves. */
  function StatusAfter(status: string, poll: Poll): string {
    if Writes(status, poll) then HubWord(poll).value else status
  }

  /** The status that the polls leave: the last word written. */
  function StatusLeft(status: string, polls: seq<Poll>): string {
    LastWord(status, Changes(status, polls))
  }

  lemma {:induction false} LastWordSteps(status: string, poll: Poll, polls: seq<Poll>)
    ensures LastWord(status, [poll] + polls) == LastWord(HubWord(poll).GetOr(status), polls)
    decreases |polls|
  {
    hide HubWord;
    var all := [poll] + polls;
    if polls == [] {
      assert all == [poll] && all[..0] == [];
    } else {
      assert all[..|all| - 1] == [poll] + polls[..|polls| - 1];
      LastWordSteps(status, poll, polls[..|polls| - 1]);
    }
  }

  lemma StatusLeftSteps(status: string, poll: Poll, polls: seq<Poll>)
    ensures StatusLeft(status, [poll] + polls) == StatusLeft(StatusAfter(status, poll), polls)
  {
    assert ([poll] + polls)[1..] == polls;
    if Writes(status, poll) {
      LastWordSteps(status, poll, Changes(HubWord(poll).value, polls));
    }
  }

  lemma {:induction false} PolledRows(sh: Shared, me: nat, id: string, polls: seq<Poll>, row: Row)
    requires WellFormed(sh.rows) && FindById(sh.rows, id) == Some(row)
    ensures var t := PollAll(sh, me, id, polls);
            && t.rows == WriteAll(sh.rows, id, Changes(row.status, polls))
            && FindById(t.rows, id) == Some(row.(status := StatusLeft(row.status, polls)))
    decreases |polls|
  {
    hide Finish, FindById, WellFormed, UpdateWhere, AttemptFor, IsTerminal, ResultOf, StatusLeft;
    if polls == [] {
      assert StatusLeft(row.status, []) == row.status by { NothingWritten(row.status); }
    } else {
      var next := Finish(sh, me, NewCheck(id), polls[0]).shared;
      var after := StatusAfter(row.status, polls[0]);
      OnePoll(sh, me, id, polls[0], row);
      UpdateWhereKeeps(sh.rows, id, StatusPatch(after));
      PolledRows(next, me, id, polls[1..], row.(status := after));
      StatusLeftSteps(row.status, polls[0], polls[1..]);
      assert polls == [polls[0]] + polls[1..];
    }
  }

  lemma NothingWritten(status: string)
    ensures StatusLeft(status, []) == status
  {
  }

  lemma OneMoreAnnouncement(row: Row, poll: Poll, polls: seq<Poll>)
    ensures Announcements(row, Changes(row.status, [poll] + polls)) ==
            (if Announces(row.status, poll) then [AttemptFor(row, HubWord(poll).value, poll.publish.Ok?)] else []) +
            Announcements(row.(status := StatusAfter(row.status, poll)), Changes(StatusAfter(row.status, poll), polls))
  {
    hide AttemptFor, IsTerminal, HubWord;
    assert ([poll] + polls)[1..] == polls;
    var after := row.(status := StatusAfter(row.status, poll));
    AnnouncementsIgnoreStatus(row, after, Changes(after.status, polls));
  }

  lemma {:induction false} PolledBroker(sh: Shared, me: nat, id: string, polls: seq<Poll>, row: Row)
    requires WellFormed(sh.rows) && FindById(sh.rows, id) == Some(row)
    ensures PollAll(sh, me, id, polls).broker == sh.broker + Announcements(row, Changes(row.status, polls))
    decreases |polls|
  {
    hide Finish, FindById, WellFormed, UpdateWhere, AttemptFor, IsTerminal, ResultOf, Changes, Announcements;
    if polls == [] {
      assert Announcements(row, Changes(row.status, [])) == [] by { NothingAnnounced(row); }
    } else {
      var next := Finish(sh, me, NewCheck(id), polls[0]).shared;
      var after := StatusAfter(row.status, polls[0]);
      OnePoll(sh, me, id, polls[0], row);
      UpdateWhereKeeps(sh.rows, id, StatusPatch(after));
      PolledBroker(next, me, id, polls[1..], row.(status := after));
      OneMoreAnnouncement(row, polls[0], polls[1..]);
      assert polls == [polls[0]] + polls[1..];
    }
  }

  lemma NothingAnnounced(row: Row)
    ensures Announcements(row, Changes(row.status, [])) == []
  {
  }

  /** A sequence of status checks, with any outcome of any of their awaits, is a fold over the hub's words: the writes
      are the words that differ from the status before them and whose store takes effect, the final status is the last
      of them, and the publishes are the final words among the acknowledged writes, in order. */
  lemma PollingIsAFold(sh: Shared, me: nat, id: string, polls: seq<Poll>, row: Row)
    requires WellFormed(sh.rows) && FindById(sh.rows, id) == Some(row)
    ensures var t := PollAll(sh, me, id, polls);
            && t.rows == WriteAll(sh.rows, id, Changes(row.status, polls))
            && FindById(t.rows, id) == Some(row.(status := StatusLeft(row.status, polls)))
            && t.broker == sh.broker + Announcements(row, Changes(row.status, polls))
  {
    hide PollAll, WriteAll, Announcements, WellFormed;
    PolledRows(sh, me, id, polls, row);
    PolledBroker(sh, me, id, polls, row);
  }

  lemma {:induction false} AnnouncementsIgnoreStatus(row: Row, other: Row, writes: seq<Poll>)
    requires other == row.(status := other.status)
    requires forall k :: 0 <= k < |writes| ==> HubWord(writes[k]).Some?
    ensures Announcements(row, writes) == Announcements(other, writes)
    decreases writes
  {
    hide RoutingKey, IsTerminal;
    if writes != [] {
      AnnouncementsIgnoreStatus(row, other, writes[1..]);
    }
  }

  /** The writes never repeat a status, and the first differs from the stored one. */
  lemma {:induction false} ChangesAlternate(status: string, polls: seq<Poll>)
    ensures var writes := Changes(status, polls);
            && (writes != [] ==> HubWord(writes[0]).value != status)
            && (forall k :: 0 < k < |writes| ==> HubWord(writes[k]).value != HubWord(writes[k - 1]).value)
    decreases polls
  {
    hide HubWord;
    if polls != [] {
      ChangesAlternate(StatusAfter(status, polls[0]), polls[1..]);
    }
  }

  /** If every store takes effect, the final status is the last word of all. */
  lemma {:induction false} LastWordWins(status: string, polls: seq<Poll>)
    requires forall k :: 0 <= k < |polls| && HubWord(polls[k]).Some? ==> polls[k].store.TakesEffect()
    ensures StatusLeft(status, polls) == LastWord(status, polls)
    decreases polls
  {
    hide HubWord, StatusLeft;
    if polls == [] {
      NothingWritten(status);
    } else {
      LastWordWins(StatusAfter(status, polls[0]), polls[1..]);
      StatusLeftSteps(status, polls[0], polls[1..]);
      LastWordSteps(status, polls[0], polls[1..]);
      assert polls == [polls[0]] + polls[1..];
      assert StatusAfter(status, polls[0]) == HubWord(polls[0]).GetOr(status);
    }
  }

  /** Such a sequence is a run: from any state, status checks that start and end one after another reach exactly the
      shared state of the fold. */
  lemma {:induction false} PollingIsARun(s: State, me: nat, id: string, polls: seq<Poll>) returns (labels: seq<Label>)
    requires NoneCrashedAhead(s)
    ensures var t := Run(s, labels);
            t.shared == PollAll(s.shared, me, id, polls) && |t.handlers| == |s.handlers| + |polls|
    decreases |polls|
  {
    hide Finish, Events, Script, IsFresh;
    labels := [];
    if polls != [] {
      var h := NewCheck(id);
      var solo := Solo(s, h, polls[0]);
      FreshCheck(id);
      SoloIsARun(s, h, polls[0]);
      FinishIgnoresName(s.shared, |s.handlers|, me, h, polls[0]);
      var rest := PollingIsARun(Run(s, solo), me, id, polls[1..]);
      RunConcat(s, solo, rest);
      labels := solo + rest;
    }
  }

  lemma FreshCheck(id: string)
    ensures IsFresh(NewCheck(id))
  {
  }

  // ---------- A status check and a callback ----------

  /** A status check leaves the row unprocessed, so the callback after it publishes; and the check published before it
      if and only if the hub gave a final word that differs from the row's status and its store was acknowledged. */
  lemma CheckThenCallbackPublishesTwice(sh: Shared, me: nat, id: string, poll: Poll, partner: string, payload: WebhookPayload,
                                        env: Env, row: Row, status: string)
    requires WellFormed(sh.rows) && FindById(sh.rows, id) == Some(row) && !row.processed && Undisturbed(env)
    requires GivesId(payload, id) && ReportsStatus(payload, status) && "callback:" + partner + ":" + id !in sh.locks
    ensures var checked := Finish(sh, me, NewCheck(id), poll).shared;
            var broker := Finish(checked, me, NewCallback(partner, payload), env).shared.broker;
            && |broker| > |sh.broker| && broker[|broker| - 1] == AttemptFor(row, status, env.publish.Ok?)
            && (|broker| == |sh.broker| + 2 <==> Announces(row.status, poll))
            && (Announces(row.status, poll) ==>
                  broker == sh.broker + [AttemptFor(row, HubWord(poll).value, poll.publish.Ok?),
                                         AttemptFor(row, status, env.publish.Ok?)])
  {
    OnePoll(sh, me, id, poll, row);
    var after := StatusAfter(row.status, poll);
    UpdateWhereKeeps(sh.rows, id, StatusPatch(after));
    var checked := Finish(sh, me, NewCheck(id), poll).shared;
    hide Finish, FindById, WellFormed, UpdateWhere, RoutingKey, GivesId, ReportsStatus, IsTerminal, ResultOf, NoticeFor,
      HubWord, GetsAnswer;
    FirstCallbackDelivers(checked, me, partner, payload, env, row.(status := after), id, status);
  }

  /** A status check after the callback publishes nothing if and only if it would announce nothing for a row of the
      reported status: the hub says the same, or nothing final, or the check does not get its answer stored. */
  lemma CallbackThenCheckPublishesOnce(sh: Shared, me: nat, id: string, poll: Poll, partner: string, payload: WebhookPayload,
                                       env: Env, row: Row, status: string)
    requires WellFormed(sh.rows) && FindById(sh.rows, id) == Some(row) && !row.processed && Undisturbed(env)
    requires GivesId(payload, id) && ReportsStatus(payload, status) && "callback:" + partner + ":" + id !in sh.locks
    ensures var called := Finish(sh, me, NewCallback(partner, payload), env).shared;
            Finish(called, me, NewCheck(id), poll).shared.broker == sh.broker + [AttemptFor(row, status, env.publish.Ok?)]
            <==> !Announces(status, poll)
  {
    FirstCallbackDelivers(sh, me, partner, payload, env, row, id, status);
    var called := Finish(sh, me, NewCallback(partner, payload), env).shared;
    UpdateWhereKeeps(sh.rows, id, CallbackPatch(status));
    hide Finish, FindById, WellFormed, UpdateWhere, RoutingKey, EventFor, GivesId, ReportsStatus,
      IsTerminal, ResultOf, NoticeFor, HubWord;
    OnePoll(called, me, id, poll, row.(status := status, processed := true));
  }

  // ---------- Initiations ----------

  /** One initiation: the request, the channel of its executor, and how each of its awaits ends. */
  datatype Order = Order(request: Request, channel: string, lookup: Outcome, create: Outcome, enqueue: Outcome)

  function OrderEnv(order: Order): Env {
    InitiateEnv(order.lookup, order.create, order.enqueue)
  }

  ghost function PlaceAll(sh: Shared, me: nat, orders: seq<Order>): (Shared, seq<Result<Response, Error>>)
    decreases |orders|
  {
    if orders == [] then (sh, [])
    else
      var h := NewInitiate(orders[0].request, orders[0].channel);
      var f := Finish(Started(sh, h), me, h, OrderEnv(orders[0]));
      var (final, results) := PlaceAll(f.shared, me, orders[1..]);
      (final, [ResultOf(f.handler)] + results)
  }

  /** The order creates a row if it finds none. */
  predicate CanCreate(order: Order) {
    !order.lookup.Throws? && order.create.TakesEffect()
  }

  /** A row of order `k`'s reference is there by the time its turn comes. */
  predicate Taken(known: set<string>, orders: seq<Order>, k: nat)
    requires k < |orders|
  {
    || orders[k].request.reference in known
    || exists j :: 0 <= j < k && orders[j].request.reference == orders[k].request.reference && CanCreate(orders[j])
  }

  /** Order `k` is the one that creates the row of its reference. */
  predicate Creates(known: set<string>, orders: seq<Order>, k: nat)
    requires k < |orders|
  {
    !Taken(known, orders, k) && CanCreate(orders[k])
  }

  predicate CanEnqueue(order: Order) {
    !order.lookup.Throws? && !order.create.Throws? && order.enqueue.TakesEffect()
  }

  /** The references of the orders whose job reaches the queue, given the references known before. */
  function JobsOf(known: set<string>, orders: seq<Order>): seq<string>
    decreases |orders|
  {
    if orders == [] then []
    else
      var reference := orders[0].request.reference;
      (if reference !in known && CanEnqueue(orders[0]) then [reference] else []) +
      JobsOf(if CanCreate(orders[0]) then known + {reference} else known, orders[1..])
  }

  /** Order `k` is the one that enqueues the job of `reference`. */
  predicate Enqueues(known: set<string>, orders: seq<Order>, k: nat, reference: string)
    requires k < |orders|
  {
    !Taken(known, orders, k) && orders[k].request.reference == reference && CanEnqueue(orders[k])
  }

  ghost predicate SomeEnqueues(known: set<string>, orders: seq<Order>, reference: string) {
    exists k: nat :: k < |orders| && Enqueues(known, orders, k, reference)
  }

  /** Either the first order enqueues the job or one of the rest does, not both. */
  lemma SomeEnqueuesSteps(known: set<string>, orders: seq<Order>, reference: string)
    requires orders != []
    ensures var later := SomeEnqueues(KnownAfter(known, orders[0]), orders[1..], reference);
            && (SomeEnqueues(known, orders, reference) <==> Enqueues(known, orders, 0, reference) || later)
            && !(Enqueues(known, orders, 0, reference) && later)
  {
    var rest, next := orders[1..], KnownAfter(known, orders[0]);
    forall k: nat | k < |rest|
      ensures Enqueues(next, rest, k, reference) <==> Enqueues(known, orders, k + 1, reference)
      ensures Enqueues(known, orders, 0, reference) ==> !Enqueues(next, rest, k, reference)
    {
      ShiftTaken(known, orders, k);
    }
    hide Enqueues;
    if k: nat :| k < |orders| && Enqueues(known, orders, k, reference) {
      assert k > 0 ==> Enqueues(next, rest, k - 1, reference);
    }
  }

  /** A reference has one job if the order that created its row had create acknowledged and enqueueing take effect, and
      otherwise none. */
  lemma {:induction false} OneJobPerRow(known: set<string>, orders: seq<Order>, reference: string)
    ensures multiset(JobsOf(known, orders))[reference] == if SomeEnqueues(known, orders, reference) then 1 else 0
    decreases |orders|
  {
    if orders != [] {
      OneJobPerRow(KnownAfter(known, orders[0]), orders[1..], reference);
      SomeEnqueuesSteps(known, orders, reference);
      assert Enqueues(known, orders, 0, reference) <==>
             orders[0].request.reference == reference && reference !in known && CanEnqueue(orders[0]);
      hide SomeEnqueues, CanEnqueue;
    }
  }

  function KnownAfter(known: set<string>, order: Order): set<string> {
    if CanCreate(order) then known + {order.request.reference} else known
  }

  lemma ShiftTaken(known: set<string>, orders: seq<Order>, k: nat)
    requires k + 1 < |orders|
    ensures Taken(KnownAfter(known, orders[0]), orders[1..], k) <==> Taken(known, orders, k + 1)
  {
    hide CanCreate;
    var rest := orders[1..];
    assert forall j :: 0 < j < |orders| ==> orders[j] == rest[j - 1];
    if j :| 0 <= j < k + 1 && orders[j].request.reference == orders[k + 1].request.reference && CanCreate(orders[j]) {
      assert j > 0 ==> rest[j - 1].request.reference == rest[k].request.reference;
    }
  }

  /** What the caller of an order gets. */
  function ExpectedResult(order: Order, taken: bool): Answer {
    AnswerToInitiation(order.request, taken, OrderEnv(order))
  }

  lemma OneOrder(sh: Shared, me: nat, order: Order)
    ensures var h := NewInitiate(order.request, order.channel);
            var f := Finish(Started(sh, h), me, h, OrderEnv(order));
            var reference := order.request.reference;
            && f.shared.rows == (if reference !in sh.rows && CanCreate(order)
                                 then sh.rows[reference := NewRow(order.request, order.channel)] else sh.rows)
            && f.shared.jobs == sh.jobs + (if reference !in sh.rows && CanEnqueue(order) then [reference] else [])
            && ResultOf(f.handler) == ExpectedResult(order, reference in sh.rows)
  {
    hide Finish;
    var env, h := OrderEnv(order), NewInitiate(order.request, order.channel);
    var n := InitiateStep(Started(sh, h), me, h, order.lookup);
    TakeInitiateStep(Started(sh, h), me, h, env, n);
    NothingLeft(n.shared, me, n.handler, env);
    if n.handler.ipc.AwaitCreate? {
      var n2 := InitiateStep(n.shared, me, n.handler, order.create);
      TakeInitiateStep(n.shared, me, n.handler, env, n2);
      NothingLeft(n2.shared, me, n2.handler, env);
      if n2.handler.ipc.AwaitEnqueue? {
        var n3 := InitiateStep(n2.shared, me, n2.handler, order.enqueue);
        TakeInitiateStep(n2.shared, me, n2.handler, env, n3);
        NothingLeft(n3.shared, me, n3.handler, env);
      }
    }
  }

  lemma {:induction false} PlacedRows(sh: Shared, me: nat, orders: seq<Order>)
    ensures var (t, results) := PlaceAll(sh, me, orders);
            && |results| == |orders|
            && (forall r :: r in t.rows <==>
                  r in sh.rows || exists k :: 0 <= k < |orders| && orders[k].request.reference == r && CanCreate(orders[k]))
            && (forall r :: r in sh.rows ==> t.rows[r] == sh.rows[r])
    decreases |orders|
  {
    hide Finish, NewRow, ResultOf, CanCreate, ExpectedResult;
    if orders != [] {
      var h := NewInitiate(orders[0].request, orders[0].channel);
      var next := Finish(Started(sh, h), me, h, OrderEnv(orders[0])).shared;
      OneOrder(sh, me, orders[0]);
      PlacedRows(next, me, orders[1..]);
      var t := PlaceAll(sh, me, orders).0;
      forall r
        ensures r in t.rows <==>
                r in sh.rows || exists k :: 0 <= k < |orders| && orders[k].request.reference == r && CanCreate(orders[k])
      {
        if k :| 0 <= k < |orders| && orders[k].request.reference == r && CanCreate(orders[k]) {
          assert k > 0 ==> orders[1..][k - 1].request.reference == r;
        }
      }
    }
  }

  lemma {:induction false} PlacedJobs(sh: Shared, me: nat, orders: seq<Order>)
    ensures PlaceAll(sh, me, orders).0.jobs == sh.jobs + JobsOf(sh.rows.Keys, orders)
    decreases |orders|
  {
    hide Finish, NewRow, ResultOf, CanCreate, CanEnqueue, ExpectedResult;
    if orders != [] {
      var h := NewInitiate(orders[0].request, orders[0].channel);
      var next := Finish(Started(sh, h), me, h, OrderEnv(orders[0])).shared;
      OneOrder(sh, me, orders[0]);
      assert next.rows.Keys == KnownAfter(sh.rows.Keys, orders[0]);
      PlacedJobs(next, me, orders[1..]);
    }
  }

  lemma {:induction false} PlacedOrder(sh: Shared, me: nat, orders: seq<Order>, k: nat)
    requires k < |orders|
    ensures var (t, results) := PlaceAll(sh, me, orders);
            && |results| == |orders|
            && results[k] == ExpectedResult(orders[k], Taken(sh.rows.Keys, orders, k))
            && (Creates(sh.rows.Keys, orders, k) ==>
                  orders[k].request.reference in t.rows &&
                  t.rows[orders[k].request.reference] == NewRow(orders[k].request, orders[k].channel))
    decreases |orders|
  {
    hide Finish, NewRow, ResultOf, ExpectedResult, CanCreate;
    var rest := orders[1..];
    var h := NewInitiate(orders[0].request, orders[0].channel);
    var next := Finish(Started(sh, h), me, h, OrderEnv(orders[0])).shared;
    OneOrder(sh, me, orders[0]);
    PlacedRows(next, me, rest);
    if k > 0 {
      PlacedOrder(next, me, rest, k - 1);
      ShiftTaken(sh.rows.Keys, orders, k - 1);
      assert next.rows.Keys == KnownAfter(sh.rows.Keys, orders[0]);
    }
  }

  /** First wins: a row already there stays; each new reference gets the row of the first order that finds none and
      whose create takes effect, even when that order failed afterwards; every later order is rejected as a duplicate
      or fails; and the queue gets the jobs of `JobsOf`, in order. */
  lemma FirstOrderWins(sh: Shared, me: nat, orders: seq<Order>)
    ensures var (t, results) := PlaceAll(sh, me, orders);
            && |results| == |orders|
            && (forall r :: r in t.rows <==>
                  r in sh.rows || exists k :: 0 <= k < |orders| && orders[k].request.reference == r && CanCreate(orders[k]))
            && (forall r :: r in sh.rows ==> t.rows[r] == sh.rows[r])
            && (forall k :: 0 <= k < |orders| ==>
                  && results[k] == ExpectedResult(orders[k], Taken(sh.rows.Keys, orders, k))
                  && (Creates(sh.rows.Keys, orders, k) ==>
                        t.rows[orders[k].request.reference] == NewRow(orders[k].request, orders[k].channel)))
            && t.jobs == sh.jobs + JobsOf(sh.rows.Keys, orders)
  {
    hide PlaceAll, NewRow, ExpectedResult, Taken, CanCreate;
    PlacedRows(sh, me, orders);
    PlacedJobs(sh, me, orders);
    forall k | 0 <= k < |orders|
      ensures var (t, results) := PlaceAll(sh, me, orders);
              && results[k] == ExpectedResult(orders[k], Taken(sh.rows.Keys, orders, k))
              && (Creates(sh.rows.Keys, orders, k) ==>
                    t.rows[orders[k].request.reference] == NewRow(orders[k].request, orders[k].channel))
    {
      PlacedOrder(sh, me, orders, k);
    }
  }

  /** From handler `n` on, each handler is done and answered as listed. */
  ghost predicate Answered(t: State, n: nat, results: seq<Result<Response, Error>>) {
    && |t.handlers| == n + |results|
    && forall k :: n <= k < |t.handlers| ==> t.handlers[k].Done() && ResultOf(t.handlers[k]) == results[k - n]
  }

  /** Such a sequence is a run, with the same shared state at its end and the same answers to the callers. */
  lemma {:induction false} PlacingIsARun(s: State, me: nat, orders: seq<Order>) returns (labels: seq<Label>)
    requires NoneCrashedAhead(s)
    ensures var t := Run(s, labels);
            var (final, results) := PlaceAll(s.shared, me, orders);
            t.shared == final && s.handlers <= t.handlers && Answered(t, |s.handlers|, results)
    decreases |orders|
  {
    hide Finish, Events, Script, IsFresh, ResultOf, Handler.Done;
    labels := [];
    if orders != [] {
      var h := NewInitiate(orders[0].request, orders[0].channel);
      var env := OrderEnv(orders[0]);
      var solo := Solo(s, h, env);
      FreshInitiate(orders[0]);
      SoloIsARun(s, h, env);
      FinishIgnoresName(Started(s.shared, h), |s.handlers|, me, h, env);
      var mid := Run(s, solo);
      var rest := PlacingIsARun(mid, me, orders[1..]);
      RunConcat(s, solo, rest);
      labels := solo + rest;
      var f := Finish(Started(s.shared, h), me, h, env);
      var (final, results) := PlaceAll(mid.shared, me, orders[1..]);
      assert PlaceAll(s.shared, me, orders) == (final, [ResultOf(f.handler)] + results);
      hide Run, PlaceAll, Solo, OrderEnv;
      assert mid.handlers[|s.handlers|] == f.handler && f.handler.Done();
    }
  }

  lemma FreshInitiate(order: Order)
    ensures IsFresh(NewInitiate(order.request, order.channel))
  {
  }
}
