/**
 * The per-room message timeline of the chat view: history conversion, the
 * live-event rule that folds a server echo into its optimistic entry,
 * optimistic sends with their confirmation or failure, retries,
 * direct-message partner resolution and the read-receipt poll.
 *
 * The network is replaced by its answers: the event id returned by a send,
 * the receipts returned per event id. Clocks and random suffixes are
 * parameters (`now`, `stamp`).
 */
module Timeline {
  import opened Text
  import BlockList

  const MessageEventType := "m.room.message"
  /** A pending entry older than this is not matched by a live event. */
  const MatchWindowMs := 30000
  /** Prefix of the transaction ids `sendMessage` makes; the receipt poll skips such ids. */
  const SendPrefix := "txn-"
  /** Prefix of the transaction ids `retrySend` makes. */
  const RetryPrefix := "retry-"
  /** Sender of an optimistic entry when no user id is known. */
  const FallbackSender := "me"

  const SendingNotice := "Sending…"
  const SentNotice := "Sent"
  const RetryingNotice := "Retrying…"
  const BlockedNotice := "Cannot send — other participant is blocked."
  const LoadingNotice := "Loading room history..."
  const LoadFailedPrefix := "Failed to load history: "
  const SendFailedPrefix := "Send failed: "
  const RetryFailedPrefix := "Retry failed: "

  datatype Status = Pending | Sent | Failed

  /** One timeline entry; every field but `id` and `body` may be absent. */
  datatype Message = Message(
    id: string,
    txnId: Option<string>,
    sender: Option<string>,
    body: string,
    ts: Option<int>,
    status: Option<Status>,
    receipts: Option<seq<string>>)

  /** A room event with its type tag and its normalised `{id, sender, body, ts}` record. */
  datatype Event = Event(kind: string, id: string, sender: Option<string>, body: string, ts: Option<int>)

  /** What a send hands to the server: room, body and transaction id. */
  datatype Outgoing = Outgoing(room: string, body: string, txnId: string)

  /** How an awaited send ended: the server's event id (possibly absent), or an error message. */
  datatype SendOutcome = Delivered(eventId: Option<string>) | SendFailed(message: string)

  /** How reading the room's history ended: its events, or an error message. */
  datatype HistoryOutcome = Loaded(events: seq<Event>) | LoadFailed(message: string)

  /** A receipt query's answer: failed, or the user ids grouped by receipt type. */
  datatype ReceiptAnswer = QueryFailed | Answered(groups: seq<seq<string>>)

  function Normalize(e: Event): Message {
    Message(e.id, None, e.sender, e.body, e.ts, None, None)
  }

  predicate HasId(msgs: seq<Message>, id: string) {
    exists k :: 0 <= k < |msgs| && msgs[k].id == id
  }

  predicate DistinctIds(msgs: seq<Message>) {
    forall i, j :: 0 <= i < j < |msgs| ==> msgs[i].id != msgs[j].id
  }

  // ---------------------------------------------------------------------
  // History conversion
  // ---------------------------------------------------------------------

  /** The message events of `events`, in their order. */
  function MessageEvents(events: seq<Event>): (r: seq<Event>)
    ensures |r| <= |events|
    ensures forall k :: 0 <= k < |r| ==> r[k].kind == MessageEventType
    ensures forall e :: e in r <==> e in events && e.kind == MessageEventType
  {
    if events == [] then []
    else
      var rest := MessageEvents(events[1..]);
      assert forall e :: e in events <==> e == events[0] || e in events[1..];
      if events[0].kind == MessageEventType then [events[0]] + rest else rest
  }

  /** A single event is kept exactly when it is a message event. */
  lemma MessageEventsSingleton(e: Event)
    ensures MessageEvents([e]) == if e.kind == MessageEventType then [e] else []
  {
    assert [e][1..] == [];
  }

  /**
   * The filter distributes over concatenation; with the singleton case this
   * fixes the result completely: the message events in their order, each as
   * often as it occurs.
   */
  lemma {:induction false} MessageEventsAppend(a: seq<Event>, b: seq<Event>)
    ensures MessageEvents(a + b) == MessageEvents(a) + MessageEvents(b)
  {
    if a == [] {
      assert a + b == b;
    } else {
      assert (a + b)[0] == a[0];
      assert (a + b)[1..] == a[1..] + b;
      MessageEventsAppend(a[1..], b);
    }
  }

  function Reverse<T>(s: seq<T>): (r: seq<T>)
    ensures |r| == |s|
    ensures forall k :: 0 <= k < |s| ==> r[k] == s[|s| - 1 - k]
  {
    if s == [] then [] else Reverse(s[1..]) + [s[0]]
  }

  /**
   * History as the view shows it: the message events, normalised, in the
   * reverse of the order the room hands them over. Entries carry no status.
   */
  function ConvertHistory(events: seq<Event>): (r: seq<Message>)
    ensures |r| == |MessageEvents(events)|
    ensures forall k :: 0 <= k < |r| ==>
      r[k] == Normalize(MessageEvents(events)[|r| - 1 - k]) && r[k].status == None
  {
    var ms := MessageEvents(events);
    Reverse(seq(|ms|, k requires 0 <= k < |ms| => Normalize(ms[k])))
  }

  // ---------------------------------------------------------------------
  // Live events
  // ---------------------------------------------------------------------

  /** `m.ts || now`: a missing or zero timestamp counts as `now`. */
  function EffectiveTs(m: Message, now: int): int {
    if m.ts.Some? && m.ts.value != 0 then m.ts.value else now
  }

  /** A pending entry from the same sender with the same trimmed body, younger than the window. */
  predicate MatchesPending(m: Message, e: Event, now: int) {
    && m.status == Some(Pending)
    && m.sender == e.sender
    && Trim(m.body) == Trim(e.body)
    && now - EffectiveTs(m, now) < MatchWindowMs
  }

  /** The first index at or after `from` whose entry satisfies `matches`, if any. */
  function FirstMatchFrom(msgs: seq<Message>, matches: Message -> bool, from: nat): (r: Option<nat>)
    requires from <= |msgs|
    ensures r.Some? ==>
      && from <= r.value < |msgs| && matches(msgs[r.value])
      && forall j :: from <= j < r.value ==> !matches(msgs[j])
    ensures r.None? ==> forall j :: from <= j < |msgs| ==> !matches(msgs[j])
    decreases |msgs| - from
  {
    if from == |msgs| then None
    else if matches(msgs[from]) then Some(from)
    else FirstMatchFrom(msgs, matches, from + 1)
  }

  /** `findIndex` of a matching pending entry. */
  function FirstPending(msgs: seq<Message>, e: Event, now: int): (r: Option<nat>)
    ensures r.Some? ==>
      && r.value < |msgs| && MatchesPending(msgs[r.value], e, now)
      && forall j :: 0 <= j < r.value ==> !MatchesPending(msgs[j], e, now)
    ensures r.None? ==> forall j :: 0 <= j < |msgs| ==> !MatchesPending(msgs[j], e, now)
  {
    FirstMatchFrom(msgs, m => MatchesPending(m, e, now), 0)
  }

  /** The pending entry adopts the event id, becomes sent, and takes the event's timestamp if it has one. */
  function Upgrade(m: Message, e: Event): Message {
    m.(id := e.id, status := Some(Sent), ts := if e.ts.Some? then e.ts else m.ts)
  }

  /** An event appended as a new sent entry. */
  function FromEvent(e: Event): Message {
    Normalize(e).(status := Some(Sent))
  }

  /** The `Room.timeline` handler applied to the current timeline at time `now`. */
  function ApplyLive(msgs: seq<Message>, e: Event, now: int): (r: seq<Message>)
    ensures e.kind == MessageEventType ==> HasId(r, e.id)
    ensures |msgs| <= |r| <= |msgs| + 1
  {
    if e.kind != MessageEventType then msgs
    else if HasId(msgs, e.id) then msgs
    else match FirstPending(msgs, e, now)
      case Some(i) =>
        assert msgs[i := Upgrade(msgs[i], e)][i].id == e.id;
        msgs[i := Upgrade(msgs[i], e)]
      case None =>
        assert (msgs + [FromEvent(e)])[|msgs|].id == e.id;
        msgs + [FromEvent(e)]
  }

  /** A non-message event, or an event whose id is already present, changes nothing. */
  lemma LiveIgnored(msgs: seq<Message>, e: Event, now: int)
    requires e.kind != MessageEventType || HasId(msgs, e.id)
    ensures ApplyLive(msgs, e, now) == msgs
  {
  }

  /**
   * A new message event that matches a pending entry replaces the first such
   * entry at its own index; the length and every other entry stay as they were.
   */
  lemma LiveUpgradesFirstMatch(msgs: seq<Message>, e: Event, now: int, i: nat)
    requires e.kind == MessageEventType && !HasId(msgs, e.id)
    requires i < |msgs| && MatchesPending(msgs[i], e, now)
    requires forall j :: 0 <= j < i ==> !MatchesPending(msgs[j], e, now)
    ensures var r := ApplyLive(msgs, e, now);
      && |r| == |msgs|
      && r[i] == msgs[i].(id := e.id, status := Some(Sent), ts := if e.ts.Some? then e.ts else msgs[i].ts)
      && forall j :: 0 <= j < |msgs| && j != i ==> r[j] == msgs[j]
  {
  }

  /** A new message event that matches no pending entry is appended as sent. */
  lemma LiveAppendsWhenUnmatched(msgs: seq<Message>, e: Event, now: int)
    requires e.kind == MessageEventType && !HasId(msgs, e.id)
    requires forall j :: 0 <= j < |msgs| ==> !MatchesPending(msgs[j], e, now)
    ensures ApplyLive(msgs, e, now) == msgs + [Message(e.id, None, e.sender, e.body, e.ts, Some(Sent), None)]
  {
  }

  /** One live step keeps the ids pairwise distinct. */
  lemma LiveKeepsIdsDistinct(msgs: seq<Message>, e: Event, now: int)
    requires DistinctIds(msgs)
    ensures DistinctIds(ApplyLive(msgs, e, now))
  {
    if e.kind == MessageEventType && !HasId(msgs, e.id) {
      var r := ApplyLive(msgs, e, now);
      forall i, j | 0 <= i < j < |r| ensures r[i].id != r[j].id {
        if r[i].id == e.id {
          assert r[j].id != e.id by {
            if j < |msgs| && r[j] == msgs[j] {
              assert msgs[j].id != e.id;
            }
          }
        }
      }
    }
  }

  /** Applying the same event a second time, at any later time, changes nothing. */
  lemma LiveIdempotent(msgs: seq<Message>, e: Event, now: int, later: int)
    ensures ApplyLive(ApplyLive(msgs, e, now), e, later) == ApplyLive(msgs, e, now)
  {
  }

  // ---------------------------------------------------------------------
  // Sending
  // ---------------------------------------------------------------------

  /** The entry `sendMessage` appends before the server answers. */
  function Optimistic(txnId: string, userId: Option<string>, body: string, now: int): Message {
    Message(txnId, Some(txnId), Some(if Truthy(userId) then userId.value else FallbackSender),
            body, Some(now), Some(Pending), None)
  }

  /** The entries a completion for `txnId` rewrites. */
  predicate Targets(m: Message, txnId: string) {
    m.txnId == Some(txnId) || m.id == txnId
  }

  /** A successful send: targeted entries take the server id (when one came back) and become sent. */
  function ConfirmSend(msgs: seq<Message>, txnId: string, eventId: Option<string>): (r: seq<Message>)
    ensures |r| == |msgs|
    ensures forall k :: 0 <= k < |msgs| && !Targets(msgs[k], txnId) ==> r[k] == msgs[k]
    ensures forall k :: 0 <= k < |msgs| && Targets(msgs[k], txnId) ==>
      r[k] == msgs[k].(id := if eventId.Some? then eventId.value else msgs[k].id, status := Some(Sent))
  {
    seq(|msgs|, k requires 0 <= k < |msgs| =>
      if Targets(msgs[k], txnId)
      then msgs[k].(id := if eventId.Some? then eventId.value else msgs[k].id, status := Some(Sent))
      else msgs[k])
  }

  /** A failed send: targeted entries become failed; nothing is removed. */
  function FailSend(msgs: seq<Message>, txnId: string): (r: seq<Message>)
    ensures |r| == |msgs|
    ensures forall k :: 0 <= k < |msgs| && !Targets(msgs[k], txnId) ==> r[k] == msgs[k]
    ensures forall k :: 0 <= k < |msgs| && Targets(msgs[k], txnId) ==> r[k] == msgs[k].(status := Some(Failed))
  {
    seq(|msgs|, k requires 0 <= k < |msgs| =>
      if Targets(msgs[k], txnId) then msgs[k].(status := Some(Failed)) else msgs[k])
  }

  /** No entry answers to `txnId` yet: it is a fresh transaction id. */
  predicate FreshTxn(msgs: seq<Message>, txnId: string) {
    forall k :: 0 <= k < |msgs| ==> !Targets(msgs[k], txnId)
  }

  /** Send then success: the optimistic entry alone becomes sent under the server id. */
  lemma SendThenConfirm(msgs: seq<Message>, txnId: string, userId: Option<string>, body: string, now: int, eventId: string)
    requires FreshTxn(msgs, txnId)
    ensures ConfirmSend(msgs + [Optimistic(txnId, userId, body, now)], txnId, Some(eventId))
      == msgs + [Optimistic(txnId, userId, body, now).(id := eventId, status := Some(Sent))]
  {
  }

  /** Send then failure: the optimistic entry stays, marked failed, and nothing else changes. */
  lemma SendThenFail(msgs: seq<Message>, txnId: string, userId: Option<string>, body: string, now: int)
    requires FreshTxn(msgs, txnId)
    ensures FailSend(msgs + [Optimistic(txnId, userId, body, now)], txnId)
      == msgs + [Optimistic(txnId, userId, body, now).(status := Some(Failed))]
  {
  }

  /**
   * The server echo arriving before the send resolves upgrades the optimistic
   * entry in place, and the later confirmation leaves that single entry as it is.
   */
  lemma EchoBeforeConfirmation(msgs: seq<Message>, txnId: string, user: string, body: string, t: int, e: Event, now: int)
    requires user != "" && FreshTxn(msgs, txnId) && !HasId(msgs, e.id) && e.id != txnId
    requires e.kind == MessageEventType && e.sender == Some(user) && Trim(e.body) == Trim(body)
    requires t == 0 || now - t < MatchWindowMs
    requires forall k :: 0 <= k < |msgs| ==> !MatchesPending(msgs[k], e, now)
    ensures var opt := Optimistic(txnId, Some(user), body, t);
      ConfirmSend(ApplyLive(msgs + [opt], e, now), txnId, Some(e.id))
        == msgs + [opt.(id := e.id, status := Some(Sent), ts := if e.ts.Some? then e.ts else Some(t))]
  {
    var opt := Optimistic(txnId, Some(user), body, t);
    assert EffectiveTs(opt, now) == (if t != 0 then t else now);
    assert MatchesPending(opt, e, now);
    UpgradesAppendedPending(msgs, opt, e, now);
    var up := Upgrade(opt, e);
    assert Targets(up, txnId);
    ConfirmTargetedTail(msgs, up, txnId, e.id);
  }

  /** Confirming a fresh transaction whose entry is last rewrites that entry alone. */
  lemma ConfirmTargetedTail(msgs: seq<Message>, m: Message, txnId: string, eventId: string)
    requires FreshTxn(msgs, txnId) && Targets(m, txnId)
    ensures ConfirmSend(msgs + [m], txnId, Some(eventId)) == msgs + [m.(id := eventId, status := Some(Sent))]
  {
    var tl := msgs + [m];
    var c := ConfirmSend(tl, txnId, Some(eventId));
    forall k | 0 <= k < |msgs| ensures c[k] == msgs[k] {
      assert tl[k] == msgs[k];
    }
    assert c[|msgs|] == m.(id := eventId, status := Some(Sent));
  }

  /** A matching pending entry on the tail, with no earlier match, is the one upgraded. */
  lemma UpgradesAppendedPending(msgs: seq<Message>, m: Message, e: Event, now: int)
    requires e.kind == MessageEventType && !HasId(msgs, e.id) && m.id != e.id
    requires MatchesPending(m, e, now)
    requires forall k :: 0 <= k < |msgs| ==> !MatchesPending(msgs[k], e, now)
    ensures ApplyLive(msgs + [m], e, now) == msgs + [Upgrade(m, e)]
  {
    var tl := msgs + [m];
    assert !HasId(tl, e.id) by {
      forall k | 0 <= k < |tl| ensures tl[k].id != e.id {
        if k < |msgs| {
          assert tl[k] == msgs[k];
        }
      }
    }
    forall j | 0 <= j < |msgs| ensures !MatchesPending(tl[j], e, now) {
      assert tl[j] == msgs[j];
    }
    LiveUpgradesFirstMatch(tl, e, now, |msgs|);
    var r := ApplyLive(tl, e, now);
    forall k | 0 <= k < |msgs| ensures r[k] == msgs[k] {
      assert tl[k] == msgs[k];
    }
    assert r[|msgs|] == Upgrade(m, e);
  }

  /** The send resolving before its echo arrives: the echo is then a known id and is dropped. */
  lemma ConfirmationBeforeEcho(msgs: seq<Message>, txnId: string, userId: Option<string>, body: string, t: int, e: Event, now: int)
    requires FreshTxn(msgs, txnId)
    ensures var opt := Optimistic(txnId, userId, body, t);
      ApplyLive(ConfirmSend(msgs + [opt], txnId, Some(e.id)), e, now)
        == msgs + [opt.(id := e.id, status := Some(Sent))]
  {
    var opt := Optimistic(txnId, userId, body, t);
    SendThenConfirm(msgs, txnId, userId, body, t, e.id);
    var c := ConfirmSend(msgs + [opt], txnId, Some(e.id));
    assert c[|msgs|].id == e.id;
  }

  /**
   * Ids are not globally unique across sends and echoes: with no user id the
   * optimistic entry's sender is `me`, the echo does not match it and is
   * appended, and the confirmation then gives the optimistic entry the same id.
   */
  lemma AnonymousSendLeavesTwinIds()
    ensures var opt := Optimistic("txn-1", None, "hi", 100);
      var echo := Event(MessageEventType, "$ev", Some("@bob:local"), "hi", Some(150));
      var r := ConfirmSend(ApplyLive([opt], echo, 200), "txn-1", Some("$ev"));
      |r| == 2 && r[0].id == "$ev" && r[1].id == "$ev" && !DistinctIds(r)
  {
    var opt := Optimistic("txn-1", None, "hi", 100);
    var echo := Event(MessageEventType, "$ev", Some("@bob:local"), "hi", Some(150));
    assert !MatchesPending(opt, echo, 200);
    assert !HasId([opt], "$ev");
    LiveAppendsWhenUnmatched([opt], echo, 200);
  }

  // ---------------------------------------------------------------------
  // Retry
  // ---------------------------------------------------------------------

  /** The entry answers to the retry key by its id or its transaction id. */
  predicate AnswersTo(m: Message, key: string) {
    m.id == key || m.txnId == Some(key)
  }

  /** The first entry whose id or transaction id is `key` (`messages.find`). */
  function FindForRetry(msgs: seq<Message>, key: string): (r: Option<Message>)
    ensures r.Some? ==> exists k ::
      && 0 <= k < |msgs| && msgs[k] == r.value && AnswersTo(msgs[k], key)
      && forall j :: 0 <= j < k ==> !AnswersTo(msgs[j], key)
    ensures r.None? <==> forall k :: 0 <= k < |msgs| ==> !AnswersTo(msgs[k], key)
  {
    if msgs == [] then None
    else if AnswersTo(msgs[0], key) then Some(msgs[0])
    else
      var r := FindForRetry(msgs[1..], key);
      assert r.Some? ==> exists k ::
        && 1 <= k < |msgs| && msgs[k] == r.value && AnswersTo(msgs[k], key)
        && forall j :: 0 <= j < k ==> !AnswersTo(msgs[j], key)
      by {
        if r.Some? {
          var k :| && 0 <= k < |msgs[1..]| && msgs[1..][k] == r.value && AnswersTo(msgs[1..][k], key)
                   && forall j :: 0 <= j < k ==> !AnswersTo(msgs[1..][j], key);
          assert msgs[k + 1] == r.value;
          assert forall j :: 1 <= j < k + 1 ==> msgs[j] == msgs[1..][j - 1];
        }
      }
      assert r.None? ==> forall k :: 1 <= k < |msgs| ==> msgs[k] == msgs[1..][k - 1];
      r
  }

  /** The entries a retry resets: same id as the target, or the same (possibly absent) transaction id. */
  predicate SharesRetryKey(m: Message, target: Message) {
    m.id == target.id || m.txnId == target.txnId
  }

  /** A retry resets the matched entries to pending under the new transaction id and time. */
  function MarkRetrying(msgs: seq<Message>, target: Message, txnId: string, now: int): (r: seq<Message>)
    ensures |r| == |msgs|
    ensures forall k :: 0 <= k < |msgs| && !SharesRetryKey(msgs[k], target) ==> r[k] == msgs[k]
    ensures forall k :: 0 <= k < |msgs| && SharesRetryKey(msgs[k], target) ==>
      r[k] == msgs[k].(status := Some(Pending), txnId := Some(txnId), ts := Some(now))
  {
    seq(|msgs|, k requires 0 <= k < |msgs| =>
      if SharesRetryKey(msgs[k], target)
      then msgs[k].(status := Some(Pending), txnId := Some(txnId), ts := Some(now))
      else msgs[k])
  }

  /**
   * When the retried entry has no transaction id, every entry without one is
   * reset to pending as well, whatever its id.
   */
  lemma RetryWithoutTxnIdResetsAllUntagged(msgs: seq<Message>, target: Message, txnId: string, now: int, k: nat)
    requires target.txnId == None && k < |msgs| && msgs[k].txnId == None
    ensures MarkRetrying(msgs, target, txnId, now)[k].status == Some(Pending)
  {
  }

  /**
   * A failed entry retried under a fresh transaction id and then confirmed is
   * sent under the new server id, at its own index, with the new transaction id.
   */
  lemma RetryThenConfirm(msgs: seq<Message>, k: nat, txnId: string, now: int, eventId: string)
    requires k < |msgs| && DistinctIds(msgs) && msgs[k].txnId.Some?
    requires forall j :: 0 <= j < |msgs| && j != k ==> msgs[j].txnId != msgs[k].txnId
    requires FreshTxn(msgs, txnId)
    ensures var r := ConfirmSend(MarkRetrying(msgs, msgs[k], txnId, now), txnId, Some(eventId));
      && |r| == |msgs|
      && r[k] == msgs[k].(id := eventId, status := Some(Sent), txnId := Some(txnId), ts := Some(now))
      && forall j :: 0 <= j < |msgs| && j != k ==> r[j] == msgs[j]
  {
    var m := MarkRetrying(msgs, msgs[k], txnId, now);
    forall j | 0 <= j < |msgs| && j != k ensures m[j] == msgs[j] && !Targets(m[j], txnId) {
      assert !SharesRetryKey(msgs[j], msgs[k]);
    }
  }

  // ---------------------------------------------------------------------
  // Direct-message partner
  // ---------------------------------------------------------------------

  /** The non-empty member ids other than `me`, in order. */
  function Others(members: seq<string>, me: string): (r: seq<string>)
    ensures forall x :: multiset(r)[x] == if x != "" && x != me then multiset(members)[x] else 0
  {
    if members == [] then []
    else
      assert members == [members[0]] + members[1..];
      var rest := Others(members[1..], me);
      if members[0] != "" && members[0] != me then [members[0]] + rest else rest
  }

  /**
   * `getOtherUserId`: with a known user and a member list, the single other
   * member if there is exactly one; otherwise none.
   */
  function OtherUserId(me: Option<string>, members: Option<seq<string>>): (r: Option<string>)
    ensures r.Some? <==> Truthy(me) && members.Some? && |Others(members.value, me.value)| == 1
    ensures r.Some? ==> r.value != "" && r.value != me.value && r.value in members.value
  {
    if !Truthy(me) || members.None? then None
    else
      var others := Others(members.value, me.value);
      if |others| == 1 then
        assert multiset(others)[others[0]] > 0;
        Some(others[0])
      else None
  }

  /**
   * A partner is found exactly when one member entry, counted with
   * multiplicity, is a non-empty id other than the user's own.
   */
  lemma PartnerIffSingleOther(me: string, members: seq<string>, u: string)
    requires me != ""
    ensures OtherUserId(Some(me), Some(members)) == Some(u) <==>
      && u != "" && u != me && multiset(members)[u] == 1
      && forall x :: x in members && x != "" && x != me ==> x == u
  {
    var others := Others(members, me);
    if OtherUserId(Some(me), Some(members)) == Some(u) {
      assert others == [u];
      assert multiset(others)[u] == 1;
      forall x | x in members && x != "" && x != me ensures x == u {
        assert multiset(members)[x] > 0;
        assert multiset(others)[x] > 0;
      }
    }
    if && u != "" && u != me && multiset(members)[u] == 1
       && forall x :: x in members && x != "" && x != me ==> x == u
    {
      assert multiset(others)[u] == 1;
      forall x | x != u ensures multiset(others)[x] == 0 {
        if multiset(others)[x] > 0 {
          assert x in members;
        }
      }
      assert multiset(others) == multiset{u};
      assert |others| == |multiset(others)| == 1;
      assert others[0] in multiset(others);
    }
  }

  /** `otherIsBlocked`: a partner exists and is on the block list. */
  predicate OtherIsBlocked(me: Option<string>, members: Option<seq<string>>, blocked: BlockList.Stored): (r: bool)
    ensures r ==> Truthy(me) && members.Some? && blocked.Encoded?
  {
    var partner := OtherUserId(me, members);
    Truthy(partner) && BlockList.IsBlocked(partner, blocked)
  }

  // ---------------------------------------------------------------------
  // Receipts
  // ---------------------------------------------------------------------

  function Concat(groups: seq<seq<string>>): (r: seq<string>)
    ensures forall u :: u in r <==> exists g :: g in groups && u in g
  {
    if groups == [] then []
    else
      assert forall g :: g in groups <==> g == groups[0] || g in groups[1..];
      groups[0] + Concat(groups[1..])
  }

  lemma {:induction false} ConcatAppend(groups: seq<seq<string>>, g: seq<string>)
    ensures Concat(groups + [g]) == Concat(groups) + g
  {
    if groups == [] {
      assert [] + [g] == [g];
    } else {
      assert (groups + [g])[1..] == groups[1..] + [g];
      ConcatAppend(groups[1..], g);
    }
  }

  /** The poll's flattening of a receipt answer: every user id of every type, in order. */
  method FlattenReceipts(groups: seq<seq<string>>) returns (receipts: seq<string>)
    ensures receipts == Concat(groups)
  {
    receipts := [];
    var t := 0;
    while t < |groups|
      invariant 0 <= t <= |groups|
      invariant receipts == Concat(groups[..t])
    {
      var u := 0;
      ghost var before := receipts;
      while u < |groups[t]|
        invariant 0 <= u <= |groups[t]|
        invariant receipts == before + groups[t][..u]
      {
        receipts := receipts + [groups[t][u]];
        u := u + 1;
      }
      assert groups[t][..u] == groups[t];
      ConcatAppend(groups[..t], groups[t]);
      assert groups[..t + 1] == groups[..t] + [groups[t]];
      t := t + 1;
    }
    assert groups[..t] == groups;
  }

  /** An entry the poll queries: a non-empty id not made by `sendMessage`, sent, from an unblocked sender. */
  predicate ReceiptEligible(m: Message, blocked: BlockList.Stored): (r: bool)
    ensures StartsWith(m.id, SendPrefix) || m.status != Some(Sent) ==> !r
    ensures BlockList.IsBlocked(m.sender, blocked) ==> !r
  {
    && m.id != ""
    && !StartsWith(m.id, SendPrefix)
    && m.status == Some(Sent)
    && !BlockList.IsBlocked(m.sender, blocked)
  }

  function Answer(answers: map<string, ReceiptAnswer>, id: string): ReceiptAnswer {
    if id in answers then answers[id] else QueryFailed
  }

  /** The poll writes receipts for `m`: it is queried and the flattened answer is non-empty. */
  predicate WritesReceipts(m: Message, blocked: BlockList.Stored, answers: map<string, ReceiptAnswer>) {
    && ReceiptEligible(m, blocked)
    && Answer(answers, m.id).Answered?
    && |Concat(Answer(answers, m.id).groups)| > 0
  }

  /** Every entry with id `id` gets `receipts`. */
  function SetReceipts(msgs: seq<Message>, id: string, receipts: seq<string>): (r: seq<Message>)
    ensures |r| == |msgs|
    ensures forall k :: 0 <= k < |msgs| ==>
      r[k] == if msgs[k].id == id then msgs[k].(receipts := Some(receipts)) else msgs[k]
  {
    seq(|msgs|, k requires 0 <= k < |msgs| =>
      if msgs[k].id == id then msgs[k].(receipts := Some(receipts)) else msgs[k])
  }

  /** One iteration of the poll, for snapshot entry `m`, on the current timeline. */
  function ReceiptStep(cur: seq<Message>, m: Message, blocked: BlockList.Stored, answers: map<string, ReceiptAnswer>): seq<Message> {
    if WritesReceipts(m, blocked, answers) then SetReceipts(cur, m.id, Concat(Answer(answers, m.id).groups))
    else cur
  }

  /** The timeline after the poll has handled the first `n` entries of its snapshot. */
  function PollPrefix(snap: seq<Message>, blocked: BlockList.Stored, answers: map<string, ReceiptAnswer>, n: nat): (r: seq<Message>)
    requires n <= |snap|
    ensures |r| == |snap|
  {
    if n == 0 then snap else ReceiptStep(PollPrefix(snap, blocked, answers, n - 1), snap[n - 1], blocked, answers)
  }

  /** The poll changes receipts only: length, order and every other field stay. */
  lemma {:induction false} PollOnlyTouchesReceipts(snap: seq<Message>, blocked: BlockList.Stored, answers: map<string, ReceiptAnswer>, n: nat)
    requires n <= |snap|
    ensures var r := PollPrefix(snap, blocked, answers, n);
      forall k :: 0 <= k < |snap| ==> r[k] == snap[k].(receipts := r[k].receipts)
  {
    if n > 0 {
      PollOnlyTouchesReceipts(snap, blocked, answers, n - 1);
    }
  }

  /**
   * An entry none of whose id-twins among the handled snapshot entries is
   * written (skipped as a `txn-` id, not sent, blocked sender, failed or
   * empty answer) keeps its receipts.
   */
  lemma {:induction false} PollLeavesUnwritten(snap: seq<Message>, blocked: BlockList.Stored, answers: map<string, ReceiptAnswer>, n: nat, k: nat)
    requires n <= |snap| && k < |snap|
    requires forall j :: 0 <= j < n && snap[j].id == snap[k].id ==> !WritesReceipts(snap[j], blocked, answers)
    ensures PollPrefix(snap, blocked, answers, n)[k] == snap[k]
  {
    PollOnlyTouchesReceipts(snap, blocked, answers, n);
    if n > 0 {
      PollOnlyTouchesReceipts(snap, blocked, answers, n - 1);
      PollLeavesUnwritten(snap, blocked, answers, n - 1, k);
    }
  }

  /** A written entry, and every entry sharing its id, ends with the flattened answer for that id. */
  lemma {:induction false} PollWritesAnswer(snap: seq<Message>, blocked: BlockList.Stored, answers: map<string, ReceiptAnswer>, n: nat, j: nat, k: nat)
    requires n <= |snap| && j < n && k < |snap|
    requires WritesReceipts(snap[j], blocked, answers) && snap[k].id == snap[j].id
    ensures PollPrefix(snap, blocked, answers, n)[k].receipts == Some(Concat(Answer(answers, snap[j].id).groups))
  {
    var id := snap[j].id;
    var m := snap[n - 1];
    var prev := PollPrefix(snap, blocked, answers, n - 1);
    PollOnlyTouchesReceipts(snap, blocked, answers, n - 1);
    assert prev[k].id == id;
    if j < n - 1 {
      PollWritesAnswer(snap, blocked, answers, n - 1, j, k);
    }
    if WritesReceipts(m, blocked, answers) {
      var s := SetReceipts(prev, m.id, Concat(Answer(answers, m.id).groups));
      assert PollPrefix(snap, blocked, answers, n) == s;
      if m.id == id {
        assert s[k] == prev[k].(receipts := Some(Concat(Answer(answers, id).groups)));
      } else {
        assert s[k] == prev[k];
      }
    } else {
      assert PollPrefix(snap, blocked, answers, n) == prev;
    }
  }

  /** A complete pass run again over its own result, with the same answers, changes nothing more. */
  lemma PollIsIdempotent(snap: seq<Message>, blocked: BlockList.Stored, answers: map<string, ReceiptAnswer>)
    ensures var once := PollPrefix(snap, blocked, answers, |snap|);
      PollPrefix(once, blocked, answers, |once|) == once
  {
    var once := PollPrefix(snap, blocked, answers, |snap|);
    var twice := PollPrefix(once, blocked, answers, |once|);
    PollOnlyTouchesReceipts(snap, blocked, answers, |snap|);
    PollOnlyTouchesReceipts(once, blocked, answers, |once|);
    forall j | 0 <= j < |snap|
      ensures WritesReceipts(once[j], blocked, answers) == WritesReceipts(snap[j], blocked, answers)
    {
      assert once[j] == snap[j].(receipts := once[j].receipts);
    }
    forall k | 0 <= k < |snap| ensures twice[k] == once[k] {
      if j :| 0 <= j < |snap| && snap[j].id == snap[k].id && WritesReceipts(snap[j], blocked, answers) {
        PollWritesAnswer(snap, blocked, answers, |snap|, j, k);
        PollWritesAnswer(once, blocked, answers, |once|, j, k);
      } else {
        PollLeavesUnwritten(once, blocked, answers, |once|, k);
      }
    }
  }

  /** A `txn-` entry with no id-twin keeps its receipts through the poll. */
  lemma PollSkipsOptimisticIds(snap: seq<Message>, blocked: BlockList.Stored, answers: map<string, ReceiptAnswer>, k: nat)
    requires k < |snap| && DistinctIds(snap) && StartsWith(snap[k].id, SendPrefix)
    ensures PollPrefix(snap, blocked, answers, |snap|)[k] == snap[k]
  {
    PollLeavesUnwritten(snap, blocked, answers, |snap|, k);
  }

  // ---------------------------------------------------------------------
  // The room view's state
  // ---------------------------------------------------------------------

  class ChatRoom {
    var messages: seq<Message>
    /** The message input. */
    var draft: string
    /** The status line under the input. */
    var notice: Option<string>

    constructor ()
      ensures messages == [] && draft == "" && notice == None
    {
      messages := [];
      draft := "";
      notice := None;
    }

    /** The timeline with no client or no selected room: empty. */
    method ClearRoom()
      modifies this
      ensures messages == [] && draft == old(draft) && notice == old(notice)
    {
      messages := [];
    }

    /**
     * History load for the selected room: the loading notice goes up, then the
     * history replaces the timeline and the notice is cleared, or the failure is
     * shown; a load whose room is no longer selected leaves the loading notice.
     */
    method LoadHistory(outcome: HistoryOutcome, stillSelected: bool)
      modifies this
      ensures stillSelected && outcome.Loaded? ==> messages == ConvertHistory(outcome.events) && notice == None
      ensures stillSelected && outcome.LoadFailed? ==>
        messages == old(messages) && notice == Some(LoadFailedPrefix + outcome.message)
      ensures !stillSelected ==> messages == old(messages) && notice == Some(LoadingNotice)
      ensures draft == old(draft)
    {
      notice := Some(LoadingNotice);
      if !stillSelected {
        return;
      }
      match outcome
      case Loaded(events) =>
        messages := ConvertHistory(events);
        notice := None;
      case LoadFailed(message) =>
        notice := Some(LoadFailedPrefix + message);
    }

    /** A `Room.timeline` event arriving at time `now`. */
    method OnTimeline(e: Event, now: int)
      modifies this
      ensures messages == ApplyLive(old(messages), e, now)
      ensures draft == old(draft) && notice == old(notice)
    {
      messages := ApplyLive(messages, e, now);
    }

    /**
     * `sendMessage`, up to the awaited send: with no room or a blank draft
     * nothing happens; with a blocked direct-message partner only the notice
     * changes and nothing is sent; otherwise one pending entry keyed by the new
     * transaction id goes on the tail, the draft is cleared and the send issued.
     * `room` is the selected room id while a client exists; `None` stands for
     * the guard `!client || !selectedRoom`, either half of it (`!selectedRoom`
     * also rejects `""`, a value room ids never take).
     */
    method SendMessage(room: Option<string>, userId: Option<string>, members: Option<seq<string>>,
                       blocked: BlockList.Stored, stamp: string, now: int)
      returns (send: Option<Outgoing>)
      modifies this
      ensures room.None? || Trim(old(draft)) == "" ==>
        send == None && messages == old(messages) && draft == old(draft) && notice == old(notice)
      ensures room.Some? && Trim(old(draft)) != "" && OtherIsBlocked(userId, members, blocked) ==>
        send == None && messages == old(messages) && draft == old(draft) && notice == Some(BlockedNotice)
      ensures room.Some? && Trim(old(draft)) != "" && !OtherIsBlocked(userId, members, blocked) ==>
        && send == Some(Outgoing(room.value, old(draft), SendPrefix + stamp))
        && messages == old(messages) + [Optimistic(SendPrefix + stamp, userId, old(draft), now)]
        && draft == "" && notice == Some(SendingNotice)
    {
      send := None;
      if room.None? || Trim(draft) == "" {
        return;
      }
      if OtherIsBlocked(userId, members, blocked) {
        notice := Some(BlockedNotice);
        return;
      }
      var txnId := SendPrefix + stamp;
      var optimistic := Optimistic(txnId, userId, draft, now);
      messages := messages + [optimistic];
      draft := "";
      notice := Some(SendingNotice);
      send := Some(Outgoing(room.value, optimistic.body, txnId));
    }

    /** The awaited send of `sendMessage` resolving or failing. */
    method CompleteSend(txnId: string, outcome: SendOutcome)
      modifies this
      ensures outcome.Delivered? ==>
        messages == ConfirmSend(old(messages), txnId, outcome.eventId) && notice == Some(SentNotice)
      ensures outcome.SendFailed? ==>
        messages == FailSend(old(messages), txnId) && notice == Some(SendFailedPrefix + outcome.message)
      ensures draft == old(draft)
    {
      match outcome
      case Delivered(eventId) =>
        messages := ConfirmSend(messages, txnId, eventId);
        notice := Some(SentNotice);
      case SendFailed(message) =>
        messages := FailSend(messages, txnId);
        notice := Some(SendFailedPrefix + message);
    }

    /**
     * `retrySend`, up to the awaited send: an unknown key changes nothing;
     * otherwise the matched entries become pending under the new transaction
     * id and the original body is sent again. The block list is not consulted.
     * `room` is as for `SendMessage`.
     */
    method RetrySend(room: Option<string>, key: string, stamp: string, now: int) returns (send: Option<Outgoing>)
      modifies this
      ensures room.None? || FindForRetry(old(messages), key).None? ==>
        send == None && messages == old(messages) && notice == old(notice)
      ensures room.Some? && FindForRetry(old(messages), key).Some? ==>
        var target := FindForRetry(old(messages), key).value;
        && send == Some(Outgoing(room.value, target.body, RetryPrefix + stamp))
        && messages == MarkRetrying(old(messages), target, RetryPrefix + stamp, now)
        && notice == Some(RetryingNotice)
      ensures draft == old(draft)
    {
      send := None;
      if room.None? {
        return;
      }
      var found := FindForRetry(messages, key);
      if found.None? {
        return;
      }
      var target := found.value;
      var txnId := RetryPrefix + stamp;
      messages := MarkRetrying(messages, target, txnId, now);
      notice := Some(RetryingNotice);
      send := Some(Outgoing(room.value, target.body, txnId));
    }

    /** The awaited send of `retrySend` resolving or failing. */
    method CompleteRetry(txnId: string, outcome: SendOutcome)
      modifies this
      ensures outcome.Delivered? ==>
        messages == ConfirmSend(old(messages), txnId, outcome.eventId) && notice == Some(SentNotice)
      ensures outcome.SendFailed? ==>
        messages == FailSend(old(messages), txnId) && notice == Some(RetryFailedPrefix + outcome.message)
      ensures draft == old(draft)
    {
      match outcome
      case Delivered(eventId) =>
        messages := ConfirmSend(messages, txnId, eventId);
        notice := Some(SentNotice);
      case SendFailed(message) =>
        messages := FailSend(messages, txnId);
        notice := Some(RetryFailedPrefix + message);
    }

    /**
     * One pass of the receipt poll over the timeline as it stood when the pass
     * began. `stopAt` is the number of entries handled before the pass was
     * cancelled (the view re-runs the poll whenever the timeline changes).
     */
    method PollReceipts(blocked: BlockList.Stored, answers: map<string, ReceiptAnswer>, stopAt: nat)
      modifies this
      ensures messages == PollPrefix(old(messages), blocked, answers, if stopAt < |old(messages)| then stopAt else |old(messages)|)
      ensures draft == old(draft) && notice == old(notice)
    {
      var snapshot := messages;
      var n := if stopAt < |snapshot| then stopAt else |snapshot|;
      var i := 0;
      while i < n
        invariant 0 <= i <= n
        invariant messages == PollPrefix(snapshot, blocked, answers, i)
        invariant draft == old(draft) && notice == old(notice)
      {
        var m := snapshot[i];
        if ReceiptEligible(m, blocked) {
          var answer := Answer(answers, m.id);
          if answer.Answered? {
            var receipts := FlattenReceipts(answer.groups);
            if |receipts| > 0 {
              messages := SetReceipts(messages, m.id, receipts);
            }
          }
        }
        i := i + 1;
      }
    }
  }
}
