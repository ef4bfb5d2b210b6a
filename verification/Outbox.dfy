/**
 The webhook outbox: its statements, and any number of workers sending its notifications with
 exponential backoff.
 */
module Outbox {
  import opened Options
  import opened JobTable

  datatype ItemStatus = Waiting | Processing | Processed | GivenUp

  datatype Item = Item(
    eventType: string,
    payload: string,
    url: string,
    status: ItemStatus,
    retryCount: nat,
    maxRetries: int,
    nextRetryAt: Time,
    createdAt: Time,
    processedAt: Option<Time>)

  function Pow2(n: nat): (p: nat)
    ensures p >= 1
  {
    if n == 0 then 1 else 2 * Pow2(n - 1)
  }

  /** The backoff doubles: 2, 4, 8, ... */
  lemma Pow2Doubles(n: nat)
    ensures Pow2(0) == 1 && Pow2(1) == 2 && Pow2(n + 1) == 2 * Pow2(n)
  {
  }

  function NewItem(eventType: string, payload: string, url: string, maxRetries: int, now: Time): Item {
    Item(eventType, payload, url, Waiting, 0, maxRetries, now, now, None)
  }

  predicate Due(rows: seq<Item>, i: nat, now: Time) {
    i < |rows| && rows[i].status.Waiting? && rows[i].nextRetryAt <= now
  }

  /** i is a row that the claim's SELECT may return when the rows in `locked` are skipped. */
  ghost predicate FirstDue(rows: seq<Item>, locked: set<nat>, i: nat, now: Time) {
    Due(rows, i, now) && i !in locked &&
    forall k: nat :: Due(rows, k, now) && k !in locked ==> rows[i].nextRetryAt <= rows[k].nextRetryAt
  }

  function ClaimedItem(x: Item): Item {
    x.(status := Processing)
  }

  function SentItem(x: Item, now: Time): Item {
    x.(status := Processed, processedAt := Some(now))
  }

  function UnsentItem(x: Item, now: Time): Item {
    if x.retryCount + 1 >= x.maxRetries
    then x.(status := GivenUp, retryCount := x.retryCount + 1)
    else x.(status := Waiting, retryCount := x.retryCount + 1,
            nextRetryAt := now + Pow2(x.retryCount + 1) * SECOND)
  }

  /** POST attempts a notification may get: at least one, whatever its limit. */
  function MaxPosts(x: Item): nat {
    if x.maxRetries > 1 then x.maxRetries else 1
  }

  // ---------- Many senders ----------

  /** Sending a row, or having marked it without learning so. */
  datatype Sender = Free | Posting(row: nat) | Marked(row: nat)

  /** posts[i] counts the attempts made for row i. */
  datatype OSys = OSys(rows: seq<Item>, senders: seq<Sender>, posts: seq<nat>, clock: Time)

  datatype OAction =
    | Enqueue(item: Item)
    | JoinSenders
    | StartSending(worker: nat, row: nat)
    | Delivered(worker: nat)         // the POST was accepted and the row marked
    | MarkReplyLost(worker: nat)     // the POST was accepted and the row marked, but the marking threw
    | NotDelivered(worker: nat)      // the POST failed or marking its success threw: marked as failed
    | Forgotten(worker: nat)         // the worker died or could not mark the failure: the row stays processing

  predicate IsSending(s: OSys, w: nat) {
    w < |s.senders| && !s.senders[w].Free? && s.senders[w].row < |s.rows|
  }

  predicate OEnabled(s: OSys, a: OAction, now: Time) {
    s.clock <= now &&
    match a
    case Enqueue(x) => x == NewItem(x.eventType, x.payload, x.url, x.maxRetries, now)
    case JoinSenders => true
    case StartSending(w, i) => w < |s.senders| && s.senders[w].Free? && Due(s.rows, i, now) && i < |s.posts|
    case Delivered(w) => IsSending(s, w) && s.senders[w].Posting?
    case MarkReplyLost(w) => IsSending(s, w) && s.senders[w].Posting?
    case NotDelivered(w) => IsSending(s, w)
    case Forgotten(w) => IsSending(s, w)
  }

  function OApply(s: OSys, a: OAction, now: Time): OSys
    requires OEnabled(s, a, now)
  {
    var s := s.(clock := now);
    match a
    case Enqueue(x) => s.(rows := s.rows + [x], posts := s.posts + [0])
    case JoinSenders => s.(senders := s.senders + [Free])
    case StartSending(w, i) =>
      s.(rows := s.rows[i := ClaimedItem(s.rows[i])], senders := s.senders[w := Posting(i)],
         posts := s.posts[i := s.posts[i] + 1])
    case Delivered(w) =>
      var i := s.senders[w].row;
      s.(rows := s.rows[i := SentItem(s.rows[i], now)], senders := s.senders[w := Free])
    case MarkReplyLost(w) =>
      var i := s.senders[w].row;
      s.(rows := s.rows[i := SentItem(s.rows[i], now)], senders := s.senders[w := Marked(i)])
    case NotDelivered(w) =>
      var i := s.senders[w].row;
      s.(rows := s.rows[i := UnsentItem(s.rows[i], now)], senders := s.senders[w := Free])
    case Forgotten(w) => s.(senders := s.senders[w := Free])
  }

  predicate OStep(s: OSys, a: OAction, now: Time, s': OSys) {
    OEnabled(s, a, now) && s' == OApply(s, a, now)
  }

  /** What a sender may do: claim any due row when free, and end or lose an attempt in any way when not. */
  lemma SendersMayAct(s: OSys, w: nat, i: nat, x: Item, now: Time)
    requires s.clock <= now
    ensures OEnabled(s, JoinSenders, now)
    ensures x == Item(x.eventType, x.payload, x.url, Waiting, 0, x.maxRetries, now, now, None) ==>
      OEnabled(s, Enqueue(x), now)
    ensures i < |s.rows| && i < |s.posts| ==>
      var due := s.rows[i].status == Waiting && s.rows[i].nextRetryAt <= now;
      w < |s.senders| && s.senders[w] == Free && due ==> OEnabled(s, StartSending(w, i), now)
    ensures w < |s.senders| && i < |s.rows| && s.senders[w] == Posting(i) ==>
      OEnabled(s, Delivered(w), now) && OEnabled(s, MarkReplyLost(w), now)
    ensures w < |s.senders| && i < |s.rows| && s.senders[w] in {Posting(i), Marked(i)} ==>
      OEnabled(s, NotDelivered(w), now) && OEnabled(s, Forgotten(w), now)
  {
  }

  /** Attempt n + 1 may start from createdAt plus the backoff of n failures, 2 + 4 + ... + 2^n seconds. */
  function EarliestPost(x: Item, n: nat): Time {
    x.createdAt + (Pow2(n + 1) - 2) * SECOND
  }

  predicate ItemOk(x: Item, posts: nat, clock: Time) {
    (x.status.Processed? ==> x.processedAt.Some?) &&
    match x.status
    case Waiting =>
      posts == x.retryCount && x.retryCount < MaxPosts(x) && x.nextRetryAt >= EarliestPost(x, x.retryCount)
    case Processing =>
      posts == x.retryCount + 1 && x.retryCount < MaxPosts(x) && clock >= EarliestPost(x, x.retryCount)
    case Processed =>
      posts == x.retryCount + 1 && x.retryCount < MaxPosts(x) && clock >= EarliestPost(x, x.retryCount)
    case GivenUp => posts == x.retryCount && x.retryCount == MaxPosts(x)
  }

  predicate SenderOk(rows: seq<Item>, x: Sender) {
    match x
    case Free => true
    case Posting(i) => i < |rows| && rows[i].status.Processing?
    case Marked(i) => i < |rows| && rows[i].status.Processed?
  }

  predicate SendersOk(rows: seq<Item>, senders: seq<Sender>) {
    (forall w :: 0 <= w < |senders| ==> SenderOk(rows, senders[w])) &&
    (forall v, w :: 0 <= v < |senders| && 0 <= w < |senders| && v != w && !senders[v].Free? && !senders[w].Free? ==>
       senders[v].row != senders[w].row)
  }

  predicate OutboxOk(s: OSys) {
    |s.posts| == |s.rows| && SendersOk(s.rows, s.senders) &&
    forall i :: 0 <= i < |s.rows| ==> ItemOk(s.rows[i], s.posts[i], s.clock)
  }

  /** A failure's new retry time continues the backoff sum. */
  lemma UnsentItemOk(x: Item, posts: nat, clock: Time, now: Time)
    requires ItemOk(x, posts, clock) && (x.status.Processing? || x.status.Processed?) && clock <= now
    ensures ItemOk(UnsentItem(x, now), posts, now)
  {
    var n := x.retryCount;
    assert Pow2(n + 2) == 2 * Pow2(n + 1);
    assert (Pow2(n + 1) - 2) * SECOND + Pow2(n + 1) * SECOND == (Pow2(n + 2) - 2) * SECOND;
  }

  lemma StepKeepsSendersOk(s: OSys, a: OAction, now: Time, s': OSys)
    requires SendersOk(s.rows, s.senders) && OStep(s, a, now, s')
    ensures SendersOk(s'.rows, s'.senders)
  {
  }

  lemma StepKeepsOutboxOk(s: OSys, a: OAction, now: Time, s': OSys)
    requires OutboxOk(s) && OStep(s, a, now, s')
    ensures OutboxOk(s')
  {
    StepKeepsSendersOk(s, a, now, s');
    if a.NotDelivered? {
      var i := s.senders[a.worker].row;
      UnsentItemOk(s.rows[i], s.posts[i], s.clock, now);
    }
  }

  datatype OEvent = OEvent(action: OAction, now: Time)

  predicate OStepAt(states: seq<OSys>, events: seq<OEvent>, k: nat) {
    k < |events| && k + 1 < |states| && OStep(states[k], events[k].action, events[k].now, states[k + 1])
  }

  ghost predicate IsORun(states: seq<OSys>, events: seq<OEvent>) {
    |states| == |events| + 1 && forall k: nat :: k < |events| ==> OStepAt(states, events, k)
  }

  lemma {:induction false} OutboxAlwaysOk(states: seq<OSys>, events: seq<OEvent>, k: nat)
    requires IsORun(states, events) && OutboxOk(states[0]) && k < |states|
    ensures OutboxOk(states[k])
  {
    if k > 0 {
      OutboxAlwaysOk(states, events, k - 1);
      assert OStepAt(states, events, k - 1);
      StepKeepsOutboxOk(states[k - 1], events[k - 1].action, events[k - 1].now, states[k]);
    }
  }

  /** In every run from an empty outbox a notification gets at most max(1, max_retries) POST attempts. */
  lemma PostsAreBounded(states: seq<OSys>, events: seq<OEvent>, k: nat, i: nat)
    requires IsORun(states, events) && OutboxOk(states[0]) && k < |states| && i < |states[k].rows|
    ensures i < |states[k].posts| && states[k].posts[i] <= MaxPosts(states[k].rows[i])
  {
    OutboxAlwaysOk(states, events, k);
  }

  /** No notification is ever in flight from two workers. */
  lemma OneSenderPerNotification(states: seq<OSys>, events: seq<OEvent>, k: nat, v: nat, w: nat)
    requires IsORun(states, events) && OutboxOk(states[0]) && k < |states|
    requires IsSending(states[k], v) && IsSending(states[k], w)
    requires states[k].senders[v].row == states[k].senders[w].row
    ensures v == w
  {
    OutboxAlwaysOk(states, events, k);
  }

  /** Attempt n + 1 of a notification starts no earlier than its enqueueing plus 2^(n+1) - 2 seconds. */
  lemma BackoffIsRespected(states: seq<OSys>, events: seq<OEvent>, k: nat)
    requires IsORun(states, events) && OutboxOk(states[0]) && k < |events| && events[k].action.StartSending?
    ensures var i := events[k].action.row;
      i < |states[k].rows| && i < |states[k].posts| &&
      events[k].now >= states[k].rows[i].createdAt + (Pow2(states[k].posts[i] + 1) - 2) * SECOND
  {
    OutboxAlwaysOk(states, events, k);
    assert OStepAt(states, events, k);
  }

  // ---------- Accepted, and sent again ----------

  /** The row was marked processed, and is now marked failed by the worker that did not learn so. */
  predicate Unmarks(s: OSys, a: OAction, i: nat) {
    a.NotDelivered? && a.worker < |s.senders| && s.senders[a.worker] == Marked(i)
  }

  predicate IsProcessed(states: seq<OSys>, n: nat, i: nat) {
    n < |states| && i < |states[n].rows| && states[n].rows[i].status.Processed?
  }

  ghost predicate StaysProcessed(states: seq<OSys>, m: nat, k: nat, i: nat) {
    forall n: nat :: m <= n <= k ==> IsProcessed(states, n, i)
  }

  ghost predicate NeverUnmarked(states: seq<OSys>, events: seq<OEvent>, m: nat, k: nat, i: nat)
    requires k <= |events| < |states|
  {
    forall n: nat :: m <= n < k ==> !Unmarks(states[n], events[n].action, i)
  }

  lemma ProcessedLeavesIff(s: OSys, a: OAction, now: Time, s': OSys, i: nat)
    requires OutboxOk(s) && OStep(s, a, now, s') && i < |s.rows| && s.rows[i].status.Processed?
    ensures i < |s'.rows| && (!s'.rows[i].status.Processed? <==> Unmarks(s, a, i))
    ensures s'.rows[i].processedAt.Some?
  {
  }

  /**
   A notification marked processed stays so, and is never sent again, as long as, and only as long
   as, no worker that marked it but lost the reply marks it failed.
   */
  lemma {:induction false} ProcessedStaysIff(states: seq<OSys>, events: seq<OEvent>, m: nat, k: nat, i: nat)
    requires IsORun(states, events) && OutboxOk(states[0]) && m <= k < |states| && IsProcessed(states, m, i)
    ensures StaysProcessed(states, m, k, i) <==> NeverUnmarked(states, events, m, k, i)
    decreases k
  {
    if m < k {
      ProcessedStaysIff(states, events, m, k - 1, i);
      OutboxAlwaysOk(states, events, k - 1);
      assert OStepAt(states, events, k - 1);
      var s, e := states[k - 1], events[k - 1];
      if IsProcessed(states, k - 1, i) { ProcessedLeavesIff(s, e.action, e.now, states[k], i); }
      assert StaysProcessed(states, m, k, i) <==>
        StaysProcessed(states, m, k - 1, i) && IsProcessed(states, k, i);
      assert NeverUnmarked(states, events, m, k, i) <==>
        NeverUnmarked(states, events, m, k - 1, i) && !Unmarks(s, e.action, i);
    }
  }

  /** It happens: an accepted notification with a retry left waits again, still stamped as processed. */
  lemma AcceptedIsSentAgain(s: OSys, w: nat, i: nat, now: Time) returns (s1: OSys, s2: OSys, s3: OSys)
    requires OutboxOk(s) && s.clock <= now && w < |s.senders| && s.senders[w].Free? && Due(s.rows, i, now)
    requires s.rows[i].retryCount + 1 < s.rows[i].maxRetries
    ensures OStep(s, StartSending(w, i), now, s1) && OStep(s1, MarkReplyLost(w), now, s2)
    ensures OStep(s2, NotDelivered(w), now, s3)
    ensures i < |s2.rows| && s2.rows[i].status.Processed?
    ensures i < |s3.rows| && s3.rows[i].status.Waiting? && s3.rows[i].processedAt.Some?
  {
    s1 := OApply(s, StartSending(w, i), now);
    s2 := OApply(s1, MarkReplyLost(w), now);
    s3 := OApply(s2, NotDelivered(w), now);
  }
}
