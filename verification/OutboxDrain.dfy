/**
 The webhook service over the outbox it updates in place, and the worker's drain loop, which ends
 whatever the receivers answer and whatever other workers do meanwhile.
 */
module OutboxDrain {
  import opened Options
  import opened JobTable
  import opened Sums
  import opened Outbox

  // ---------- What other workers do ----------

  /**
   Another worker's statement; it can report only a row in flight that is not ours. `marked` is when
   it marked the row processed before, if it did but lost the reply; no claim can come between.
   */
  datatype OtherAct =
    | OtherClaim(row: nat)
    | OtherSent(row: nat, now: Time)
    | OtherUnsent(row: nat, marked: Option<Time>, now: Time)

  function MarkedItem(x: Item, marked: Option<Time>): Item {
    match marked
    case None => x
    case Some(now) => SentItem(x, now)
  }

  function Interfered(rows: seq<Item>, act: OtherAct, ours: Option<nat>): (r: seq<Item>) {
    var i := act.row;
    if i >= |rows| || ours == Some(i) then rows
    else match act
      case OtherClaim(_) => if rows[i].status.Waiting? then rows[i := ClaimedItem(rows[i])] else rows
      case OtherSent(_, now) => if rows[i].status.Processing? then rows[i := SentItem(rows[i], now)] else rows
      case OtherUnsent(_, marked, now) =>
        if rows[i].status.Processing? then rows[i := UnsentItem(MarkedItem(rows[i], marked), now)] else rows
  }

  function InterferedAll(rows: seq<Item>, acts: seq<OtherAct>, ours: Option<nat>): (r: seq<Item>) {
    if acts == [] then rows
    else Interfered(InterferedAll(rows, acts[..|acts| - 1], ours), acts[|acts| - 1], ours)
  }

  /**
   Whatever another sender does to a row that is not ours is interference: its claim, its report, and
   its failure report after a marking whose reply it lost, which counts from before the marking.
   */
  lemma SendersInterfere(s: OSys, w: nat, i: nat, now: Time, later: Time, ours: Option<nat>)
    requires OutboxOk(s) && s.clock <= now <= later && i < |s.rows| && ours != Some(i)
    ensures OEnabled(s, StartSending(w, i), now) ==>
      Interfered(s.rows, OtherClaim(i), ours) == OApply(s, StartSending(w, i), now).rows
    ensures w < |s.senders| && s.senders[w] == Posting(i) ==>
      Interfered(s.rows, OtherSent(i, now), ours) == OApply(s, Delivered(w), now).rows
    ensures w < |s.senders| && s.senders[w] == Posting(i) ==>
      Interfered(s.rows, OtherUnsent(i, None, now), ours) == OApply(s, NotDelivered(w), now).rows
    ensures w < |s.senders| && s.senders[w] == Posting(i) ==>
      Interfered(s.rows, OtherUnsent(i, Some(now), later), ours) ==
        OApply(OApply(s, OAction.MarkReplyLost(w), now), NotDelivered(w), later).rows
  {
  }

  // ---------- Remaining attempts ----------

  /** A row that may still be sent has attempts left. */
  predicate HasAttempts(x: Item) {
    x.status.Waiting? || x.status.Processing? ==> x.retryCount < MaxPosts(x)
  }

  predicate AllHaveAttempts(rows: seq<Item>) {
    forall i :: 0 <= i < |rows| ==> HasAttempts(rows[i])
  }

  /** Claims the row may still see; the one in flight is spent. */
  function Remaining(x: Item): nat
    requires HasAttempts(x)
  {
    match x.status
    case Waiting => MaxPosts(x) - x.retryCount
    case Processing => MaxPosts(x) - x.retryCount - 1
    case _ => 0
  }

  function Remainders(rows: seq<Item>): (r: seq<nat>)
    requires AllHaveAttempts(rows)
  {
    seq(|rows|, i requires 0 <= i < |rows| => Remaining(rows[i]))
  }

  function ClaimsLeft(rows: seq<Item>): nat
    requires AllHaveAttempts(rows)
  {
    Sum(Remainders(rows))
  }

  lemma RowUpdate(rows: seq<Item>, i: nat, x: Item)
    requires AllHaveAttempts(rows) && i < |rows| && HasAttempts(x)
    ensures AllHaveAttempts(rows[i := x])
    ensures ClaimsLeft(rows[i := x]) == ClaimsLeft(rows) - Remaining(rows[i]) + Remaining(x)
  {
    SumUpdate(Remainders(rows), i, Remaining(x));
    assert Remainders(rows[i := x]) == Remainders(rows)[i := Remaining(x)];
  }

  /** Interference never adds claims, and leaves our row alone. */
  lemma {:induction false} InterferenceAddsNoClaims(rows: seq<Item>, acts: seq<OtherAct>, ours: Option<nat>)
    requires AllHaveAttempts(rows)
    ensures var rows' := InterferedAll(rows, acts, ours);
      |rows'| == |rows| && AllHaveAttempts(rows') && ClaimsLeft(rows') <= ClaimsLeft(rows) &&
      (ours.Some? && ours.value < |rows| ==> rows'[ours.value] == rows[ours.value])
  {
    if acts != [] {
      InterferenceAddsNoClaims(rows, acts[..|acts| - 1], ours);
      var before, act := InterferedAll(rows, acts[..|acts| - 1], ours), acts[|acts| - 1];
      if act.row < |before| && InterferedAll(rows, acts, ours) != before {
        RowUpdate(before, act.row, InterferedAll(rows, acts, ours)[act.row]);
      }
    }
  }

  // ---------- The service ----------

  /** What comes of a POST: accepted and marked so; marked, but the reply lost; or neither. */
  datatype Answer = Accepted | MarkReplyLost(markedAt: Time) | Rejected

  /** What surrounds one call of processOneWebhook. */
  datatype Round = Round(
    before: seq<OtherAct>,     // other workers, since the last call
    locked: set<nat>,          // rows other transactions hold when the claim scans
    claimedAt: Time,
    during: seq<OtherAct>,     // other workers, while the POST is under way
    answer: Answer,
    reportedAt: Time)

  /** Every row that was due when the claim scanned was locked. */
  ghost predicate NoneDue(rows: seq<Item>, round: Round) {
    forall k: nat :: Due(rows, k, round.claimedAt) ==> k in round.locked
  }

  function AnsweredItem(x: Item, round: Round): Item {
    match round.answer
    case Accepted => SentItem(x, round.reportedAt)
    case MarkReplyLost(t) => UnsentItem(SentItem(x, t), round.reportedAt)
    case Rejected => UnsentItem(x, round.reportedAt)
  }

  /** Row i of the scanned table is claimed, sent while others act, and reported. */
  function AfterSending(scanned: seq<Item>, i: nat, round: Round): seq<Item>
    requires i < |scanned|
  {
    var sent := InterferedAll(scanned[i := ClaimedItem(scanned[i])], round.during, Some(i));
    if i >= |sent| then sent else sent[i := AnsweredItem(sent[i], round)]
  }

  /** The call sent row i, the first due one. */
  ghost predicate SentFirstDue(rows: seq<Item>, round: Round, i: nat, rows': seq<Item>) {
    var scanned := InterferedAll(rows, round.before, None);
    FirstDue(scanned, round.locked, i, round.claimedAt) && rows' == AfterSending(scanned, i, round)
  }

  /** What an answer does to the row that was sent, and nothing to any other. */
  lemma AnswerInColumns(scanned: seq<Item>, i: nat, round: Round)
    requires AllHaveAttempts(scanned) && i < |scanned| && scanned[i].status == Waiting
    ensures |AfterSending(scanned, i, round)| == |scanned|
    ensures var x, y := scanned[i], AfterSending(scanned, i, round)[i];
      match round.answer
      case Accepted => y == x.(status := Processed, processedAt := Some(round.reportedAt))
      case Rejected =>
        y == (if x.retryCount + 1 >= x.maxRetries then x.(status := GivenUp, retryCount := x.retryCount + 1)
              else x.(status := Waiting, retryCount := x.retryCount + 1,
                      nextRetryAt := round.reportedAt + Pow2(x.retryCount + 1) * 1_000_000))
      case MarkReplyLost(t) =>
        y == (if x.retryCount + 1 >= x.maxRetries
              then x.(status := GivenUp, retryCount := x.retryCount + 1, processedAt := Some(t))
              else x.(status := Waiting, retryCount := x.retryCount + 1, processedAt := Some(t),
                      nextRetryAt := round.reportedAt + Pow2(x.retryCount + 1) * 1_000_000))
    ensures var others := InterferedAll(scanned[i := scanned[i].(status := Processing)], round.during, Some(i));
      |others| == |scanned| &&
      forall k :: 0 <= k < |scanned| && k != i ==> AfterSending(scanned, i, round)[k] == others[k]
  {
    RowUpdate(scanned, i, ClaimedItem(scanned[i]));
    InterferenceAddsNoClaims(scanned[i := ClaimedItem(scanned[i])], round.during, Some(i));
  }

  /** An answer is a step of the many-sender layer, or two for a lost reply. */
  lemma AnswerIsSteps(s: OSys, w: nat, i: nat, round: Round) returns (s1: OSys, s2: OSys, s3: OSys)
    requires OutboxOk(s) && s.clock <= round.claimedAt <= round.reportedAt && round.during == []
    requires round.answer.MarkReplyLost? ==> round.claimedAt <= round.answer.markedAt <= round.reportedAt
    requires w < |s.senders| && s.senders[w].Free? && Due(s.rows, i, round.claimedAt)
    ensures OStep(s, StartSending(w, i), round.claimedAt, s1)
    ensures match round.answer
      case Accepted => s2 == s1 && OStep(s2, Delivered(w), round.reportedAt, s3)
      case Rejected => s2 == s1 && OStep(s2, NotDelivered(w), round.reportedAt, s3)
      case MarkReplyLost(t) =>
        OStep(s1, OAction.MarkReplyLost(w), t, s2) && OStep(s2, NotDelivered(w), round.reportedAt, s3)
    ensures s3.rows == AfterSending(s.rows, i, round)
  {
    s1 := OApply(s, StartSending(w, i), round.claimedAt);
    match round.answer {
      case Accepted =>
        s2 := s1;
        s3 := OApply(s2, Delivered(w), round.reportedAt);
      case Rejected =>
        s2 := s1;
        s3 := OApply(s2, NotDelivered(w), round.reportedAt);
      case MarkReplyLost(t) =>
        s2 := OApply(s1, OAction.MarkReplyLost(w), t);
        s3 := OApply(s2, NotDelivered(w), round.reportedAt);
    }
  }

  class Store {
    var rows: seq<Item>

    constructor ()
      ensures rows == []
    {
      rows := [];
    }

    method EnqueueNotification(eventType: string, payload: string, url: string, maxRetries: int, now: Time)
      returns (id: nat)
      modifies this
      ensures id == old(|rows|)
      ensures rows == old(rows) + [Item(eventType, payload, url, Waiting, 0, maxRetries, now, now, None)]
    {
      id := |rows|;
      rows := rows + [NewItem(eventType, payload, url, maxRetries, now)];
    }

    method ClaimNextWebhook(locked: set<nat>, now: Time) returns (item: Option<nat>)
      modifies this
      ensures item.None? ==> rows == old(rows) && forall k: nat :: Due(rows, k, now) ==> k in locked
      ensures item.Some? ==> FirstDue(old(rows), locked, item.value, now)
      ensures item.Some? ==> rows == old(rows)[item.value := old(rows)[item.value].(status := Processing)]
      ensures item.Some? ==>
        var x := old(rows)[item.value];
        x.status == Waiting && x.nextRetryAt <= now && item.value !in locked &&
        forall k: nat :: k < |old(rows)| && k !in locked && old(rows)[k].status == Waiting ==>
          x.nextRetryAt <= old(rows)[k].nextRetryAt
      ensures item.None? ==>
        forall k: nat :: k < |rows| && k !in locked && rows[k].status == Waiting ==> now < rows[k].nextRetryAt
    {
      item := None;
      for i := 0 to |rows|
        invariant rows == old(rows)
        invariant item.None? ==> forall k: nat :: k < i && Due(rows, k, now) ==> k in locked
        invariant item.Some? ==> item.value < i && Due(rows, item.value, now) && item.value !in locked
        invariant item.Some? ==> forall k: nat :: k < i && Due(rows, k, now) && k !in locked ==>
          rows[item.value].nextRetryAt <= rows[k].nextRetryAt
      {
        if i !in locked && Due(rows, i, now) && (item.None? || rows[i].nextRetryAt < rows[item.value].nextRetryAt) {
          item := Some(i);
        }
      }
      if item.Some? {
        rows := rows[item.value := rows[item.value].(status := Processing)];
      }
    }

    method MarkWebhookProcessed(id: nat, now: Time)
      modifies this
      ensures rows == if id < old(|rows|) then old(rows)[id := SentItem(old(rows)[id], now)] else old(rows)
      ensures id < |rows| ==>
        rows == old(rows)[id := old(rows)[id].(status := Processed, processedAt := Some(now))]
    {
      if id < |rows| {
        rows := rows[id := rows[id].(status := Processed, processedAt := Some(now))];
      }
    }

    method MarkWebhookFailed(id: nat, now: Time)
      modifies this
      ensures rows == if id < old(|rows|) then old(rows)[id := UnsentItem(old(rows)[id], now)] else old(rows)
      ensures id < |rows| ==>
        var x, n := old(rows)[id], old(rows)[id].retryCount + 1;
        rows == old(rows)[id :=
          if n >= x.maxRetries then x.(status := GivenUp, retryCount := n)
          else x.(status := Waiting, retryCount := n, nextRetryAt := now + Pow2(n) * 1_000_000)]
    {
      if id < |rows| {
        var x := rows[id];
        if x.retryCount + 1 >= x.maxRetries {
          rows := rows[id := x.(status := GivenUp, retryCount := x.retryCount + 1)];
        } else {
          rows := rows[id := x.(status := Waiting, retryCount := x.retryCount + 1,
                                nextRetryAt := now + Pow2(x.retryCount + 1) * SECOND)];
        }
      }
    }

    /** Other workers act on the same table. */
    method Interfere(acts: seq<OtherAct>, ours: Option<nat>)
      modifies this
      ensures rows == InterferedAll(old(rows), acts, ours)
    {
      for k := 0 to |acts|
        invariant rows == InterferedAll(old(rows), acts[..k], ours)
      {
        rows := Interfered(rows, acts[k], ours);
        assert acts[..k + 1][..k] == acts[..k];
      }
      assert acts[..|acts|] == acts;
    }

    /** What the try and the catch do with the answer. */
    method ReportAnswer(id: nat, round: Round)
      requires id < |rows|
      modifies this
      ensures rows == old(rows)[id := AnsweredItem(old(rows)[id], round)]
    {
      match round.answer {
        case Accepted => MarkWebhookProcessed(id, round.reportedAt);
        case MarkReplyLost(t) =>
          MarkWebhookProcessed(id, t);
          MarkWebhookFailed(id, round.reportedAt);
        case Rejected => MarkWebhookFailed(id, round.reportedAt);
      }
    }

    /** One call, with what other workers do before the claim and during the POST. */
    method ProcessOneWebhook(round: Round) returns (did: bool, ghost i: nat)
      requires AllHaveAttempts(rows)
      modifies this
      ensures AllHaveAttempts(rows) && |rows| == old(|rows|)
      ensures did ==> SentFirstDue(old(rows), round, i, rows) && i < |rows|
      ensures did ==>
        var scanned := InterferedAll(old(rows), round.before, None);
        i < |scanned| &&
        var x := scanned[i];
        match round.answer
        case Accepted => rows[i] == x.(status := Processed, processedAt := Some(round.reportedAt))
        case Rejected =>
          rows[i] == (if x.retryCount + 1 >= x.maxRetries then x.(status := GivenUp, retryCount := x.retryCount + 1)
                      else x.(status := Waiting, retryCount := x.retryCount + 1,
                              nextRetryAt := round.reportedAt + Pow2(x.retryCount + 1) * 1_000_000))
        case MarkReplyLost(t) =>
          rows[i].processedAt == Some(t) && rows[i].retryCount == x.retryCount + 1 &&
          rows[i].status == if x.retryCount + 1 >= x.maxRetries then GivenUp else Waiting
      ensures ClaimsLeft(rows) + (if did then 1 else 0) <= ClaimsLeft(old(rows))
      ensures !did ==> rows == InterferedAll(old(rows), round.before, None)
      ensures !did ==> NoneDue(rows, round)
      ensures !did ==> forall k: nat :: k < |rows| && k !in round.locked && rows[k].status == Waiting ==>
        round.claimedAt < rows[k].nextRetryAt
    {
      InterferenceAddsNoClaims(rows, round.before, None);
      Interfere(round.before, None);
      ghost var scanned := rows;
      var item := ClaimNextWebhook(round.locked, round.claimedAt);
      if item.None? { return false, 0; }
      var id := item.value;
      i := id;
      RowUpdate(scanned, i, ClaimedItem(scanned[i]));
      AnswerInColumns(scanned, i, round);
      InterferenceAddsNoClaims(rows, round.during, item);
      Interfere(round.during, item);
      ghost var sent := rows;
      ReportAnswer(id, round);
      RowUpdate(sent, i, AnsweredItem(sent[i], round));
      did := true;
      assert rows == AfterSending(scanned, i, round);
    }

    /**
     The drain loop of the worker. It ends after at most one call more than there are claims left,
     and unless the worker is being stopped, only when no row is due and unlocked.
     */
    method Drain(rounds: nat -> Round, aborted: nat -> bool) returns (calls: nat, did: bool)
      requires AllHaveAttempts(rows)
      modifies this
      ensures AllHaveAttempts(rows) && 1 <= calls <= ClaimsLeft(old(rows)) + 1
      ensures ClaimsLeft(rows) + (if did then calls else calls - 1) <= ClaimsLeft(old(rows))
      ensures did ==> aborted(calls - 1)
      ensures !did ==> forall k: nat :: k < |rows| && k !in rounds(calls - 1).locked && rows[k].status == Waiting ==>
        rounds(calls - 1).claimedAt < rows[k].nextRetryAt
    {
      ghost var sent: nat;
      did, sent := ProcessOneWebhook(rounds(0));
      calls := 1;
      while did && !aborted(calls - 1)
        invariant calls >= 1 && AllHaveAttempts(rows)
        invariant ClaimsLeft(rows) + (if did then calls else calls - 1) <= ClaimsLeft(old(rows))
        invariant !did ==>
          forall k: nat :: k < |rows| && k !in rounds(calls - 1).locked && rows[k].status == Waiting ==>
            rounds(calls - 1).claimedAt < rows[k].nextRetryAt
        decreases did, ClaimsLeft(rows)
      {
        did, sent := ProcessOneWebhook(rounds(calls));
        calls := calls + 1;
      }
    }
  }
}
