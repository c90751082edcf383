/** What a scheduler tick guarantees about the outbox, proved about `Tick`. */
module OutboxSchedulerProperties {
  import opened Results
  import opened ProcessMessageEntity
  import opened ProcessMessageJpaRepository
  import opened ProcessEngineOutboxScheduler

  function PendingCount(ms: seq<ProcessMessage>): (n: nat)
    ensures n <= |ms|
    decreases |ms|
  {
    if ms == [] then 0 else (if ms[0].status == PENDING then 1 else 0) + PendingCount(ms[1..])
  }

  lemma {:induction false} PendingCountPositive(ms: seq<ProcessMessage>)
    ensures PendingCount(ms) > 0 <==> HasStatus(ms, PENDING)
    decreases |ms|
  {
    if ms != [] {
      PendingCountPositive(ms[1..]);
      if HasStatus(ms[1..], PENDING) {
        var j :| 0 <= j < |ms[1..]| && ms[1..][j].status == PENDING;
        assert ms[j + 1].status == PENDING;
      }
      if HasStatus(ms, PENDING) && ms[0].status != PENDING {
        var j :| 0 <= j < |ms| && ms[j].status == PENDING;
        assert ms[1..][j - 1].status == PENDING;
      }
    }
  }

  lemma {:induction false} PendingCountUpdate(ms: seq<ProcessMessage>, i: nat, x: ProcessMessage)
    requires i < |ms|
    ensures PendingCount(ms[i := x]) + (if ms[i].status == PENDING then 1 else 0)
         == PendingCount(ms) + (if x.status == PENDING then 1 else 0)
    decreases |ms|
  {
    if i > 0 {
      assert ms[i := x][1..] == ms[1..][i - 1 := x];
      PendingCountUpdate(ms[1..], i - 1, x);
    }
  }

  /** A successful send takes exactly one message out of PENDING. */
  lemma ClaimAndSendSuccessSendsOne(ms: seq<ProcessMessage>)
    requires HasStatus(ms, PENDING)
    ensures PendingCount(ClaimAndSend(ms, true)) == PendingCount(ms) - 1
  {
    var i := OldestWithStatus(ms, PENDING).value;
    PendingCountUpdate(ms, i, SendAttempt(ms[i], true));
    assert ClaimAndSend(ms, true) == ms[i := SendAttempt(ms[i], true)];
  }

  /** If every send succeeds and there is an outcome for each PENDING
      message, the tick processes exactly the PENDING messages,
      ends because a claim came back empty, and leaves none PENDING. */
  lemma {:induction false} TickAllSucceeding(ms: seq<ProcessMessage>, sendOutcomes: seq<bool>)
    requires forall k :: 0 <= k < |sendOutcomes| ==> sendOutcomes[k]
    requires |sendOutcomes| >= PendingCount(ms)
    ensures Tick(ms, sendOutcomes).processed == PendingCount(ms)
    ensures Tick(ms, sendOutcomes).drained
    ensures PendingCount(Tick(ms, sendOutcomes).messages) == 0
    decreases |sendOutcomes|
  {
    PendingCountPositive(ms);
    if HasStatus(ms, PENDING) {
      ClaimAndSendSuccessSendsOne(ms);
      TickAllSucceeding(ClaimAndSend(ms, true), sendOutcomes[1..]);
    }
  }

  /** The claim looks only at statuses and creation times. */
  lemma {:induction false} OldestDependsOnlyOnKeys(ms: seq<ProcessMessage>, ns: seq<ProcessMessage>, s: MessageStatus)
    requires |ms| == |ns|
    requires forall k :: 0 <= k < |ms| ==> ms[k].status == ns[k].status && ms[k].createdAt == ns[k].createdAt
    ensures OldestWithStatus(ms, s) == OldestWithStatus(ns, s)
    decreases |ms|
  {
    if ms != [] {
      OldestDependsOnlyOnKeys(ms[..|ms| - 1], ns[..|ns| - 1], s);
    }
  }

  /** A failed send leaves the claimed message the oldest PENDING one. */
  lemma FailedSendIsReclaimed(ms: seq<ProcessMessage>, i: nat)
    requires OldestWithStatus(ms, PENDING) == Some(i)
    ensures OldestWithStatus(ClaimAndSend(ms, false), PENDING) == Some(i)
    ensures ClaimAndSend(ms, false) == ms[i := ms[i].(retryCount := ms[i].retryCount + 1)]
  {
    OldestDependsOnlyOnKeys(ms, ClaimAndSend(ms, false), PENDING);
  }

  /** With no retry ceiling and no FAILED status, a message whose sends keep
      failing is claimed again at once on every iteration: the tick uses all
      its fuel on it, never drains, and only that message's retry count moves,
      by one per attempt. */
  lemma {:induction false} TickAllFailing(ms: seq<ProcessMessage>, sendOutcomes: seq<bool>, i: nat)
    requires forall k :: 0 <= k < |sendOutcomes| ==> !sendOutcomes[k]
    requires OldestWithStatus(ms, PENDING) == Some(i)
    ensures Tick(ms, sendOutcomes).processed == |sendOutcomes|
    ensures !Tick(ms, sendOutcomes).drained
    ensures Tick(ms, sendOutcomes).messages == ms[i := ms[i].(retryCount := ms[i].retryCount + |sendOutcomes|)]
    decreases |sendOutcomes|
  {
    if sendOutcomes != [] {
      FailedSendIsReclaimed(ms, i);
      var next := ClaimAndSend(ms, false);
      TickAllFailing(next, sendOutcomes[1..], i);
      assert next[i := next[i].(retryCount := next[i].retryCount + |sendOutcomes| - 1)]
          == ms[i := ms[i].(retryCount := ms[i].retryCount + |sendOutcomes|)];
    }
  }

  /** Across a tick every message keeps its identity and contents, its retry
      count never decreases, and a SENT message is never touched again. */
  lemma {:induction false} TickMonotone(ms: seq<ProcessMessage>, sendOutcomes: seq<bool>)
    ensures forall j :: 0 <= j < |ms| ==>
      var after := Tick(ms, sendOutcomes).messages[j];
      SameMessage(after, ms[j]) && after.retryCount >= ms[j].retryCount &&
      (ms[j].status == SENT ==> after == ms[j])
    decreases |sendOutcomes|
  {
    if sendOutcomes != [] && HasStatus(ms, PENDING) {
      TickMonotone(ClaimAndSend(ms, sendOutcomes[0]), sendOutcomes[1..]);
    }
  }
}
