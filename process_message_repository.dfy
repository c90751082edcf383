/** The outbox table and its queries: `save` by primary key, the claim query
    `findFirstByStatusWithLock` and `findAllByStatusOrderByCreatedAtAsc`.
    Queries are functions of the stored sequence, so they change nothing. */
module ProcessMessageJpaRepository {
  import opened Results
  import opened ProcessMessageEntity

  predicate HasStatus(ms: seq<ProcessMessage>, s: MessageStatus)
  {
    exists i :: 0 <= i < |ms| && ms[i].status == s
  }

  /** Every stored record has a generated id, and no two share one. */
  predicate Persisted(ms: seq<ProcessMessage>)
  {
    (forall i :: 0 <= i < |ms| ==> ms[i].messageId.Some?) &&
    (forall i, j :: 0 <= i < j < |ms| ==> ms[i].messageId != ms[j].messageId)
  }

  /** Position of the oldest record with status `s`; among equally old ones, the first stored. */
  function OldestWithStatus(ms: seq<ProcessMessage>, s: MessageStatus): (r: Option<nat>)
    ensures r.None? <==> !HasStatus(ms, s)
    ensures r.Some? ==> r.value < |ms| && ms[r.value].status == s
    ensures r.Some? ==> forall j :: 0 <= j < |ms| && ms[j].status == s ==> ms[r.value].createdAt <= ms[j].createdAt
    ensures r.Some? ==> forall j :: 0 <= j < r.value && ms[j].status == s ==> ms[r.value].createdAt < ms[j].createdAt
    decreases |ms|
  {
    if ms == [] then None
    else
      var last := |ms| - 1;
      var p := OldestWithStatus(ms[..last], s);
      if ms[last].status != s then p
      else if p.None? || ms[last].createdAt < ms[p.value].createdAt then Some(last)
      else p
  }

  /** `SELECT m ... WHERE m.status = :status ORDER BY m.createdAt ASC`, first row. */
  function FindFirstByStatusWithLock(ms: seq<ProcessMessage>, s: MessageStatus): (r: Option<ProcessMessage>)
    ensures r.None? <==> !HasStatus(ms, s)
    ensures r.Some? ==> r.value in ms && r.value.status == s
    ensures r.Some? ==> forall m :: m in ms && m.status == s ==> r.value.createdAt <= m.createdAt
  {
    match OldestWithStatus(ms, s)
    case None => None
    case Some(i) => Some(ms[i])
  }

  /** The records with status `s`, in stored order. */
  function WithStatus(ms: seq<ProcessMessage>, s: MessageStatus): (r: seq<ProcessMessage>)
    ensures forall m :: multiset(r)[m] == if m.status == s then multiset(ms)[m] else 0
    decreases |ms|
  {
    if ms == [] then []
    else
      assert ms == [ms[0]] + ms[1..];
      (if ms[0].status == s then [ms[0]] else []) + WithStatus(ms[1..], s)
  }

  predicate SortedByCreatedAt(ms: seq<ProcessMessage>)
  {
    forall i, j :: 0 <= i < j < |ms| ==> ms[i].createdAt <= ms[j].createdAt
  }

  function InsertByCreatedAt(m: ProcessMessage, ms: seq<ProcessMessage>): (r: seq<ProcessMessage>)
    requires SortedByCreatedAt(ms)
    ensures SortedByCreatedAt(r)
    ensures multiset(r) == multiset(ms) + multiset{m}
    ensures forall k :: 0 <= k < |r| ==> r[k] == m || r[k] in ms
    decreases |ms|
  {
    if ms == [] then [m]
    else if m.createdAt <= ms[0].createdAt then [m] + ms
    else
      assert ms == [ms[0]] + ms[1..];
      [ms[0]] + InsertByCreatedAt(m, ms[1..])
  }

  function SortByCreatedAt(ms: seq<ProcessMessage>): (r: seq<ProcessMessage>)
    ensures SortedByCreatedAt(r)
    ensures multiset(r) == multiset(ms)
    decreases |ms|
  {
    if ms == [] then []
    else
      assert ms == [ms[0]] + ms[1..];
      InsertByCreatedAt(ms[0], SortByCreatedAt(ms[1..]))
  }

  /** Exactly the records with status `s` (each as often as stored), oldest first. */
  function FindAllByStatusOrderByCreatedAtAsc(ms: seq<ProcessMessage>, s: MessageStatus): (r: seq<ProcessMessage>)
    ensures SortedByCreatedAt(r)
    ensures forall m :: multiset(r)[m] == if m.status == s then multiset(ms)[m] else 0
  {
    SortByCreatedAt(WithStatus(ms, s))
  }

  /** An id no stored record has: one more than the largest in use. */
  function FreshId(ms: seq<ProcessMessage>): (r: MessageId)
    ensures forall i :: 0 <= i < |ms| ==> ms[i].messageId != Some(r)
    ensures forall i :: 0 <= i < |ms| && ms[i].messageId.Some? ==> ms[i].messageId.value < r
    decreases |ms|
  {
    if ms == [] then 0
    else
      var rest := FreshId(ms[1..]);
      assert forall i :: 1 <= i < |ms| ==> ms[i] == ms[1..][i - 1];
      match ms[0].messageId
      case None => rest
      case Some(id) => if id < rest then rest else id + 1
  }

  /** JPA merge of a detached record: replaces the stored record with the same id, or adds it. */
  function Upsert(ms: seq<ProcessMessage>, m: ProcessMessage): (r: seq<ProcessMessage>)
    decreases |ms|
  {
    if ms == [] then [m]
    else if ms[0].messageId == m.messageId then [m] + ms[1..]
    else [ms[0]] + Upsert(ms[1..], m)
  }

  /** On a store with unique ids, merging a record whose id is stored at `i` overwrites position `i` only. */
  lemma {:induction false} UpsertReplaces(ms: seq<ProcessMessage>, i: nat, m: ProcessMessage)
    requires Persisted(ms) && i < |ms| && ms[i].messageId == m.messageId
    ensures Upsert(ms, m) == ms[i := m]
    decreases |ms|
  {
    if i > 0 {
      assert ms[0].messageId != m.messageId;
      assert Persisted(ms[1..]) by {
        forall a, b | 0 <= a < b < |ms[1..]| ensures ms[1..][a].messageId != ms[1..][b].messageId {
          assert ms[1..][a] == ms[a + 1] && ms[1..][b] == ms[b + 1];
        }
      }
      UpsertReplaces(ms[1..], i - 1, m);
      assert [ms[0]] + ms[1..][i - 1 := m] == ms[i := m];
    }
  }

  /** The store after `repository.save(m)`: a record without an id is inserted
      with a freshly generated one; a record with an id is merged. */
  function SaveTo(ms: seq<ProcessMessage>, m: ProcessMessage): (r: seq<ProcessMessage>)
    requires Persisted(ms)
    ensures Persisted(r)
    ensures m.messageId.None? ==> r == ms + [m.(messageId := Some(FreshId(ms)))]
    ensures forall i :: 0 <= i < |ms| && ms[i].messageId == m.messageId ==> r == ms[i := m]
  {
    if m.messageId.None? then
      var r := ms + [m.(messageId := Some(FreshId(ms)))];
      assert forall i :: 0 <= i < |ms| ==> r[i] == ms[i];
      r
    else
      var r := Upsert(ms, m);
      UpsertPersisted(ms, m);
      forall i | 0 <= i < |ms| && ms[i].messageId == m.messageId ensures r == ms[i := m] {
        UpsertReplaces(ms, i, m);
      }
      r
  }

  lemma {:induction false} UpsertPersisted(ms: seq<ProcessMessage>, m: ProcessMessage)
    requires Persisted(ms) && m.messageId.Some?
    ensures Persisted(Upsert(ms, m))
    ensures forall k :: 0 <= k < |Upsert(ms, m)| ==> Upsert(ms, m)[k] == m || Upsert(ms, m)[k] in ms
    ensures forall k :: 0 <= k < |Upsert(ms, m)| && Upsert(ms, m)[k] != m ==> Upsert(ms, m)[k].messageId != m.messageId
    decreases |ms|
  {
    if ms != [] {
      assert Persisted(ms[1..]) by {
        forall a, b | 0 <= a < b < |ms[1..]| ensures ms[1..][a].messageId != ms[1..][b].messageId {
          assert ms[1..][a] == ms[a + 1] && ms[1..][b] == ms[b + 1];
        }
      }
      if ms[0].messageId != m.messageId {
        UpsertPersisted(ms[1..], m);
        var t := Upsert(ms[1..], m);
        forall k | 0 <= k < |t| ensures ms[0].messageId != t[k].messageId {
          if t[k] != m {
            var j :| 0 <= j < |ms[1..]| && t[k] == ms[1..][j];
            assert ms[1..][j] == ms[j + 1];
          }
        }
      } else {
        forall k | 1 <= k < |ms| ensures ms[k].messageId != m.messageId {
          assert ms[0].messageId != ms[k].messageId;
        }
      }
    }
  }

  /** `after` is `before` with one more record at its end: `m`, saved under an id no earlier record has. */
  predicate Appended(before: seq<ProcessMessage>, after: seq<ProcessMessage>, m: ProcessMessage)
  {
    after == before + [m.(messageId := Some(FreshId(before)))]
  }

  /** Saving a new record appends exactly that record: nothing stored changes,
      the store grows by one, and the new record's id is unused before. */
  lemma AppendedOne(before: seq<ProcessMessage>, after: seq<ProcessMessage>, m: ProcessMessage)
    requires Persisted(before) && m.messageId.None?
    requires after == SaveTo(before, m)
    ensures Appended(before, after, m)
    ensures |after| == |before| + 1 && after[..|before|] == before
    ensures SameMessage(after[|before|], m.(messageId := after[|before|].messageId))
    ensures after[|before|].status == m.status && after[|before|].retryCount == m.retryCount
    ensures after[|before|].messageId.Some? && forall i :: 0 <= i < |before| ==> before[i].messageId != after[|before|].messageId
  {
  }

  /** The `process_message` table. */
  class ProcessMessageStore {
    var messages: seq<ProcessMessage>

    ghost predicate Valid()
      reads this
    {
      Persisted(messages)
    }

    constructor ()
      ensures Valid() && messages == []
    {
      messages := [];
    }

    /** `repository.save(m)`. */
    method Save(m: ProcessMessage)
      requires Valid()
      modifies this
      ensures Valid()
      ensures messages == SaveTo(old(messages), m)
    {
      messages := SaveTo(messages, m);
    }
  }
}
