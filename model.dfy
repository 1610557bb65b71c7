/**
 * The delivery record written by the notification service, and the record store behind it.
 *
 * The schema file models/Notification.js is not part of this model; the record's shape is
 * taken from the objects the service passes to `Notification.create`, and the store stands for
 * the MongoDB collection: a sequence that `Create` appends to and that queries read.
 */
module Model {
  import opened Wrappers

  /** The `type` tag of a record. */
  datatype Channel = Email | Sms | InApp

  /** The string stored in a record's `type` field. */
  function Tag(c: Channel): string
  {
    match c
    case Email => "email"
    case Sms => "sms"
    case InApp => "in-app"
  }

  datatype Status = Sent | Failed

  /** A record's `metadata` object: string keys to string values. */
  type Metadata = map<string, string>

  /** One delivery record; `metadata` is `None` for in-app records, which are created without it. */
  datatype Record = Record(
    userId: string,
    channel: Channel,
    title: string,
    message: string,
    status: Status,
    metadata: Option<Metadata>,
    sentAt: int)

  /** A thrown JavaScript error; only its `message` is ever read. */
  datatype Error = Error(message: string)

  predicate HasErrorKey(r: Record)
  {
    r.metadata.Some? && "error" in r.metadata.value
  }

  /** A record's status agrees with its metadata: `sent` has no `error` key, `failed` has one. */
  predicate StatusAgrees(r: Record)
  {
    r.status == Sent <==> !HasErrorKey(r)
  }

  /** A record in the shape of the service's catch blocks: status `failed`, metadata `{error}`. */
  function FailedRecord(userId: string, channel: Channel, title: string, message: string,
                        error: string, now: int): Record
  {
    Record(userId, channel, title, message, Failed, Some(map["error" := error]), now)
  }

  // ---------------------------------------------------------------------------------------
  // The query `Notification.find({ userId }).sort({ sentAt: -1 })`
  // ---------------------------------------------------------------------------------------

  /** Most recent first: `sentAt` never increases along the sequence. */
  ghost predicate NewestFirst(s: seq<Record>)
  {
    forall i, j :: 0 <= i < j < |s| ==> s[i].sentAt >= s[j].sentAt
  }

  /** `t` holds exactly the records of `s` whose `userId` is `userId`, each as often as in `s`. */
  ghost predicate ExactlyFor(t: seq<Record>, s: seq<Record>, userId: string)
  {
    forall r :: multiset(t)[r] == if r.userId == userId then multiset(s)[r] else 0
  }

  /** The filter `{ userId }`. */
  function ForUser(s: seq<Record>, userId: string): (t: seq<Record>)
    ensures ExactlyFor(t, s, userId)
  {
    if s == [] then []
    else
      var rest := ForUser(s[1..], userId);
      assert s == [s[0]] + s[1..];
      if s[0].userId == userId then [s[0]] + rest else rest
  }

  /** Inserts `r` into a newest-first sequence, keeping it newest first. */
  function InsertNewestFirst(r: Record, s: seq<Record>): (t: seq<Record>)
    requires NewestFirst(s)
    ensures NewestFirst(t)
    ensures multiset(t) == multiset(s) + multiset{r}
    ensures |t| > 0 && (t[0] == r || (s != [] && t[0] == s[0]))
  {
    if s == [] || r.sentAt >= s[0].sentAt then
      [r] + s
    else
      var rest := InsertNewestFirst(r, s[1..]);
      assert s == [s[0]] + s[1..];
      [s[0]] + rest
  }

  /** The sort `{ sentAt: -1 }`: a newest-first permutation of `s`. */
  function SortNewestFirst(s: seq<Record>): (t: seq<Record>)
    ensures NewestFirst(t)
    ensures multiset(t) == multiset(s)
  {
    if s == [] then []
    else
      assert s == [s[0]] + s[1..];
      InsertNewestFirst(s[0], SortNewestFirst(s[1..]))
  }

  /** A user's records, most recent first. */
  function ByUserNewestFirst(records: seq<Record>, userId: string): (t: seq<Record>)
    ensures NewestFirst(t)
    ensures ExactlyFor(t, records, userId)
    ensures forall k :: 0 <= k < |t| ==> t[k].userId == userId
  {
    var t := SortNewestFirst(ForUser(records, userId));
    assert forall k :: 0 <= k < |t| ==> t[k].userId == userId by {
      forall k | 0 <= k < |t| ensures t[k].userId == userId {
        assert multiset(t)[t[k]] > 0;
      }
    }
    t
  }

  /** No two records of `s` carry the same `sentAt`. */
  ghost predicate DistinctTimes(s: seq<Record>)
  {
    forall i, j :: 0 <= i < j < |s| ==> s[i].sentAt != s[j].sentAt
  }

  /**
   * When no two records share a time stamp, the newest-first order of a set of records is
   * unique: any two newest-first arrangements of the same records are the same sequence.
   */
  lemma {:induction false} NewestFirstUnique(t: seq<Record>, u: seq<Record>)
    requires NewestFirst(t) && NewestFirst(u)
    requires multiset(t) == multiset(u)
    requires DistinctTimes(t)
    ensures t == u
  {
    if t == [] {
      assert |u| == |multiset(u)| == 0;
    } else {
      assert u != [] by {
        assert t[0] in multiset(u);
      }
      SameHead(t, u);
      TailKeepsOrder(t);
      TailKeepsOrder(u);
      SameTailRecords(t, u);
      NewestFirstUnique(t[1..], u[1..]);
      assert t == [t[0]] + t[1..] && u == [u[0]] + u[1..];
    }
  }

  /** Dropping the newest record keeps the rest newest first, and its times distinct. */
  lemma TailKeepsOrder(t: seq<Record>)
    requires t != [] && NewestFirst(t)
    ensures NewestFirst(t[1..])
    ensures DistinctTimes(t) ==> DistinctTimes(t[1..])
  {
    var t' := t[1..];
    forall i, j | 0 <= i < j < |t'| ensures t'[i].sentAt >= t'[j].sentAt {
      assert t'[i] == t[i + 1] && t'[j] == t[j + 1];
    }
    if DistinctTimes(t) {
      forall i, j | 0 <= i < j < |t'| ensures t'[i].sentAt != t'[j].sentAt {
        assert t'[i] == t[i + 1] && t'[j] == t[j + 1];
      }
    }
  }

  /** Two arrangements of the same records that start alike hold the same records after it. */
  lemma SameTailRecords(t: seq<Record>, u: seq<Record>)
    requires t != [] && u != [] && t[0] == u[0]
    requires multiset(t) == multiset(u)
    ensures multiset(t[1..]) == multiset(u[1..])
  {
    assert t == [t[0]] + t[1..] && u == [u[0]] + u[1..];
    assert multiset(t) == multiset{t[0]} + multiset(t[1..]);
    assert multiset(u) == multiset{t[0]} + multiset(u[1..]);
    forall x ensures multiset(t[1..])[x] == multiset(u[1..])[x] {
      assert multiset(t)[x] == multiset{t[0]}[x] + multiset(t[1..])[x];
      assert multiset(u)[x] == multiset{t[0]}[x] + multiset(u[1..])[x];
    }
  }

  /** Two newest-first arrangements of the same records, without repeated times, start alike. */
  lemma SameHead(t: seq<Record>, u: seq<Record>)
    requires t != [] && u != []
    requires NewestFirst(t) && NewestFirst(u)
    requires multiset(t) == multiset(u)
    requires DistinctTimes(t)
    ensures t[0] == u[0]
  {
    assert u[0] in multiset(t);
    var k :| 0 <= k < |t| && t[k] == u[0];
    assert t[0] in multiset(u);
    var m :| 0 <= m < |u| && u[m] == t[0];
    assert t[0].sentAt >= t[k].sentAt;
    assert u[0].sentAt >= u[m].sentAt;
  }

  /**
   * Three records of one user written at times 1 < 2 < 3 come back newest first, whatever other
   * users' records sit in the store.
   */
  lemma ThreeRecordsComeBackNewestFirst(before: seq<Record>, r1: Record, r2: Record, r3: Record, userId: string)
    requires forall k :: 0 <= k < |before| ==> before[k].userId != userId
    requires r1.userId == userId && r2.userId == userId && r3.userId == userId
    requires r1.sentAt == 1 && r2.sentAt == 2 && r3.sentAt == 3
    ensures ByUserNewestFirst(before + [r1, r2, r3], userId) == [r3, r2, r1]
  {
    var records := before + [r1, r2, r3];
    OnlyTheseThree(records, ByUserNewestFirst(records, userId), before, r1, r2, r3, userId);
  }

  lemma OnlyTheseThree(records: seq<Record>, t: seq<Record>, before: seq<Record>,
                       r1: Record, r2: Record, r3: Record, userId: string)
    requires records == before + [r1, r2, r3]
    requires forall k :: 0 <= k < |before| ==> before[k].userId != userId
    requires r1.userId == userId && r2.userId == userId && r3.userId == userId
    requires r1.sentAt == 1 && r2.sentAt == 2 && r3.sentAt == 3
    requires NewestFirst(t) && ExactlyFor(t, records, userId)
    ensures t == [r3, r2, r1]
  {
    var expected := [r3, r2, r1];
    assert multiset(records) == multiset(before) + multiset([r1, r2, r3]);
    forall r ensures multiset(t)[r] == multiset(expected)[r] {
      if r.userId == userId {
        assert r !in before;
        assert multiset(t)[r] == multiset(records)[r];
      } else {
        assert multiset(t)[r] == 0;
      }
    }
    assert multiset(t) == multiset(expected);
    NewestFirstUnique(expected, t);
  }

  // ---------------------------------------------------------------------------------------
  // The store
  // ---------------------------------------------------------------------------------------

  /** The notification collection. Records are only ever appended; none is changed or removed. */
  class NotificationStore {
    var records: seq<Record>

    constructor ()
      ensures records == []
    {
      records := [];
    }

    /** Every stored record's status agrees with its metadata. */
    ghost predicate Consistent()
      reads this
    {
      forall i :: 0 <= i < |records| ==> StatusAgrees(records[i])
    }

    /**
     * `Notification.create(r)`. The database's answer is the parameter `fault`: `None` when the
     * insert succeeds, `Some(e)` when it throws `e`, in which case nothing is stored.
     */
    method Create(r: Record, fault: Option<Error>) returns (res: Result<Record, Error>)
      modifies this
      ensures fault.None? ==> res == Success(r) && records == old(records) + [r]
      ensures fault.Some? ==> res == Failure(fault.value) && records == old(records)
    {
      if fault.Some? {
        return Failure(fault.value);
      }
      records := records + [r];
      return Success(r);
    }
  }
}
