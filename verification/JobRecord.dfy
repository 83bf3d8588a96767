/** Job records, and the wire form under which they are stored: every write
    truncates timestamps to whole seconds. */
module JobRecord {
  import opened Durations
  import opened Logs

  /** Nanoseconds since the Unix epoch. */
  type Time = int

  /** Go's zero time.Time, 1 January of year 1. */
  const ZERO_TIME: Time := -62_135_596_800 * SECOND

  datatype Status = Pending | Completed | Failed | FailedTimeout | Tombstone | Unknown(text: string)

  datatype Response = Response(statusCode: int, header: seq<(string, string)>, body: string)

  datatype Record = Record(
    tag: string,
    status: Status,
    createdAt: Time,
    updatedAt: Time,
    evictedAt: Time,
    response: Option<Response>)

  /** Bytes in the bucket: not JSON at all, or a wire record with times in seconds. */
  datatype Stored =
    | Garbage
    | Wire(tag: string, status: Status, createdAt: int, updatedAt: int, evictedAt: Option<int>,
      response: Option<Response>)

  function NewPendingRecord(tag: string, now: Time): Record {
    Record(tag, Pending, now, now, ZERO_TIME, None)
  }

  function Unix(t: Time): int { t / SECOND }

  function Marshal(r: Record): Option<Stored> {
    if r.status.Unknown? then None
    else Some(Wire(r.tag, r.status, Unix(r.createdAt), Unix(r.updatedAt),
                   if r.evictedAt == ZERO_TIME then None else Some(Unix(r.evictedAt)), r.response))
  }

  function Unmarshal(w: Stored): Option<Record> {
    if w.Garbage? || w.status.Unknown? then None
    else Some(Record(w.tag, w.status, w.createdAt * SECOND, w.updatedAt * SECOND,
                     if w.evictedAt.None? then ZERO_TIME else w.evictedAt.value * SECOND, w.response))
  }

  /** What storage keeps of a time. */
  function Trunc(t: Time): (r: Time)
    ensures r <= t < r + SECOND && r % SECOND == 0
  {
    Unix(t) * SECOND
  }

  function Truncated(r: Record): Record {
    r.(createdAt := Trunc(r.createdAt), updatedAt := Trunc(r.updatedAt), evictedAt := Trunc(r.evictedAt))
  }

  /** Storing and reading back keeps everything but the fractions of a second, for
      every record with a known status; no other record can be stored. */
  lemma {:induction false} StoredReadsTruncated(r: Record)
    ensures Marshal(r).Some? <==> !r.status.Unknown?
    ensures Marshal(r).Some? ==> Unmarshal(Marshal(r).value) == Some(Truncated(r))
    ensures Truncated(Truncated(r)) == Truncated(r)
  {
    assert Trunc(ZERO_TIME) == ZERO_TIME;
    TruncOnce(r.createdAt);
    TruncOnce(r.updatedAt);
    TruncOnce(r.evictedAt);
  }

  lemma {:induction false} TruncOnce(t: Time)
    ensures Trunc(Trunc(t)) == Trunc(t)
  {
    var a, b := Trunc(t), Trunc(Trunc(t));
    assert b <= a < b + SECOND;
  }
}
