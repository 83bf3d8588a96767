/** The bbolt-backed job store: each operation is one transaction over the bucket,
    committed whole or not at all. */
module JobStore {
  import opened JobRecord
  import opened Logs

  type Tag = string

  type Bucket = map<Tag, Stored>

  datatype Error = NotFound | StatusMismatch | Undecodable | UnknownStatus | IoFailure

  datatype Result<+T> = Ok(value: T) | Err(error: Error)

  predicate Decodable(b: Bucket) {
    forall k | k in b :: Unmarshal(b[k]).Some?
  }

  /** The stored record decodes and passes the filter. */
  predicate Hits(filter: Record -> bool, w: Stored) {
    Unmarshal(w).Some? && filter(Unmarshal(w).value)
  }

  function Matches(b: Bucket, filter: Record -> bool): set<Tag> {
    set k | k in b && Hits(filter, b[k])
  }

  /** One entry after a batch: mutated and re-stored if it matches, else untouched. */
  function Rewritten(filter: Record -> bool, mutate: Record -> Record, w: Stored): Stored {
    if Hits(filter, w) && Marshal(mutate(Unmarshal(w).value)).Some?
    then Marshal(mutate(Unmarshal(w).value)).value
    else w
  }

  /** A batch transition, pointwise. */
  function Transitioned(b: Bucket, filter: Record -> bool, mutate: Record -> Record): Bucket {
    map k | k in b :: Rewritten(filter, mutate, b[k])
  }

  function Deleted(b: Bucket, filter: Record -> bool): Bucket {
    map k | k in b && !Hits(filter, b[k]) :: b[k]
  }

  /** Every match can be written back. */
  predicate Storable(b: Bucket, filter: Record -> bool, mutate: Record -> Record) {
    forall k | k in Matches(b, filter) :: Marshal(mutate(Unmarshal(b[k]).value)).Some?
  }

  /** Pass 1 of both batches: collect the matching keys, stopping at the first
      record that does not decode. */
  method Collect(b: Bucket, filter: Record -> bool) returns (matched: seq<Tag>, ok: bool)
    ensures ok <==> Decodable(b)
    ensures ok ==> (forall k :: k in matched <==> k in Matches(b, filter)) && |matched| == |Matches(b, filter)|
    ensures forall i, j | 0 <= i < j < |matched| :: matched[i] != matched[j]
  {
    matched := [];
    var todo := b.Keys;
    ghost var hits: set<Tag> := {};
    while todo != {}
      invariant todo <= b.Keys
      invariant forall k | k in b && k !in todo :: Unmarshal(b[k]).Some?
      invariant hits == set k | k in b && k !in todo && Hits(filter, b[k])
      invariant forall k :: k in matched <==> k in hits
      invariant |matched| == |hits|
      invariant forall i, j | 0 <= i < j < |matched| :: matched[i] != matched[j]
      decreases |todo|
    {
      var k :| k in todo;
      var rec := Unmarshal(b[k]);
      if rec.None? { return matched, false; }
      todo := todo - {k};
      if filter(rec.value) {
        hits := hits + {k};
        matched := matched + [k];
      }
    }
    assert hits == Matches(b, filter);
    ok := true;
  }

  /** Pass 2 of a transition: rewrite the collected entries one by one, giving up at
      the first that cannot be rewritten. */
  method WriteBack(b: Bucket, matched: seq<Tag>, rewrite: Stored -> Option<Stored>)
    returns (tx: Bucket, count: nat, ok: bool)
    requires forall j | 0 <= j < |matched| :: matched[j] in b
    requires forall i, j | 0 <= i < j < |matched| :: matched[i] != matched[j]
    ensures ok <==> forall j | 0 <= j < |matched| :: rewrite(b[matched[j]]).Some?
    ensures ok ==> count == |matched| && tx.Keys == b.Keys
    ensures ok ==> forall k | k in b :: tx[k] == if k in matched then rewrite(b[k]).value else b[k]
  {
    tx, count := b, 0;
    var i := 0;
    while i < |matched|
      invariant 0 <= i <= |matched| && count == i && tx.Keys == b.Keys
      invariant forall j | 0 <= j < i :: rewrite(b[matched[j]]).Some? && tx[matched[j]] == rewrite(b[matched[j]]).value
      invariant forall k | k in b && k !in matched[..i] :: tx[k] == b[k]
    {
      var k := matched[i];
      var out := rewrite(tx[k]);
      if out.None? { return b, 0, false; }
      tx := tx[k := out.value];
      count, i := count + 1, i + 1;
    }
    ok := true;
  }

  /** What a transition stores in place of an entry, if it can. */
  function Restored(mutate: Record -> Record): Stored -> Option<Stored> {
    (w: Stored) => if Unmarshal(w).None? then None else Marshal(mutate(Unmarshal(w).value))
  }

  /** The body of a BatchTransition transaction, on a private copy of the bucket.
      It succeeds exactly when every record decodes and every match can be
      stored, and is then the pointwise update. */
  method TransitionTx(b: Bucket, filter: Record -> bool, mutate: Record -> Record)
    returns (tx: Bucket, count: nat, err: Option<Error>)
    ensures err.None? <==> Decodable(b) && Storable(b, filter, mutate)
    ensures err == Some(Undecodable) <==> !Decodable(b)
    ensures err.None? ==> tx == Transitioned(b, filter, mutate) && count == |Matches(b, filter)|
  {
    var matched, ok := Collect(b, filter);
    if !ok { return b, 0, Some(Undecodable); }
    assert forall j | 0 <= j < |matched| :: matched[j] in Matches(b, filter);
    tx, count, ok := WriteBack(b, matched, Restored(mutate));
    assert forall k | k in Matches(b, filter) :: k in matched;
    if !ok { return b, 0, Some(UnknownStatus); }
    err := None;
  }

  method DeleteTx(b: Bucket, filter: Record -> bool) returns (tx: Bucket, count: nat, err: Option<Error>)
    ensures err.None? <==> Decodable(b)
    ensures err.Some? ==> err.value == Undecodable
    ensures err.None? ==> tx == Deleted(b, filter) && count == |Matches(b, filter)|
  {
    tx, count := b, 0;
    var matched, ok := Collect(b, filter);
    if !ok { return tx, 0, Some(Undecodable); }
    var i := 0;
    while i < |matched|
      invariant 0 <= i <= |matched| && count == i
      invariant forall k :: k in tx <==> k in b && k !in matched[..i]
      invariant forall k | k in tx :: tx[k] == b[k]
    {
      tx := tx - {matched[i]};
      assert matched[..i + 1] == matched[..i] + [matched[i]];
      count, i := count + 1, i + 1;
    }
    assert matched[..i] == matched;
    err := None;
  }

  /** A batch leaves exactly the non-matching entries as they were. */
  lemma {:induction false} BatchTouchesMatches(b: Bucket, filter: Record -> bool, mutate: Record -> Record, k: Tag)
    requires k in b
    ensures Transitioned(b, filter, mutate).Keys == b.Keys
    ensures k !in Matches(b, filter) ==> Transitioned(b, filter, mutate)[k] == b[k]
    ensures k in Deleted(b, filter) <==> k !in Matches(b, filter)
    ensures k in Matches(b, filter) && Storable(b, filter, mutate) ==>
              Unmarshal(Transitioned(b, filter, mutate)[k]) == Some(Truncated(mutate(Unmarshal(b[k]).value)))
  {
    if k in Matches(b, filter) && Storable(b, filter, mutate) {
      StoredReadsTruncated(mutate(Unmarshal(b[k]).value));
    }
  }

  /** What a Get answers. */
  function Read(b: Bucket, tag: Tag): Result<Option<Record>> {
    if tag !in b then Ok(None)
    else if Unmarshal(b[tag]).None? then Err(Undecodable)
    else Ok(Some(Unmarshal(b[tag]).value))
  }

  predicate Present(b: Bucket, tag: Tag) { Read(b, tag).Ok? && Read(b, tag).value.Some? }

  /** A Get after a write, a batch transition or a batch delete: a record that was
      written reads back truncated, one that was deleted as absent, and every
      other tag answers as before. */
  lemma {:induction false} GetSeesWrites(
    b: Bucket, tag: Tag, rec: Record, filter: Record -> bool, mutate: Record -> Record, k: Tag)
    requires !rec.status.Unknown? && Storable(b, filter, mutate)
    ensures Read(b[tag := Marshal(rec).value], k) == if k == tag then Ok(Some(Truncated(rec))) else Read(b, k)
    ensures var r := Read(b, k);
            var hit := r.Ok? && r.value.Some? && filter(r.value.value);
            && Read(Transitioned(b, filter, mutate), k) ==
               (if hit then Ok(Some(Truncated(mutate(r.value.value)))) else r)
            && Read(Deleted(b, filter), k) == (if hit then Ok(None) else r)
  {
    StoredReadsTruncated(rec);
    if k in Matches(b, filter) { StoredReadsTruncated(mutate(Unmarshal(b[k]).value)); }
  }

  /** When a compare-and-swap goes through: the record is present, decodes, has the
      expected status, and its replacement can be stored. */
  predicate Swappable(b: Bucket, tag: Tag, expected: Status, mutate: Record -> Record) {
    && tag in b && Unmarshal(b[tag]).Some?
    && Unmarshal(b[tag]).value.status == expected
    && !mutate(Unmarshal(b[tag]).value).status.Unknown?
  }

  class Store {
    var bucket: Bucket

    constructor ()
      ensures bucket == map[]
    {
      bucket := map[];
    }

    method Get(tag: Tag) returns (r: Result<Option<Record>>)
      ensures r == Read(bucket, tag)
    {
      if tag !in bucket { return Ok(None); }
      var rec := Unmarshal(bucket[tag]);
      if rec.None? { return Err(Undecodable); }
      return Ok(Some(rec.value));
    }

    /** `committed` is whether the disk accepted the transaction, here and below. */
    method Put(tag: Tag, rec: Record, committed: bool) returns (r: Result<()>)
      modifies this
      ensures r.Ok? <==> committed && !rec.status.Unknown?
      ensures r.Ok? ==>
                && tag in bucket && bucket == old(bucket)[tag := bucket[tag]]
                && Read(bucket, tag) == Ok(Some(Truncated(rec)))
      ensures r.Err? ==> bucket == old(bucket) && (r.error == UnknownStatus <==> rec.status.Unknown?)
    {
      var data := Marshal(rec);
      if data.None? { return Err(UnknownStatus); }
      if !committed { return Err(IoFailure); }
      StoredReadsTruncated(rec);
      bucket := bucket[tag := data.value];
      return Ok(());
    }

    /** A swap that fails for any reason changes nothing. */
    method CompareAndSwapStatus(
      tag: Tag, expected: Status, mutate: Record -> Record, committed: bool) returns (r: Result<Record>)
      modifies this
      ensures r.Ok? <==> committed && Swappable(old(bucket), tag, expected, mutate)
      ensures r.Ok? ==>
                && r.value == mutate(Unmarshal(old(bucket)[tag]).value)
                && tag in bucket && bucket == old(bucket)[tag := bucket[tag]]
                && Read(bucket, tag) == Ok(Some(Truncated(r.value)))
      ensures r.Err? ==> bucket == old(bucket)
      ensures r == Err(NotFound) <==> old(Read(bucket, tag)) == Ok(None)
      ensures r == Err(Undecodable) <==> old(Read(bucket, tag)).Err?
      ensures r == Err(StatusMismatch) <==>
                old(Present(bucket, tag)) && old(Read(bucket, tag)).value.value.status != expected
    {
      if tag !in bucket { return Err(NotFound); }
      var rec := Unmarshal(bucket[tag]);
      if rec.None? { return Err(Undecodable); }
      if rec.value.status != expected { return Err(StatusMismatch); }
      var updated := mutate(rec.value);
      var data := Marshal(updated);
      if data.None? { return Err(UnknownStatus); }
      if !committed { return Err(IoFailure); }
      StoredReadsTruncated(updated);
      bucket := bucket[tag := data.value];
      return Ok(updated);
    }

    method BatchTransition(filter: Record -> bool, mutate: Record -> Record, committed: bool) returns (r: Result<nat>)
      modifies this
      ensures r.Ok? <==> committed && old(Decodable(bucket)) && old(Storable(bucket, filter, mutate))
      ensures r.Ok? ==> bucket == old(Transitioned(bucket, filter, mutate)) && r.value == old(|Matches(bucket, filter)|)
      ensures r.Err? ==> bucket == old(bucket) && (r.error == Undecodable <==> !old(Decodable(bucket)))
    {
      var tx, count, err := TransitionTx(bucket, filter, mutate);
      if err.Some? { return Err(err.value); }
      if !committed { return Err(IoFailure); }
      bucket := tx;
      return Ok(count);
    }

    method BatchDelete(filter: Record -> bool, committed: bool) returns (r: Result<nat>)
      modifies this
      ensures r.Ok? <==> committed && old(Decodable(bucket))
      ensures r.Ok? ==> bucket == old(Deleted(bucket, filter)) && r.value == old(|Matches(bucket, filter)|)
      ensures r.Err? ==> bucket == old(bucket) && (r.error == Undecodable <==> !old(Decodable(bucket)))
    {
      var tx, count, err := DeleteTx(bucket, filter);
      if err.Some? { return Err(err.value); }
      if !committed { return Err(IoFailure); }
      bucket := tx;
      return Ok(count);
    }
  }
}
