/**
 * The query record as the client sees it, and the status filter that both the
 * gateway and the component apply to lists of records.
 */
module Query {
  import opened Wrappers

  /** The record's creation instant; the client never inspects it, only carries it. */
  type Instant = int

  /** The two status codes a record may be given: `'A'` (active) and `'I'` (inactive). */
  datatype StatusCode = Active | Inactive {
    function Code(): string {
      if Active? then "A" else "I"
    }
  }

  /**
   * A query record. `status` is `None` when the wire object has no status field
   * (or a null one); any other string the server sends is kept as it is.
   */
  datatype QueryRecord = QueryRecord(
    id: string,
    query: string,
    response: string,
    timestamp: Instant,
    status: Option<string>)

  /** A record whose status is present and truthy, as normalization leaves every record. */
  predicate IsNormalized(r: QueryRecord) {
    r.status.Some? && r.status.value != []
  }

  /** `record.status === code`. */
  predicate HasStatus(r: QueryRecord, code: string) {
    r.status == Some(code)
  }

  /** `a` is `b` with some elements left out, the rest kept in order. */
  predicate IsSubsequence<T(==)>(a: seq<T>, b: seq<T>)
    decreases |b|
  {
    a == [] || (b != [] && ((a[0] == b[0] && IsSubsequence(a[1..], b[1..])) || IsSubsequence(a, b[1..])))
  }

  /**
   * `records.filter(record => record.status === code)`: exactly the records with
   * that status, each as often as in the input, in their original order.
   */
  function WithStatus(rs: seq<QueryRecord>, code: string): (kept: seq<QueryRecord>)
    ensures forall r :: r in kept ==> HasStatus(r, code)
    ensures forall r :: r in kept <==> r in rs && HasStatus(r, code)
    ensures forall r :: multiset(kept)[r] == if HasStatus(r, code) then multiset(rs)[r] else 0
    ensures IsSubsequence(kept, rs)
    decreases |rs|
  {
    if rs == [] then []
    else
      assert rs == [rs[0]] + rs[1..];
      var rest := WithStatus(rs[1..], code);
      if HasStatus(rs[0], code) then
        assert ([rs[0]] + rest)[1..] == rest;
        [rs[0]] + rest
      else rest
  }

  /** Filtering a list whose records all have the status already changes nothing. */
  lemma {:induction false} WithStatusKeepsMatching(rs: seq<QueryRecord>, code: string)
    requires forall r :: r in rs ==> HasStatus(r, code)
    ensures WithStatus(rs, code) == rs
    decreases |rs|
  {
    if rs != [] {
      assert rs[0] in rs;
      WithStatusKeepsMatching(rs[1..], code);
      assert rs == [rs[0]] + rs[1..];
    }
  }

  /** Filtering by two different statuses in turn leaves nothing. */
  lemma WithStatusDisjoint(rs: seq<QueryRecord>, first: string, second: string)
    requires first != second
    ensures WithStatus(WithStatus(rs, first), second) == []
  {
  }
}
