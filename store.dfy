/**
 * The payment record store: one collection of payment records with the four
 * operations of the repository interface. The document database is modelled
 * as a sequence that every query reads front to back; the database itself
 * promises no order for a query without a sort, so that order is an
 * assumption of the model.
 */
module Store {
  import opened Wrappers
  import opened Domain

  /** The position of the first record whose id is `id`, if there is one. */
  function IndexOf(s: seq<Payment>, id: string): (r: Option<nat>)
    ensures r.Some? ==> r.value < |s| && s[r.value].PaymentID == id
    ensures r.Some? ==> forall j :: 0 <= j < r.value ==> s[j].PaymentID != id
    ensures r.None? <==> forall j :: 0 <= j < |s| ==> s[j].PaymentID != id
  {
    if s == [] then None
    else if s[0].PaymentID == id then Some(0)
    else match IndexOf(s[1..], id)
      case None => None
      case Some(j) => Some(j + 1)
  }

  /** What a lookup by id yields: the first record with that id, or NotFound. */
  function Lookup(s: seq<Payment>, id: string): (r: Result<Payment, Error>)
    ensures r.Ok? ==> r.value in s && r.value.PaymentID == id
    ensures r.Err? ==> r.error == NotFound(id)
    ensures r.Err? <==> forall j :: 0 <= j < |s| ==> s[j].PaymentID != id
  {
    match IndexOf(s, id)
    case Some(i) => Ok(s[i])
    case None => Err(NotFound(id))
  }

  /**
   * The collection after setting the status of the first record with id
   * `id`: nothing else changes, and an unknown id changes nothing.
   */
  function WithStatus(s: seq<Payment>, id: string, status: string): (r: seq<Payment>)
    ensures |r| == |s|
    ensures IndexOf(s, id).None? ==> r == s
    ensures forall j :: 0 <= j < |s| && Some(j) != IndexOf(s, id) ==> r[j] == s[j]
    ensures IndexOf(s, id).Some? ==>
      var i := IndexOf(s, id).value;
      r[i].Status == status && SameExceptIdAndStatus(r[i], s[i]) && r[i].PaymentID == id
  {
    match IndexOf(s, id)
    case None => s
    case Some(i) => s[i := s[i].(Status := status)]
  }

  /** The records of user `user`, in store order. */
  function Matching(s: seq<Payment>, user: string): (r: seq<Payment>)
    ensures |r| <= |s|
    ensures forall k :: 0 <= k < |r| ==> r[k].UserID == user && r[k] in s
    ensures forall j :: 0 <= j < |s| && s[j].UserID == user ==> s[j] in r
  {
    if s == [] then []
    else if s[0].UserID == user then [s[0]] + Matching(s[1..], user)
    else Matching(s[1..], user)
  }

  function Min(a: int, b: int): int { if a <= b then a else b }

  /** At most `limit` elements of `m`, starting after the first `skip`. */
  function Window(m: seq<Payment>, skip: nat, limit: nat): (r: seq<Payment>)
    ensures |r| == if skip >= |m| then 0 else Min(limit, |m| - skip)
    ensures forall k :: 0 <= k < |r| ==> r[k] == m[skip + k]
  {
    if skip >= |m| then [] else m[skip .. skip + Min(limit, |m| - skip)]
  }

  /** How many matching records the 1-based page `page` skips. */
  function Offset(page: int, pageSize: int): nat
    requires page >= 1 && pageSize >= 1
  {
    (page - 1) * pageSize
  }

  /**
   * Paging loses nothing: the match at position `j` is on page
   * `j / pageSize + 1`, at position `j % pageSize` of that page.
   */
  lemma EveryMatchOnItsPage(m: seq<Payment>, j: nat, pageSize: int)
    requires j < |m| && pageSize >= 1
    ensures var w := Window(m, Offset(j / pageSize + 1, pageSize), pageSize);
      j % pageSize < |w| && w[j % pageSize] == m[j]
  {
    var q, k := j / pageSize, j % pageSize;
    assert Offset(q + 1, pageSize) + k == j;
  }

  /** Twenty-five records of a user, page 2 of size 10: the 11th to the 20th. */
  lemma SecondPageOfTwentyFive(s: seq<Payment>, user: string)
    requires |Matching(s, user)| == 25
    ensures Window(Matching(s, user), Offset(2, 10), 10) == Matching(s, user)[10..20]
  {
  }

  /**
   * Saving never displaces a record already found by id: a lookup after
   * the save finds the old record, or the new one only when none had its id.
   */
  lemma {:induction false} IndexOfSnoc(s: seq<Payment>, p: Payment, id: string)
    ensures IndexOf(s + [p], id) ==
      if IndexOf(s, id).Some? then IndexOf(s, id)
      else if p.PaymentID == id then Some(|s|)
      else None
  {
    if s != [] {
      assert (s + [p])[1..] == s[1..] + [p];
      IndexOfSnoc(s[1..], p, id);
    }
  }

  /** A status update leaves the record it updated first in line for its id. */
  lemma WithStatusKeepsIndex(s: seq<Payment>, id: string, status: string)
    ensures IndexOf(WithStatus(s, id, status), id) == IndexOf(s, id)
  {
    var r := WithStatus(s, id, status);
    match IndexOf(s, id)
    case None =>
    case Some(i) =>
      assert r[i].PaymentID == id;
      assert forall j :: 0 <= j < i ==> r[j] == s[j];
  }

  /** Appending a record extends the listing of its own user only. */
  lemma {:induction false} MatchingSnoc(s: seq<Payment>, x: Payment, user: string)
    ensures Matching(s + [x], user) == Matching(s, user) + (if x.UserID == user then [x] else [])
  {
    if s == [] {
      assert s + [x] == [x];
    } else {
      assert (s + [x])[1..] == s[1..] + [x];
      MatchingSnoc(s[1..], x, user);
    }
  }

  /** One step of a paged scan: how the count and the page change when record `x` is read. */
  lemma ScanStep(s: seq<Payment>, x: Payment, user: string, skip: nat, limit: nat)
    ensures |Matching(s + [x], user)| == |Matching(s, user)| + (if x.UserID == user then 1 else 0)
    ensures Window(Matching(s + [x], user), skip, limit) ==
      if x.UserID == user && skip <= |Matching(s, user)| && |Window(Matching(s, user), skip, limit)| < limit
      then Window(Matching(s, user), skip, limit) + [x]
      else Window(Matching(s, user), skip, limit)
  {
    MatchingSnoc(s, x, user);
    if x.UserID == user {
      WindowSnoc(Matching(s, user), x, skip, limit);
    }
  }

  /** A window grows by the appended element exactly while it is still filling. */
  lemma WindowSnoc(m: seq<Payment>, x: Payment, skip: nat, limit: nat)
    ensures Window(m + [x], skip, limit) ==
      if skip <= |m| < skip + limit then Window(m, skip, limit) + [x] else Window(m, skip, limit)
  {
    var w, w' := Window(m, skip, limit), Window(m + [x], skip, limit);
    if skip <= |m| < skip + limit {
      assert |w'| == |w| + 1;
      forall k | 0 <= k < |w'| ensures w'[k] == (w + [x])[k] {
        if k < |w| { assert w'[k] == (m + [x])[skip + k]; }
      }
    } else {
      assert |w'| == |w|;
      forall k | 0 <= k < |w'| ensures w'[k] == w[k] {
        assert w'[k] == (m + [x])[skip + k];
      }
    }
  }

  class PaymentStore {
    /** The collection, in the order queries read it (saves append). */
    var records: seq<Payment>

    constructor ()
      ensures records == []
    {
      records := [];
    }

    /** Inserts the record; an existing record with the same id is kept. */
    method Save(p: Payment)
      modifies this
      ensures records == old(records) + [p]
    {
      records := records + [p];
    }

    /** The filter on the id field: the position of the first match. */
    method FindIndex(id: string) returns (r: Option<nat>)
      ensures r == IndexOf(records, id)
    {
      var i := 0;
      while i < |records|
        invariant 0 <= i <= |records|
        invariant forall j :: 0 <= j < i ==> records[j].PaymentID != id
      {
        if records[i].PaymentID == id {
          return Some(i);
        }
        i := i + 1;
      }
      return None;
    }

    method FindByID(id: string) returns (r: Result<Payment, Error>)
      ensures r == Lookup(records, id)
      ensures r.Ok? ==> r.value.PaymentID == id && r.value in records
      ensures r.Err? <==> forall j :: 0 <= j < |records| ==> records[j].PaymentID != id
    {
      var i := FindIndex(id);
      match i
      case Some(k) => r := Ok(records[k]);
      case None => r := Err(NotFound(id));
    }

    /**
     * The `page`-th page (1-based) of `pageSize` records of user `user`,
     * and the number of all that user's records.
     */
    method FindByUserID(user: string, page: int, pageSize: int) returns (payments: seq<Payment>, total: nat)
      requires page >= 1 && pageSize >= 1
      ensures payments == Window(Matching(records, user), Offset(page, pageSize), pageSize)
      ensures total == |Matching(records, user)|
      ensures |payments| <= pageSize && |payments| <= total
      ensures forall k :: 0 <= k < |payments| ==> payments[k].UserID == user
    {
      var skip := Offset(page, pageSize);
      payments := [];
      var seen := 0;
      var i := 0;
      while i < |records|
        invariant 0 <= i <= |records|
        invariant seen == |Matching(records[..i], user)|
        invariant payments == Window(Matching(records[..i], user), skip, pageSize)
      {
        assert records[..i + 1] == records[..i] + [records[i]];
        ScanStep(records[..i], records[i], user, skip, pageSize);
        if records[i].UserID == user {
          if skip <= seen && |payments| < pageSize {
            payments := payments + [records[i]];
          }
          seen := seen + 1;
        }
        i := i + 1;
      }
      assert records[..i] == records;
      total := seen;
    }

    /** Sets the status of the first record with id `id`; an unknown id changes nothing. */
    method UpdateStatus(id: string, status: string)
      modifies this
      ensures records == WithStatus(old(records), id, status)
    {
      var i := FindIndex(id);
      if i.Some? {
        records := records[i.value := records[i.value].(Status := status)];
      }
    }
  }
}
