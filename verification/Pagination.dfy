/** The pagination loops of client.go against a server that holds one fixed list. */
module Pagination {
  import opened Prelude

  datatype Reply<+T> = Failed | Nil | Page(items: seq<T>)

  /** The page of a list that begins at start. */
  function Slice<T>(list: seq<T>, start: nat, pageSize: nat): seq<T>
  {
    if start >= |list| then [] else if start + pageSize <= |list| then list[start..start + pageSize] else list[start..]
  }

  /** A server that may fail at any request but otherwise serves this list; an empty answer may
      come as a nil response. */
  ghost predicate Honours<T>(get: nat -> Reply<T>, list: seq<T>, pageSize: nat)
  {
    forall start: nat :: match get(start)
      case Failed => true
      case Nil => start >= |list|
      case Page(items) => items == Slice(list, start, pageSize)
  }

  /** The loop shared by the alert, drive, witness and replication session enumerations. */
  method CollectPages<T>(get: nat -> Reply<T>, pageSize: nat, ghost list: seq<T>)
    returns (r: Result<seq<T>, ()>, requests: nat)
    requires pageSize >= 1 && Honours(get, list, pageSize)
    ensures r.Ok? <==> forall k :: 0 <= k <= |list| / pageSize ==> !get(k * pageSize).Failed?
    ensures r.Ok? ==> r.value == list && requests == |list| / pageSize + 1
    ensures r.Err? ==> 1 <= requests <= |list| / pageSize + 1 && get((requests - 1) * pageSize).Failed?
    ensures forall k :: 0 <= k < requests - 1 ==> !get(k * pageSize).Failed?
  {
    var all: seq<T>, start: nat := [], 0;
    requests := 0;
    while true
      invariant start == requests * pageSize <= |list| && all == list[..start]
      invariant forall k :: 0 <= k < requests ==> !get(k * pageSize).Failed?
      decreases |list| - start
    {
      PageNumber(|list|, requests, pageSize);
      var reply := get(start);
      requests := requests + 1;
      match reply {
        case Failed =>
          return Err(()), requests;
        case Nil =>
          return Ok(all), requests;
        case Page(page) =>
          all := all + page;
          if |page| < pageSize {
            return Ok(all), requests;
          }
          start := start + pageSize;
      }
    }
  }

  /** Page k is not past the end, and it is the last one exactly when it is not full. */
  lemma PageNumber(total: nat, k: nat, pageSize: nat)
    requires pageSize >= 1 && k * pageSize <= total
    ensures k <= total / pageSize
    ensures k == total / pageSize <==> total - k * pageSize < pageSize
  {
    var q := total / pageSize;
    assert total == q * pageSize + total % pageSize;
    if k > q {
      NextPage(q, k, pageSize);
    } else if k < q {
      NextPage(k, q, pageSize);
    }
  }

  lemma NextPage(k: nat, later: nat, pageSize: nat)
    requires k < later
    ensures k * pageSize + pageSize <= later * pageSize
  {
    assert (later - k - 1) * pageSize >= 0;
    assert later * pageSize == k * pageSize + pageSize + (later - k - 1) * pageSize;
  }
}
