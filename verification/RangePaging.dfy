/** Range queries travel in pages: the peer keeps a ledger iterator per query and fills a
    page at a time, the shim's iterator walks the page it holds and fetches the next one
    when it runs out. */
module RangePaging {
  import opened Common
  import opened StateTypes

  const LIMIT: nat := 100

  datatype Response = Response(keysAndValues: seq<KeyValue>, hasMore: bool, id: nat)

  // ---------------------------------------------------------------- pages as values

  function Min(a: nat, b: nat): nat {
    if a < b then a else b
  }

  /** The page that starts at an index: the next items, as many as fit. */
  function PageAt(items: seq<KeyValue>, from: nat, id: nat): Response
    requires from <= |items|
  {
    var end := Min(from + LIMIT, |items|);
    Response(items[from..end], end < |items|, id)
  }

  /** All the pages a query produces, from an index on. */
  function Pages(items: seq<KeyValue>, from: nat, id: nat): seq<Response>
    requires from <= |items|
    decreases |items| - from
  {
    var page := PageAt(items, from, id);
    if page.hasMore then [page] + Pages(items, from + LIMIT, id) else [page]
  }

  function Contents(pages: seq<Response>): seq<KeyValue> {
    if pages == [] then [] else pages[0].keysAndValues + Contents(pages[1..])
  }

  /** Put together, the pages are the items; all but the last are full and say that more
      follows, the last says that nothing does, and only a first page can be empty. */
  lemma {:induction false} PagesAreLossless(items: seq<KeyValue>, from: nat, id: nat)
    requires from <= |items|
    ensures Contents(Pages(items, from, id)) == items[from..]
    ensures var ps := Pages(items, from, id);
            && ps != [] && !ps[|ps| - 1].hasMore
            && (forall i :: 0 <= i < |ps| - 1 ==> ps[i].hasMore && |ps[i].keysAndValues| == 100)
            && (forall i :: 0 < i < |ps| ==> ps[i].keysAndValues != [])
            && (from < |items| ==> ps[0].keysAndValues != [])
    decreases |items| - from
  {
    var page := PageAt(items, from, id);
    if page.hasMore {
      var rest := Pages(items, from + LIMIT, id);
      PagesAreLossless(items, from + LIMIT, id);
      assert ([page] + rest)[1..] == rest;
      assert items[from..] == items[from..from + LIMIT] + items[from + LIMIT..];
      var ps := Pages(items, from, id);
      forall i | 0 < i < |ps| ensures ps[i] == rest[i - 1] {
      }
    } else {
      assert [page][1..] == [];
    }
  }

  // ---------------------------------------------------------------- the peer's side

  // A ledger iterator and the item it stands on.
  datatype Cursor = Cursor(items: seq<KeyValue>, pos: nat)

  class RangeServer {
    var iterators: map<nat, Cursor>   // rangeQueryIteratorMap of the context
    var closed: set<nat>              // iterators that have been closed

    ghost predicate Valid()
      reads this
    {
      forall id :: id in iterators ==> iterators[id].pos < |iterators[id].items| && id !in closed
    }

    constructor ()
      ensures Valid() && iterators == map[] && closed == {}
    {
      iterators, closed := map[], {};
    }

    /** The iterator of a query is open and registered exactly while a page is owed. */
    ghost predicate Owes(id: nat, items: seq<KeyValue>, from: nat)
      reads this
    {
      if from < |items| then id in iterators && iterators[id] == Cursor(items, from)
      else id !in iterators && id in closed
    }

    /** The loop both handlers share: fill a page from where the iterator stands. */
    static method Fill(items: seq<KeyValue>, from: nat) returns (page: seq<KeyValue>, pos: nat, hasNext: bool)
      requires from <= |items|
      ensures pos == Min(from + LIMIT, |items|) && page == items[from..pos] && (hasNext <==> pos < |items|)
    {
      page, pos, hasNext := [], from, from < |items|;
      var i: nat := 0;
      while hasNext && i < LIMIT
        invariant i <= LIMIT && pos == from + i && from <= pos <= |items|
        invariant page == items[from..pos] && (hasNext <==> pos < |items|)
        decreases LIMIT - i
      {
        page := page + [items[pos]];
        pos := pos + 1;
        hasNext := pos < |items|;
        i := i + 1;
      }
    }

    method CloseAndDelete(id: nat)
      requires Valid()
      modifies this
      ensures Valid() && iterators == old(iterators) - {id} && closed == old(closed) + {id}
    {
      iterators := iterators - {id};
      closed := closed + {id};
    }

    /** The first page of a new iterator. */
    method HandleRangeQueryState(items: seq<KeyValue>, id: nat) returns (r: Response)
      requires Valid() && id !in iterators && id !in closed
      modifies this
      ensures Valid() && r == PageAt(items, 0, id)
      ensures Owes(id, items, |r.keysAndValues|)
      ensures forall other :: other != id ==>
                && (other in iterators <==> other in old(iterators)) && (other in closed <==> other in old(closed))
                && (other in iterators ==> iterators[other] == old(iterators)[other])
    {
      var page, pos, hasNext := Fill(items, 0);
      if hasNext {
        iterators := iterators[id := Cursor(items, pos)];
      } else {
        CloseAndDelete(id);
      }
      r := Response(page, hasNext, id);
    }

    /** The next page of an open iterator; an unknown one is an error. */
    method HandleRangeQueryStateNext(id: nat) returns (r: Option<Response>)
      requires Valid()
      modifies this
      ensures Valid()
      ensures r.None? <==> id !in old(iterators)
      ensures r.None? ==> iterators == old(iterators) && closed == old(closed)
      ensures r.Some? ==>
                var c := old(iterators)[id];
                && r.value == PageAt(c.items, c.pos, id)
                && Owes(id, c.items, c.pos + |r.value.keysAndValues|)
      ensures forall other :: other != id ==>
                && (other in iterators <==> other in old(iterators)) && (other in closed <==> other in old(closed))
                && (other in iterators ==> iterators[other] == old(iterators)[other])
    {
      if id !in iterators {
        return None;
      }
      var c := iterators[id];
      var page, pos, hasNext := Fill(c.items, c.pos);
      if hasNext {
        iterators := iterators[id := Cursor(c.items, pos)];
      } else {
        CloseAndDelete(id);
      }
      r := Some(Response(page, hasNext, id));
    }
  }

  // ---------------------------------------------------------------- the chaincode's side

  class StateRangeQueryIterator {
    const server: RangeServer
    var response: Response
    var currentLoc: nat
    ghost var items: seq<KeyValue>   // what the query covers
    ghost var base: nat              // how many of them came in earlier pages

    ghost predicate Valid()
      reads this, server
    {
      && server.Valid()
      && currentLoc <= |response.keysAndValues|
      && base + |response.keysAndValues| <= |items|
      && response.keysAndValues == items[base..base + |response.keysAndValues|]
      && (response.hasMore <==> base + |response.keysAndValues| < |items|)
      && server.Owes(response.id, items, base + |response.keysAndValues|)
    }

    ghost function Consumed(): nat
      reads this
    {
      base + currentLoc
    }

    /** `RangeQueryState`: the query, answered with its first page. */
    constructor (server: RangeServer, items: seq<KeyValue>, id: nat)
      requires server.Valid() && id !in server.iterators && id !in server.closed
      modifies server
      ensures Valid() && this.server == server && this.items == items && Consumed() == 0
    {
      this.server := server;
      var r := server.HandleRangeQueryState(items, id);
      response, currentLoc := r, 0;
      this.items, base := items, 0;
    }

    method HasNext() returns (b: bool)
      requires Valid()
      ensures b <==> Consumed() < |items|
    {
      b := currentLoc < |response.keysAndValues| || response.hasMore;
    }

    /** The next item in order, or an error when there is none; no page fetched on the way
        is empty. */
    method Next() returns (r: Option<KeyValue>)
      requires Valid()
      modifies this, server
      ensures Valid() && items == old(items)
      ensures if old(Consumed()) < |items| then r == Some(items[old(Consumed())]) && Consumed() == old(Consumed()) + 1
              else r == None && Consumed() == old(Consumed())
    {
      if currentLoc < |response.keysAndValues| {
        r := Some(response.keysAndValues[currentLoc]);
        currentLoc := currentLoc + 1;
      } else if !response.hasMore {
        r := None;
      } else {
        var next := server.HandleRangeQueryStateNext(response.id);
        base := base + |response.keysAndValues|;
        response, currentLoc := next.value, 0;
        r := Some(response.keysAndValues[currentLoc]);
        currentLoc := currentLoc + 1;
      }
    }
  }

  /** Walking an iterator to its end yields every remaining item once and in order, and
      leaves its ledger iterator closed and removed. */
  method Drain(iter: StateRangeQueryIterator) returns (all: seq<KeyValue>)
    requires iter.Valid()
    modifies iter, iter.server
    ensures iter.Valid() && iter.items == old(iter.items)
    ensures all == iter.items[old(iter.Consumed())..]
    ensures iter.response.id !in iter.server.iterators && iter.response.id in iter.server.closed
  {
    all := [];
    ghost var from := iter.Consumed();
    var more := iter.HasNext();
    while more
      invariant iter.Valid() && iter.items == old(iter.items)
      invariant from <= iter.Consumed() <= |iter.items|
      invariant all == iter.items[from..iter.Consumed()]
      invariant more <==> iter.Consumed() < |iter.items|
      decreases |iter.items| - iter.Consumed()
    {
      ghost var at := iter.Consumed();
      var kv := iter.Next();
      assert iter.items[from..at + 1] == iter.items[from..at] + [iter.items[at]];
      all := all + [kv.value];
      more := iter.HasNext();
    }
  }
}
