/**
 * The /api/list route: select the documents whose `userId` equals the query's
 * and project each into a list record, in the store's order. The route only
 * reads the document sequence it is given.
 */
module ListApi {
  import opened Wrappers
  import opened Documents

  /** The `docs.map` callback: copy the id and the three stored fields. */
  function Project(d: Doc): (rec: ListRecord)
    ensures rec.drawingId == d.id && rec.userId == d.userId
    ensures rec.name == d.name && rec.drawing == d.drawing
  {
    ListRecord(d.id, d.userId, d.name, d.drawing)
  }

  /** The query `where("userId", "==", userId)` over the collection, in store order. */
  function Matching(docs: seq<Doc>, userId: string): (m: seq<Doc>)
    ensures |m| <= |docs|
    ensures forall k :: 0 <= k < |m| ==> m[k] in docs && m[k].userId == userId
  {
    if docs == [] then []
    else
      var last := docs[|docs| - 1];
      Matching(docs[..|docs| - 1], userId) + (if last.userId == userId then [last] else [])
  }

  /** `getUserDrawings`: the matching documents, each projected. */
  function GetUserDrawings(docs: seq<Doc>, userId: string): (r: seq<ListRecord>)
    ensures |r| <= |docs|
    ensures forall k :: 0 <= k < |r| ==> r[k].userId == userId
  {
    var m := Matching(docs, userId);
    seq(|m|, k requires 0 <= k < |m| => Project(m[k]))
  }

  /**
   * `handler`'s answer once `getUserDrawings` resolved: 200 with the array if
   * the value is truthy, 500 otherwise. `None` stands for a falsy value; a
   * JavaScript array, even an empty one, is truthy.
   */
  function RespondWith(drawings: Option<seq<ListRecord>>): (r: Response)
    ensures Successful(r.status) <==> drawings.Some?
    ensures ServerError(r.status) <==> drawings.None?
    ensures drawings.Some? ==> r == Response(200, Records(drawings.value))
    ensures drawings.None? ==> r == Response(500, Message("Error fetching your drawings"))
  {
    match drawings
    case Some(items) => Response(200, Records(items))
    case None => Response(500, Message("Error fetching your drawings"))
  }

  /** The route: GET lists the caller's drawings, any other method is a bad request. */
  function Handler(docs: seq<Doc>, req: ListRequest): (r: Response)
    ensures ClientError(r.status) <==> req.verb != "GET"
    ensures !ServerError(r.status)
    ensures req.verb == "GET" ==> r == Response(200, Records(GetUserDrawings(docs, req.userId)))
    ensures req.verb != "GET" ==> r == BadRequest
  {
    if req.verb == "GET" then RespondWith(Some(GetUserDrawings(docs, req.userId)))
    else BadRequest
  }

  /**
   * The positions of the matching documents. `MatchIndicesExact` pins these
   * down without reference to the recursion (ascending, in range, matching,
   * and every matching position present), which makes them a reference for
   * the selection `Matching` performs.
   */
  function MatchIndices(docs: seq<Doc>, userId: string): seq<nat> {
    if docs == [] then []
    else
      var n := |docs| - 1;
      MatchIndices(docs[..n], userId) + (if docs[n].userId == userId then [n] else [])
  }

  predicate Increasing(idx: seq<nat>) {
    forall j, k :: 0 <= j < k < |idx| ==> idx[j] < idx[k]
  }

  /** The indices are exactly the positions of the matching documents, ascending. */
  lemma {:induction false} MatchIndicesExact(docs: seq<Doc>, userId: string)
    ensures Increasing(MatchIndices(docs, userId))
    ensures forall k :: 0 <= k < |MatchIndices(docs, userId)| ==>
              MatchIndices(docs, userId)[k] < |docs| && docs[MatchIndices(docs, userId)[k]].userId == userId
    ensures forall i :: 0 <= i < |docs| && docs[i].userId == userId ==> i in MatchIndices(docs, userId)
    decreases |docs|
  {
    if docs != [] {
      var n := |docs| - 1;
      var front := docs[..n];
      MatchIndicesExact(front, userId);
      var idx := MatchIndices(docs, userId);
      var prev := MatchIndices(front, userId);
      assert idx == prev + (if docs[n].userId == userId then [n] else []);
      assert forall k :: 0 <= k < |prev| ==> prev[k] < n;
      forall i | 0 <= i < |docs| && docs[i].userId == userId
        ensures i in idx
      {
        if i < n {
          assert front[i] == docs[i];
          assert i in prev;
        }
      }
    }
  }

  /** The query keeps exactly the documents at the matching positions, in that order. */
  lemma {:induction false} MatchingAtIndices(docs: seq<Doc>, userId: string)
    ensures |Matching(docs, userId)| == |MatchIndices(docs, userId)|
    ensures forall k :: 0 <= k < |MatchIndices(docs, userId)| ==>
              MatchIndices(docs, userId)[k] < |docs| &&
              Matching(docs, userId)[k] == docs[MatchIndices(docs, userId)[k]]
    decreases |docs|
  {
    if docs != [] {
      var n := |docs| - 1;
      var front := docs[..n];
      MatchingAtIndices(front, userId);
      MatchIndicesExact(front, userId);
      var prev, mp := MatchIndices(front, userId), Matching(front, userId);
      var idx, m := MatchIndices(docs, userId), Matching(docs, userId);
      var hit := docs[n].userId == userId;
      assert idx == prev + (if hit then [n] else []);
      assert m == mp + (if hit then [docs[n]] else []);
      forall k | 0 <= k < |idx|
        ensures idx[k] < |docs| && m[k] == docs[idx[k]]
      {
        if k < |prev| {
          assert idx[k] == prev[k] && m[k] == mp[k];
          assert front[prev[k]] == docs[prev[k]];
        }
      }
    }
  }

  /**
   * The listing is exactly the ordered selection of the matching documents:
   * one record per match, projected, in store order, and no others.
   */
  lemma ListIsOrderedSelection(docs: seq<Doc>, userId: string)
    ensures var idx := MatchIndices(docs, userId);
            var r := GetUserDrawings(docs, userId);
            && |r| == |idx|
            && Increasing(idx)
            && (forall k :: 0 <= k < |idx| ==>
                  idx[k] < |docs| && docs[idx[k]].userId == userId && r[k] == Project(docs[idx[k]]))
            && (forall i :: 0 <= i < |docs| && docs[i].userId == userId ==> i in idx)
  {
    MatchIndicesExact(docs, userId);
    MatchingAtIndices(docs, userId);
  }

  /** A document is listed for a user exactly when one with that id and those fields is stored for them. */
  lemma ListedIffStored(docs: seq<Doc>, userId: string, rec: ListRecord)
    ensures rec in GetUserDrawings(docs, userId) <==>
            exists i :: 0 <= i < |docs| && docs[i].userId == userId && Project(docs[i]) == rec
  {
    ListIsOrderedSelection(docs, userId);
    var idx := MatchIndices(docs, userId);
    var r := GetUserDrawings(docs, userId);
    if rec in r {
      var k :| 0 <= k < |r| && r[k] == rec;
      assert docs[idx[k]].userId == userId && Project(docs[idx[k]]) == rec;
    }
    if exists i :: 0 <= i < |docs| && docs[i].userId == userId && Project(docs[i]) == rec {
      var i :| 0 <= i < |docs| && docs[i].userId == userId && Project(docs[i]) == rec;
      assert i in idx;
      var k :| 0 <= k < |idx| && idx[k] == i;
      assert r[k] == rec;
    }
  }

  /** Listing after one more document: the old listing, then that document if it matches. */
  lemma ListAfterAppend(docs: seq<Doc>, d: Doc, userId: string)
    ensures GetUserDrawings(docs + [d], userId)
         == GetUserDrawings(docs, userId) + (if d.userId == userId then [Project(d)] else [])
  {
    assert (docs + [d])[..|docs|] == docs;
    assert Matching(docs + [d], userId) == Matching(docs, userId) + (if d.userId == userId then [d] else []);
  }

  /** With no matching document the route still answers 200, with an empty array. */
  lemma {:induction false} NoMatchListsEmpty(docs: seq<Doc>, userId: string)
    requires forall i :: 0 <= i < |docs| ==> docs[i].userId != userId
    ensures Handler(docs, ListRequest("GET", userId)) == Response(200, Records([]))
    decreases |docs|
  {
    if docs != [] {
      NoMatchListsEmpty(docs[..|docs| - 1], userId);
    }
  }
}
