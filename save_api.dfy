/**
 * The /api/save route: a POST appends one document to the "drawings"
 * collection and answers by the id the store returned; any other method is a
 * bad request and leaves the collection alone.
 *
 * The store's generated id is a parameter (`autoId`): the collection does not
 * choose it.
 */
module SaveApi {
  import opened Documents

  /** The document `saveUserDrawing` writes: the body's three fields under the store's id. */
  function NewDoc(body: SaveBody, id: string): (d: Doc)
    ensures d.id == id && d.userId == body.userId
    ensures d.name == body.drawingName && d.drawing == body.drawingData
  {
    Doc(id, body.userId, body.drawingName, body.drawingData)
  }

  /**
   * `handler`'s answer for the request's method and, for a POST, the id the
   * save returned; an empty id is the falsy case.
   */
  function Respond(verb: string, drawingId: string): (r: Response)
    ensures ClientError(r.status) <==> verb != "POST"
    ensures Successful(r.status) <==> verb == "POST" && drawingId != ""
    ensures ServerError(r.status) <==> verb == "POST" && drawingId == ""
    ensures r.body.Message?
    ensures verb != "POST" ==> r == BadRequest
    ensures verb == "POST" && drawingId != "" ==> r == Response(200, Message("Drawing saved successfully"))
    ensures verb == "POST" && drawingId == "" ==> r == Response(500, Message("Error saving drawing"))
  {
    if verb == "POST" then
      if drawingId != "" then Response(200, Message("Drawing saved successfully"))
      else Response(500, Message("Error saving drawing"))
    else BadRequest
  }

  /** The collection after the route handled `req`, the store having generated `autoId`. */
  function Saved(docs: seq<Doc>, req: SaveRequest, autoId: string): (r: seq<Doc>)
    ensures |r| == |docs| + (if req.verb == "POST" then 1 else 0)
    ensures r[..|docs|] == docs
    ensures req.verb == "POST" ==> r[|docs|] == NewDoc(req.body, autoId)
  {
    if req.verb == "POST" then docs + [NewDoc(req.body, autoId)] else docs
  }

  predicate UniqueIds(docs: seq<Doc>) {
    forall i, j :: 0 <= i < j < |docs| ==> docs[i].id != docs[j].id
  }

  /** With a fresh id from the store, a save keeps the ids unique. */
  lemma SavedKeepsIdsUnique(docs: seq<Doc>, req: SaveRequest, autoId: string)
    requires UniqueIds(docs)
    requires forall i :: 0 <= i < |docs| ==> docs[i].id != autoId
    ensures UniqueIds(Saved(docs, req, autoId))
  {
  }

  /** The "drawings" collection. */
  class DrawingsCollection {
    var docs: seq<Doc>

    constructor (initial: seq<Doc>)
      ensures docs == initial
    {
      docs := initial;
    }

    /** `saveUserDrawing`: append one document and return its id. */
    method SaveUserDrawing(userId: string, drawingName: string, drawingData: string, autoId: string)
      returns (drawingId: string)
      modifies this
      ensures docs == old(docs) + [Doc(autoId, userId, drawingName, drawingData)]
      ensures drawingId == docs[|docs| - 1].id
    {
      docs := docs + [Doc(autoId, userId, drawingName, drawingData)];
      drawingId := autoId;
    }

    /** `handler`. */
    method Handler(req: SaveRequest, autoId: string) returns (res: Response)
      modifies this
      ensures docs == Saved(old(docs), req, autoId)
      ensures res == Respond(req.verb, autoId)
    {
      if req.verb == "POST" {
        var drawingId := SaveUserDrawing(req.body.userId, req.body.drawingName, req.body.drawingData, autoId);
        if drawingId != "" {
          res := Response(200, Message("Drawing saved successfully"));
        } else {
          res := Response(500, Message("Error saving drawing"));
        }
      } else {
        res := BadRequest;
      }
    }
  }
}
