/**
 * Properties that span the pages and the routes: what a save does to later
 * listings, and what the dashboard shows for the documents in the store.
 */
module RoundTrip {
  import opened Wrappers
  import opened Documents
  import opened DrawingSlice
  import DrawNew
  import SaveApi
  import ListApi
  import Dashboard

  /** How `fetchUserData` reads a list response: `res.ok` is a 2xx status, then the body is parsed. */
  function OutcomeOf(res: Response): (o: Dashboard.Outcome)
    requires Successful(res.status) ==> res.body.Records?
    ensures o.Ok? <==> Successful(res.status)
    ensures o.Ok? ==> o.data == res.body.records
    ensures !o.Ok? ==> o == Dashboard.NotOk
  {
    if Successful(res.status) then Dashboard.Ok(res.body.records) else Dashboard.NotOk
  }

  /**
   * A save adds exactly one record to its owner's listing, with the id the
   * store gave it. In the model's insertion-ordered sequence that record comes
   * last; membership holds whatever order the store lists in.
   */
  lemma SaveThenList(docs: seq<Doc>, body: SaveBody, autoId: string)
    ensures ListRecord(autoId, body.userId, body.drawingName, body.drawingData)
            in ListApi.GetUserDrawings(SaveApi.Saved(docs, SaveRequest("POST", body), autoId), body.userId)
    ensures ListApi.GetUserDrawings(SaveApi.Saved(docs, SaveRequest("POST", body), autoId), body.userId)
         == ListApi.GetUserDrawings(docs, body.userId)
            + [ListRecord(autoId, body.userId, body.drawingName, body.drawingData)]
  {
    ListApi.ListAfterAppend(docs, SaveApi.NewDoc(body, autoId), body.userId);
  }

  /** A save by one user never changes another user's listing; a request that is not a POST changes no listing. */
  lemma SaveIsolation(docs: seq<Doc>, req: SaveRequest, autoId: string, other: string)
    requires req.verb != "POST" || other != req.body.userId
    ensures ListApi.GetUserDrawings(SaveApi.Saved(docs, req, autoId), other) == ListApi.GetUserDrawings(docs, other)
  {
    if req.verb == "POST" {
      ListApi.ListAfterAppend(docs, SaveApi.NewDoc(req.body, autoId), other);
    }
  }

  /**
   * The whole trip of one drawing: the new-drawing page posts it, the save
   * route stores it, the list route returns it (last, in the model's
   * insertion order), and picking it on the dashboard yields the saved name
   * and scene unchanged, an empty name too.
   */
  lemma CanvasToSelection(docs: seq<Doc>, uid: string, name: string, scene: string, autoId: string)
    ensures var req := DrawNew.SaveDrawingRequest(uid, name, scene);
            var listed := ListApi.GetUserDrawings(SaveApi.Saved(docs, req, autoId), uid);
            && listed != []
            && Dashboard.Selection(listed[|listed| - 1]) == Dashboard.SelectedDrawing(autoId, name, scene)
  {
    SaveThenList(docs, SaveBody(uid, name, scene), autoId);
  }

  /**
   * From a store with no error, the dashboard of a signed-in user ends up
   * listing exactly that user's stored drawings, in store order.
   */
  lemma DashboardShowsStoredDrawings(vm: ViewModel, docs: seq<Doc>, u: Dashboard.User)
    requires !Dashboard.Truthy(vm.error)
    ensures var res := ListApi.Handler(docs, ListRequest("GET", u.uid));
            var after := Dashboard.Replay(vm, Dashboard.EffectSteps(Some(u), OutcomeOf(res)));
            Dashboard.Render(after, Some(u)) == Dashboard.DrawingList(ListApi.GetUserDrawings(docs, u.uid))
  {
    Dashboard.CleanOkShowsList(vm, u, ListApi.GetUserDrawings(docs, u.uid));
  }

  /** A user with no stored drawings sees an empty list, not an error. */
  lemma NoDrawingsShowsEmptyList(vm: ViewModel, docs: seq<Doc>, u: Dashboard.User)
    requires !Dashboard.Truthy(vm.error)
    requires forall i :: 0 <= i < |docs| ==> docs[i].userId != u.uid
    ensures var res := ListApi.Handler(docs, ListRequest("GET", u.uid));
            var after := Dashboard.Replay(vm, Dashboard.EffectSteps(Some(u), OutcomeOf(res)));
            Dashboard.Render(after, Some(u)) == Dashboard.DrawingList([])
  {
    ListApi.NoMatchListsEmpty(docs, u.uid);
    Dashboard.CleanOkShowsList(vm, u, []);
  }
}
