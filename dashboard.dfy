/**
 * The dashboard page: the mount effect (redirect guard, then the fixed
 * sequence of dispatches around the list request), the choice of what to
 * render, and the record renaming done when a drawing is picked.
 *
 * The network is a parameter: `Outcome` says how the request ended.
 */
module Dashboard {
  import opened Wrappers
  import opened Documents
  import opened DrawingSlice

  /** The signed-in user as the auth slice holds it. */
  datatype User = User(uid: string, email: string)

  /**
   * How the list request ended: an ok response whose JSON parsed to `data`,
   * a response that was not ok, or an exception with its message (from
   * `fetch` or from parsing the body).
   */
  datatype Outcome = Ok(data: seq<ListRecord>) | NotOk | Threw(message: string)

  /** What the effect does, in order: navigate, dispatch an action, or issue the request. */
  datatype Step = Redirect(path: string) | Dispatch(action: Action) | Fetch(url: string)

  const LoginPath := "/login"
  const FetchFailed := "Failed to fetch user data"

  const ListQuery := "http://localhost:3000/api/list?userId="

  /** The request URL: the list endpoint with the uid as its `userId` parameter, not encoded. */
  function ListUrl(uid: string): (url: string)
    ensures |url| == |ListQuery| + |uid|
    ensures url[..|ListQuery|] == ListQuery && url[|ListQuery|..] == uid
  {
    ListQuery + uid
  }

  /** The effect's steps: the guard, then `fetchUserData`'s try, catch and finally. */
  function EffectSteps(user: Option<User>, outcome: Outcome): (steps: seq<Step>)
    ensures steps != []
    ensures forall k :: 0 <= k < |steps| ==> (steps[k].Redirect? <==> user.None?)
  {
    match user
    case None => [Redirect(LoginPath)]
    case Some(u) =>
      [Dispatch(SetLoading(true)), Fetch(ListUrl(u.uid))]
      + (match outcome
         case Ok(data) => [Dispatch(SetDrawings(data))]
         case NotOk => [Dispatch(SetError(Some(FetchFailed)))]
         case Threw(m) => [Dispatch(SetError(Some(m)))])
      + [Dispatch(SetLoading(false))]
  }

  /** The session store after the steps: dispatches reduce it, the rest leave it alone. */
  function Replay(vm: ViewModel, steps: seq<Step>): (r: ViewModel)
    ensures (forall k :: 0 <= k < |steps| ==> !steps[k].Dispatch?) ==> r == vm
    decreases |steps|
  {
    if steps == [] then vm
    else
      var next := if steps[0].Dispatch? then Reduce(vm, steps[0].action) else vm;
      Replay(next, steps[1..])
  }

  lemma {:induction false} ReplayAppend(vm: ViewModel, a: seq<Step>, b: seq<Step>)
    ensures Replay(vm, a + b) == Replay(Replay(vm, a), b)
    decreases |a|
  {
    if a == [] {
      assert a + b == b;
    } else {
      assert (a + b)[0] == a[0] && (a + b)[1..] == a[1..] + b;
      var next := if a[0].Dispatch? then Reduce(vm, a[0].action) else vm;
      ReplayAppend(next, a[1..], b);
    }
  }

  lemma ReplayOne(vm: ViewModel, s: Step)
    ensures Replay(vm, [s]) == if s.Dispatch? then Reduce(vm, s.action) else vm
  {
    assert [s][1..] == [];
  }

  /** The store after the effect, spelled out step by step. */
  lemma {:induction false} EffectOutcome(vm: ViewModel, user: Option<User>, outcome: Outcome)
    ensures user.None? ==> Replay(vm, EffectSteps(user, outcome)) == vm
    ensures user.Some? && outcome.Ok? ==>
              Replay(vm, EffectSteps(user, outcome)) == vm.(drawings := outcome.data, loading := false)
    ensures user.Some? && outcome.NotOk? ==>
              Replay(vm, EffectSteps(user, outcome)) == vm.(error := Some(FetchFailed), loading := false)
    ensures user.Some? && outcome.Threw? ==>
              Replay(vm, EffectSteps(user, outcome)) == vm.(error := Some(outcome.message), loading := false)
  {
    var steps := EffectSteps(user, outcome);
    match user
    case None =>
      ReplayOne(vm, Redirect(LoginPath));
    case Some(u) =>
      var head := [Dispatch(SetLoading(true)), Fetch(ListUrl(u.uid))];
      var mid := match outcome
                 case Ok(data) => [Dispatch(SetDrawings(data))]
                 case NotOk => [Dispatch(SetError(Some(FetchFailed)))]
                 case Threw(m) => [Dispatch(SetError(Some(m)))];
      var tail := [Dispatch(SetLoading(false))];
      assert steps == head + mid + tail;
      assert head == [Dispatch(SetLoading(true))] + [Fetch(ListUrl(u.uid))];
      ReplayAppend(vm, head + mid, tail);
      ReplayAppend(vm, head, mid);
      ReplayAppend(vm, [Dispatch(SetLoading(true))], [Fetch(ListUrl(u.uid))]);
      ReplayOne(vm, Dispatch(SetLoading(true)));
      var v1 := vm.(loading := true);
      ReplayOne(v1, Fetch(ListUrl(u.uid)));
      ReplayOne(v1, mid[0]);
      var v2 := Reduce(v1, mid[0].action);
      ReplayOne(v2, tail[0]);
  }

  /**
   * The guard and the order of the effect: with no user it only redirects to
   * the login page; otherwise loading is set before the one request is
   * issued, and cleared last, whatever the outcome.
   */
  lemma EffectOrder(user: Option<User>, outcome: Outcome)
    ensures user.None? ==> EffectSteps(user, outcome) == [Redirect(LoginPath)]
    ensures user.Some? ==>
              var steps := EffectSteps(user, outcome);
              && |steps| == 4
              && steps[0] == Dispatch(SetLoading(true))
              && steps[1] == Fetch(ListUrl(user.value.uid))
              && steps[3] == Dispatch(SetLoading(false))
              && (forall k :: 0 <= k < |steps| && k != 1 ==> steps[k].Dispatch?)
  {
  }

  /** Loading is false once the effect has run, for every user and outcome. */
  lemma EffectClearsLoading(vm: ViewModel, user: Option<User>, outcome: Outcome)
    requires user.Some? || !vm.loading
    ensures !Replay(vm, EffectSteps(user, outcome)).loading
  {
    EffectOutcome(vm, user, outcome);
  }

  /** An ok response replaces the drawings and leaves the error as it was; a failure sets the error and leaves the drawings. */
  lemma EffectFieldFrames(vm: ViewModel, u: User, outcome: Outcome)
    ensures outcome.Ok? ==>
              Replay(vm, EffectSteps(Some(u), outcome)).drawings == outcome.data &&
              Replay(vm, EffectSteps(Some(u), outcome)).error == vm.error
    ensures !outcome.Ok? ==>
              Replay(vm, EffectSteps(Some(u), outcome)).drawings == vm.drawings &&
              Replay(vm, EffectSteps(Some(u), outcome)).error.Some?
    ensures outcome.NotOk? ==> Replay(vm, EffectSteps(Some(u), outcome)).error == Some(FetchFailed)
  {
    EffectOutcome(vm, Some(u), outcome);
  }

  /** The slice's `error` as `if (error)` reads it: null and "" are falsy. */
  predicate Truthy(error: Option<string>) {
    error.Some? && error.value != ""
  }

  /** What the page renders. */
  datatype Screen = Loading | Failure(message: string) | Redirecting | DrawingList(drawings: seq<ListRecord>)

  /** The render: loading first, then the error, then the redirect notice, then the list. */
  function Render(vm: ViewModel, user: Option<User>): (r: Screen)
    ensures r.Loading? <==> vm.loading
    ensures r.Failure? <==> !vm.loading && Truthy(vm.error)
    ensures r.Redirecting? <==> !vm.loading && !Truthy(vm.error) && user.None?
    ensures r.DrawingList? <==> !vm.loading && !Truthy(vm.error) && user.Some?
    ensures r.Failure? ==> Some(r.message) == vm.error
    ensures r.DrawingList? ==> r.drawings == vm.drawings
  {
    if vm.loading then Loading
    else if Truthy(vm.error) then Failure(vm.error.value)
    else if user.None? then Redirecting
    else DrawingList(vm.drawings)
  }

  /** After the effect, a signed-in user never sees the loading view. */
  lemma SettledEffectNeverShowsLoading(vm: ViewModel, u: User, outcome: Outcome)
    ensures !Render(Replay(vm, EffectSteps(Some(u), outcome)), Some(u)).Loading?
  {
    EffectClearsLoading(vm, Some(u), outcome);
  }

  /** From a store with no error, an ok response shows exactly the fetched list (empty included). */
  lemma CleanOkShowsList(vm: ViewModel, u: User, data: seq<ListRecord>)
    requires !Truthy(vm.error)
    ensures Render(Replay(vm, EffectSteps(Some(u), Ok(data))), Some(u)) == DrawingList(data)
  {
    EffectOutcome(vm, Some(u), Ok(data));
  }

  /** A not-ok response shows the fixed failure message. */
  lemma NotOkShowsFailure(vm: ViewModel, u: User)
    ensures Render(Replay(vm, EffectSteps(Some(u), NotOk)), Some(u)) == Failure(FetchFailed)
  {
    EffectOutcome(vm, Some(u), NotOk);
  }

  /** No action ever clears the error, so an error left in the store hides even a successful list. */
  lemma StaleErrorHidesList(vm: ViewModel, u: User, data: seq<ListRecord>)
    requires Truthy(vm.error)
    ensures Render(Replay(vm, EffectSteps(Some(u), Ok(data))), Some(u)) == Failure(vm.error.value)
  {
    EffectOutcome(vm, Some(u), Ok(data));
  }

  /**
   * The mount effect run against the session store: the trace of what it
   * did, and the store the dispatches left behind.
   */
  method Effect(store: UserDrawings, user: Option<User>, outcome: Outcome) returns (trace: seq<Step>)
    modifies store
    ensures trace == EffectSteps(user, outcome)
    ensures store.View() == Replay(old(store.View()), trace)
  {
    if user.None? {
      trace := [Redirect(LoginPath)];
      ReplayOne(store.View(), Redirect(LoginPath));
      return;
    }
    EffectOutcome(store.View(), user, outcome);
    store.Dispatch(SetLoading(true));
    trace := [Dispatch(SetLoading(true)), Fetch(ListUrl(user.value.uid))];
    match outcome {
      case Ok(data) =>
        store.Dispatch(SetDrawings(data));
        trace := trace + [Dispatch(SetDrawings(data))];
      case NotOk =>
        store.Dispatch(SetError(Some(FetchFailed)));
        trace := trace + [Dispatch(SetError(Some(FetchFailed)))];
      case Threw(m) =>
        store.Dispatch(SetError(Some(m)));
        trace := trace + [Dispatch(SetError(Some(m)))];
    }
    store.Dispatch(SetLoading(false));
    trace := trace + [Dispatch(SetLoading(false))];
  }

  /** The drawing `handleLoadDrawing` builds from a clicked list record. */
  datatype SelectedDrawing = SelectedDrawing(id: string, name: string, jsonData: string)

  /** `handleLoadDrawing`'s renaming: `drawingId` to `id`, `drawing` to `jsonData`; `userId` is dropped. */
  function Selection(rec: ListRecord): (s: SelectedDrawing)
    ensures s.id == rec.drawingId && s.name == rec.name && s.jsonData == rec.drawing
  {
    SelectedDrawing(rec.drawingId, rec.name, rec.drawing)
  }

  /** Records that differ only in their owner give the same selection. */
  lemma SelectionIgnoresOwner(rec: ListRecord, owner: string)
    ensures Selection(rec.(userId := owner)) == Selection(rec)
  {
  }
}
