/**
 * The "userDrawings" slice of the session store: the drawings list, the
 * loading flag and the error message, with one setter per field.
 *
 * `Reduce` is the slice's reducer on values; the class `UserDrawings` is the
 * mutable state object each reducer assigns one field of.
 */
module DrawingSlice {
  import opened Wrappers
  import opened Documents

  datatype ViewModel = ViewModel(drawings: seq<ListRecord>, loading: bool, error: Option<string>)

  /** `initialState`: no drawings, not loading, no error. */
  const Initial := ViewModel([], false, None)

  /** The slice's actions; these three are all it exports. */
  datatype Action =
    | SetDrawings(drawings: seq<ListRecord>)
    | SetLoading(loading: bool)
    | SetError(error: Option<string>)

  /** The three fields of the view-model, to say which one an action writes. */
  datatype Field = DrawingsField | LoadingField | ErrorField

  function Target(a: Action): Field {
    match a
    case SetDrawings(_) => DrawingsField
    case SetLoading(_) => LoadingField
    case SetError(_) => ErrorField
  }

  /** Two view-models hold the same value in field `f`. */
  predicate Agree(vm: ViewModel, vm': ViewModel, f: Field) {
    match f
    case DrawingsField => vm.drawings == vm'.drawings
    case LoadingField => vm.loading == vm'.loading
    case ErrorField => vm.error == vm'.error
  }

  /** The state holds the action's payload in the field the action targets. */
  predicate Carries(vm: ViewModel, a: Action) {
    match a
    case SetDrawings(p) => vm.drawings == p
    case SetLoading(p) => vm.loading == p
    case SetError(p) => vm.error == p
  }

  /** The reducer: each action assigns its payload to its own field. */
  function Reduce(vm: ViewModel, a: Action): (r: ViewModel)
    ensures Carries(r, a)
    ensures forall f :: f != Target(a) ==> Agree(r, vm, f)
  {
    match a
    case SetDrawings(p) => vm.(drawings := p)
    case SetLoading(p) => vm.(loading := p)
    case SetError(p) => vm.(error := p)
  }

  /** An action changes only the field it targets and leaves the other two alone. */
  lemma ReduceWritesOneField(vm: ViewModel, a: Action, f: Field)
    requires f != Target(a)
    ensures Agree(Reduce(vm, a), vm, f)
  {
  }

  /** Applying the same action twice gives the state applying it once gives. */
  lemma ReduceIdempotent(vm: ViewModel, a: Action)
    ensures Reduce(Reduce(vm, a), a) == Reduce(vm, a)
  {
  }

  /** Of two actions on the same field, the later one wins. */
  lemma LaterActionWins(vm: ViewModel, a: Action, b: Action)
    requires Target(a) == Target(b)
    ensures Reduce(Reduce(vm, a), b) == Reduce(vm, b)
  {
  }

  /** Actions on different fields commute. */
  lemma DistinctFieldsCommute(vm: ViewModel, a: Action, b: Action)
    requires Target(a) != Target(b)
    ensures Reduce(Reduce(vm, a), b) == Reduce(Reduce(vm, b), a)
  {
  }

  /** The slice's mutable state. */
  class UserDrawings {
    var drawings: seq<ListRecord>
    var loading: bool
    var error: Option<string>

    function View(): ViewModel
      reads this
    {
      ViewModel(drawings, loading, error)
    }

    constructor ()
      ensures View() == Initial
    {
      drawings := [];
      loading := false;
      error := None;
    }

    method SetDrawings(payload: seq<ListRecord>)
      modifies this
      ensures drawings == payload && loading == old(loading) && error == old(error)
      ensures View() == Reduce(old(View()), Action.SetDrawings(payload))
    {
      drawings := payload;
    }

    method SetLoading(payload: bool)
      modifies this
      ensures loading == payload && drawings == old(drawings) && error == old(error)
      ensures View() == Reduce(old(View()), Action.SetLoading(payload))
    {
      loading := payload;
    }

    method SetError(payload: Option<string>)
      modifies this
      ensures error == payload && drawings == old(drawings) && loading == old(loading)
      ensures View() == Reduce(old(View()), Action.SetError(payload))
    {
      error := payload;
    }

    /** `dispatch`: hands the action to its reducer. */
    method Dispatch(a: Action)
      modifies this
      ensures View() == Reduce(old(View()), a)
    {
      match a
      case SetDrawings(p) => SetDrawings(p);
      case SetLoading(p) => SetLoading(p);
      case SetError(p) => SetError(p);
    }
  }
}
