/** The client's user slice: the signed-in profile and whether it is still being loaded. */
module UserSlice {
  import opened Common

  datatype FullName = FullName(firstName: string, lastName: string)

  /** The user record the server returns; the slice stores it as it comes. */
  datatype Profile = Profile(id: string, email: string, fullName: FullName)

  datatype UserState = UserState(user: Option<Profile>, loading: bool)

  /** The slice's actions: `loadUser(payload)`, `logoutUser()`, `setUserLoading(payload)`.
      A `loadUser` whose payload is `undefined` stores nothing, hence the option. */
  datatype UserAction = Load(payload: Option<Profile>) | Logout | SetLoading(loading: bool)

  /** Lines 3-6: no user yet, loading. */
  const InitialState: UserState := UserState(None, true)

  /** Lines 12-22: what one action does to the slice. */
  function Reduce(s: UserState, a: UserAction): UserState {
    match a
    case Load(payload) => UserState(payload, false)
    case Logout => UserState(None, false)
    case SetLoading(loading) => s.(loading := loading)
  }

  /** The slice after dispatching `log` in order. */
  function Run(s: UserState, log: seq<UserAction>): UserState
    decreases |log|
  {
    if log == [] then s else Run(Reduce(s, log[0]), log[1..])
  }

  lemma {:induction false} RunAppend(s: UserState, a: seq<UserAction>, b: seq<UserAction>)
    ensures Run(s, a + b) == Run(Run(s, a), b)
    decreases |a|
  {
    if a == [] {
      assert a + b == b;
    } else {
      assert (a + b)[1..] == a[1..] + b;
      RunAppend(Reduce(s, a[0]), a[1..], b);
    }
  }

  /** A log that ends with `loadUser`, `logoutUser` or `setUserLoading(false)` leaves the
      slice settled, whatever came before; only `setUserLoading` keeps the user. */
  lemma SettlesAfter(s: UserState, log: seq<UserAction>, last: UserAction)
    requires last.Load? || last.Logout? || last == SetLoading(false)
    ensures !Run(s, log + [last]).loading
    ensures last.Load? ==> Run(s, log + [last]).user == last.payload
    ensures last.Logout? ==> Run(s, log + [last]).user.None?
    ensures last.SetLoading? ==> Run(s, log + [last]).user == Run(s, log).user
  {
    RunAppend(s, log, [last]);
  }

  /** The slice as the store holds it; each reducer assigns its fields in place. */
  class UserStore {
    var user: Option<Profile>
    var loading: bool

    function State(): UserState
      reads this
    {
      UserState(user, loading)
    }

    constructor ()
      ensures State() == InitialState
    {
      user, loading := None, true;
    }

    /** Lines 12-15. */
    method LoadUser(payload: Option<Profile>)
      modifies this
      ensures user == payload && !loading
      ensures State() == Reduce(old(State()), Load(payload))
    {
      user := payload;
      loading := false;
    }

    /** Lines 16-19. */
    method LogoutUser()
      modifies this
      ensures user.None? && !loading
      ensures State() == Reduce(old(State()), Logout)
    {
      user := None;
      loading := false;
    }

    /** Lines 20-22: only the flag changes. */
    method SetUserLoading(b: bool)
      modifies this
      ensures loading == b && user == old(user)
      ensures State() == Reduce(old(State()), SetLoading(b))
    {
      loading := b;
    }

    /** `dispatch` of one of the slice's actions. */
    method Dispatch(a: UserAction)
      modifies this
      ensures State() == Reduce(old(State()), a)
    {
      match a
      case Load(payload) => LoadUser(payload);
      case Logout => LogoutUser();
      case SetLoading(b) => SetUserLoading(b);
    }
  }
}
