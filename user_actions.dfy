/** The user thunks: sign-up and sign-in validate and trim the form before posting it,
    and every thunk's dispatches to the user slice depend only on whether the request
    succeeded. A request is an abstract `Response`: its data, or a failure. */
module UserActions {
  import opened Common
  import opened Text
  import opened UserSlice

  /** The form fields the sign-up and sign-in pages pass in. */
  datatype UserDetails = UserDetails(email: string, password: string, firstName: string, lastName: string)

  /** The body of `POST /api/auth/register`. */
  datatype RegisterBody = RegisterBody(fullName: FullName, email: string, password: string)

  /** The body of `POST /api/auth/login`. */
  datatype LoginBody = LoginBody(email: string, password: string)

  /** What a thunk resolves to: `undefined`, or `{success}`. */
  datatype Outcome = Undefined | Settled(success: bool)

  /** Lines 5-18: the request sign-up posts, or none when a trimmed field is empty. */
  function RegisterRequest(d: UserDetails): (r: Option<RegisterBody>)
    ensures r.None? <==> IsBlank(d.email) || IsBlank(d.password) || IsBlank(d.firstName) || IsBlank(d.lastName)
    ensures r.Some? ==>
              r.value == RegisterBody(FullName(Trim(d.firstName), Trim(d.lastName)), Trim(d.email), Trim(d.password))
  {
    TrimEmptyIffBlank(d.email);
    TrimEmptyIffBlank(d.password);
    TrimEmptyIffBlank(d.firstName);
    TrimEmptyIffBlank(d.lastName);
    var email := Trim(d.email);
    var password := Trim(d.password);
    var firstName := Trim(d.firstName);
    var lastName := Trim(d.lastName);
    if email == "" || password == "" || firstName == "" || lastName == "" then None
    else Some(RegisterBody(FullName(firstName, lastName), email, password))
  }

  /** Lines 29-39: sign-in checks only the email and the password. */
  function LoginRequest(d: UserDetails): (r: Option<LoginBody>)
    ensures r.None? <==> IsBlank(d.email) || IsBlank(d.password)
    ensures r.Some? ==> r.value == LoginBody(Trim(d.email), Trim(d.password))
  {
    TrimEmptyIffBlank(d.email);
    TrimEmptyIffBlank(d.password);
    var email := Trim(d.email);
    var password := Trim(d.password);
    if email == "" || password == "" then None else Some(LoginBody(email, password))
  }

  /** A field as it reaches the server: non-empty, without surrounding white space. */
  predicate Trimmed(f: string) {
    f != [] && !IsSpace(f[0]) && !IsSpace(f[|f| - 1])
  }

  lemma TrimmedWhenNotBlank(f: string)
    requires !IsBlank(f)
    ensures Trimmed(Trim(f))
  {
    TrimEmptyIffBlank(f);
  }

  /** Every field sign-up posts is trimmed and non-empty, whatever the form held. */
  lemma RegisterRequestTrimmed(d: UserDetails)
    requires RegisterRequest(d).Some?
    ensures var b := RegisterRequest(d).value;
            Trimmed(b.email) && Trimmed(b.password) && Trimmed(b.fullName.firstName) && Trimmed(b.fullName.lastName)
  {
    TrimmedWhenNotBlank(d.email);
    TrimmedWhenNotBlank(d.password);
    TrimmedWhenNotBlank(d.firstName);
    TrimmedWhenNotBlank(d.lastName);
  }

  /** `registerUser` (lines 5-27). `response` is the outcome of the post; its data is
      `data.user`. */
  method RegisterUser(d: UserDetails, response: Response<Option<Profile>>)
    returns (request: Option<RegisterBody>, dispatched: seq<UserAction>, result: Outcome)
    ensures request == RegisterRequest(d)
    ensures request.None? ==> dispatched == [] && result == Undefined
    ensures request.Some? && response.Ok? ==> dispatched == [Load(response.data)] && result == Settled(true)
    ensures request.Some? && response.Failed? ==> dispatched == [] && result == Settled(false)
    ensures forall s :: result == Settled(true) ==> Run(s, dispatched) == UserState(response.data, false)
  {
    request := RegisterRequest(d);
    dispatched := [];
    if request.None? {
      result := Undefined;
      return;
    }
    if response.Ok? {
      dispatched := dispatched + [Load(response.data)];
      result := Settled(true);
    } else {
      result := Settled(false);
    }
  }

  /** `loginUser` (lines 29-48). */
  method LoginUser(d: UserDetails, response: Response<Option<Profile>>)
    returns (request: Option<LoginBody>, dispatched: seq<UserAction>, result: Outcome)
    ensures request == LoginRequest(d)
    ensures request.None? ==> dispatched == [] && result == Undefined
    ensures request.Some? && response.Ok? ==> dispatched == [Load(response.data)] && result == Settled(true)
    ensures request.Some? && response.Failed? ==> dispatched == [] && result == Settled(false)
    ensures forall s :: result == Settled(true) ==> Run(s, dispatched) == UserState(response.data, false)
  {
    request := LoginRequest(d);
    dispatched := [];
    if request.None? {
      result := Undefined;
      return;
    }
    if response.Ok? {
      dispatched := dispatched + [Load(response.data)];
      result := Settled(true);
    } else {
      result := Settled(false);
    }
  }

  /** `getUser` (lines 50-61): loading is raised first and lowered in `finally`, so the
      slice always ends settled, holding the fetched user on success and the previous one
      otherwise. */
  method GetUser(response: Response<Option<Profile>>) returns (dispatched: seq<UserAction>)
    ensures |dispatched| >= 2
    ensures dispatched[0] == SetLoading(true) && dispatched[|dispatched| - 1] == SetLoading(false)
    ensures response.Ok? ==> dispatched == [SetLoading(true), Load(response.data), SetLoading(false)]
    ensures response.Failed? ==> dispatched == [SetLoading(true), SetLoading(false)]
    ensures forall s ::
              Run(s, dispatched) == UserState(if response.Ok? then response.data else s.user, false)
  {
    dispatched := [SetLoading(true)];
    if response.Ok? {
      dispatched := dispatched + [Load(response.data)];
    }
    dispatched := dispatched + [SetLoading(false)];
    forall s ensures Run(s, dispatched) == UserState(if response.Ok? then response.data else s.user, false) {
      var body := dispatched[..|dispatched| - 1];
      assert dispatched == body + [SetLoading(false)];
      SettlesAfter(s, body, SetLoading(false));
      if response.Ok? {
        assert body == [SetLoading(true)] + [Load(response.data)];
        SettlesAfter(s, [SetLoading(true)], Load(response.data));
      } else {
        assert body == [] + [SetLoading(true)];
        RunAppend(s, [], [SetLoading(true)]);
      }
    }
  }

  /** `logOutUser` (lines 63-71): the slice is cleared only when the server confirms. */
  method LogOutUser(response: Response<()>) returns (dispatched: seq<UserAction>)
    ensures dispatched == (if response.Ok? then [Logout] else [])
    ensures forall s :: Run(s, dispatched) == (if response.Ok? then UserState(None, false) else s)
  {
    dispatched := [];
    if response.Ok? {
      dispatched := dispatched + [Logout];
    }
  }
}
