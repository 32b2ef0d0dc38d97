/** The auth slice: the signed-in user, the token, the loading and refresh
    flags, the last error, and the password-reset sub-state. */
module AuthSlice {
  import opened Js

  /** The user object after logout: four fields, all `null`. */
  const LoggedOutUser: map<string, Val> :=
    map["name" := Null, "surname" := Null, "email" := Null, "role" := Null]

  /** The fields a normalised user carries that default to `null`. */
  const NullableFields: set<string> := {"name", "surname", "email", "telephone"}

  /** `action.payload || {}`, destructured. */
  function PayloadUser(payload: Val): Val {
    Prop(Or(payload, Obj(map[])), "user")
  }

  function PayloadToken(payload: Val): Val {
    Prop(Or(payload, Obj(map[])), "token")
  }

  /** `user?._id || user?.id` */
  function UserId(user: Val): Val {
    Or(Prop(user, "_id"), Prop(user, "id"))
  }

  /** The user object the register, login and refresh cases build from the
      server's `user`: its id (`_id`, else `id`, else null), each profile
      field or null, the role or "user", the addresses or an empty list. */
  function NormaliseUser(user: Val): (u: map<string, Val>)
    ensures u.Keys == NullableFields + {"_id", "role", "addresses"}
    ensures Truthy(u["_id"]) <==> Truthy(Prop(user, "_id")) || Truthy(Prop(user, "id"))
    ensures Truthy(Prop(user, "_id")) ==> u["_id"] == Prop(user, "_id")
    ensures !Truthy(u["_id"]) ==> u["_id"] == Null
  {
    map[
      "_id" := Or(UserId(user), Null),
      "name" := Or(Prop(user, "name"), Null),
      "surname" := Or(Prop(user, "surname"), Null),
      "email" := Or(Prop(user, "email"), Null),
      "role" := Or(Prop(user, "role"), Str("user")),
      "telephone" := Or(Prop(user, "telephone"), Null),
      "addresses" := Or(Prop(user, "addresses"), Arr([]))]
  }

  /** `u[k]` is the server user's `k` when that is truthy, else `fallback`. */
  predicate DefaultsTo(u: map<string, Val>, user: Val, k: string, fallback: Val) {
    k in u && if Truthy(Prop(user, k)) then u[k] == Prop(user, k) else u[k] == fallback
  }

  /** Each profile field of the normalised user is the server's value when
      truthy and `null` otherwise; the role defaults to "user" and the
      addresses to an empty list. */
  lemma NormaliseUserDefaults(user: Val)
    ensures forall k :: k in NullableFields ==> DefaultsTo(NormaliseUser(user), user, k, Null)
    ensures DefaultsTo(NormaliseUser(user), user, "role", Str("user"))
    ensures DefaultsTo(NormaliseUser(user), user, "addresses", Arr([]))
  {
  }

  /** The two password-reset flows share one sub-state and differ only in
      their default messages. */
  datatype ResetFlow = SendResetEmail | ResetPassword

  function ResetSuccessDefault(flow: ResetFlow): string {
    match flow
    case SendResetEmail => "Reset email sent"
    case ResetPassword => "Password has been reset"
  }

  function ResetFailureDefault(flow: ResetFlow): string {
    match flow
    case SendResetEmail => "Reset failed"
    case ResetPassword => "Password reset failed"
  }

  /** `action.payload ?? action.error?.message ?? default` */
  function ResetFailureMessage(flow: ResetFlow, payload: Val, errorMessage: Val): (m: Val)
    ensures !IsNullish(m)
    ensures !IsNullish(payload) ==> m == payload
    ensures IsNullish(payload) && !IsNullish(errorMessage) ==> m == errorMessage
    ensures IsNullish(payload) && IsNullish(errorMessage) ==> m == Str(ResetFailureDefault(flow))
  {
    Nullish(payload, Nullish(errorMessage, Str(ResetFailureDefault(flow))))
  }

  class AuthState {
    var user: map<string, Val>
    var token: Val
    var isLoggedIn: bool
    var isLoading: bool
    var isRefreshing: bool
    var error: Val
    var resetSending: bool
    var resetSuccess: bool
    var resetMessage: Val

    /** The session flag agrees with the user object: signed in exactly when
        the user has a truthy `_id`. */
    ghost predicate SessionConsistent()
      reads this
    {
      isLoggedIn <==> ("_id" in user && Truthy(user["_id"]))
    }

    /** `initialState` */
    constructor ()
      ensures user == LoggedOutUser && token == Null
      ensures !isLoggedIn && !isLoading && !isRefreshing && error == Null
      ensures !resetSending && !resetSuccess && resetMessage == Null
      ensures SessionConsistent()
    {
      user := LoggedOutUser;
      token := Null;
      isLoggedIn := false;
      isLoading := false;
      isRefreshing := false;
      error := Null;
      resetSending := false;
      resetSuccess := false;
      resetMessage := Null;
    }

    /** `handlePending`, shared by register, login and logout. */
    method HandlePending()
      modifies this
      ensures isLoading && error == Null
      ensures user == old(user) && token == old(token) && isLoggedIn == old(isLoggedIn)
      ensures isRefreshing == old(isRefreshing)
      ensures resetSending == old(resetSending) && resetSuccess == old(resetSuccess) && resetMessage == old(resetMessage)
      ensures old(SessionConsistent()) ==> SessionConsistent()
    {
      isLoading := true;
      error := Null;
    }

    /** `handleRejected`, shared by register, login and logout: the flags
        drop, the error is stored, the session is untouched. */
    method HandleRejected(payload: Val)
      modifies this
      ensures !isLoading && !isRefreshing && error == payload
      ensures user == old(user) && token == old(token) && isLoggedIn == old(isLoggedIn)
      ensures resetSending == old(resetSending) && resetSuccess == old(resetSuccess) && resetMessage == old(resetMessage)
      ensures old(SessionConsistent()) ==> SessionConsistent()
    {
      isLoading := false;
      isRefreshing := false;
      error := payload;
    }

    /** `registerUser.fulfilled` and `loginUser.fulfilled`. */
    method AuthFulfilled(payload: Val)
      modifies this
      ensures user == NormaliseUser(PayloadUser(payload))
      ensures token == Or(PayloadToken(payload), Null)
      ensures isLoggedIn <==> Truthy(UserId(PayloadUser(payload)))
      ensures !isLoading && error == Null
      ensures isRefreshing == old(isRefreshing)
      ensures resetSending == old(resetSending) && resetSuccess == old(resetSuccess) && resetMessage == old(resetMessage)
      ensures SessionConsistent()
    {
      var u := PayloadUser(payload);
      user := NormaliseUser(u);
      token := Or(PayloadToken(payload), Null);
      isLoggedIn := Truthy(UserId(u));
      isLoading := false;
      error := Null;
    }

    /** `logoutUser.fulfilled`: the session is reset; the error is kept. */
    method LogoutFulfilled()
      modifies this
      ensures user == LoggedOutUser && token == Null && !isLoggedIn && !isLoading
      ensures isRefreshing == old(isRefreshing) && error == old(error)
      ensures resetSending == old(resetSending) && resetSuccess == old(resetSuccess) && resetMessage == old(resetMessage)
      ensures SessionConsistent()
    {
      user := LoggedOutUser;
      token := Null;
      isLoggedIn := false;
      isLoading := false;
    }

    /** `localLogout`: the session is reset and nothing else changes. */
    method LocalLogout()
      modifies this
      ensures user == LoggedOutUser && token == Null && !isLoggedIn
      ensures isLoading == old(isLoading) && isRefreshing == old(isRefreshing) && error == old(error)
      ensures resetSending == old(resetSending) && resetSuccess == old(resetSuccess) && resetMessage == old(resetMessage)
      ensures SessionConsistent()
    {
      user := LoggedOutUser;
      token := Null;
      isLoggedIn := false;
    }

    /** `resetError` */
    method ResetError()
      modifies this
      ensures error == Null
      ensures user == old(user) && token == old(token) && isLoggedIn == old(isLoggedIn)
      ensures isLoading == old(isLoading) && isRefreshing == old(isRefreshing)
      ensures resetSending == old(resetSending) && resetSuccess == old(resetSuccess) && resetMessage == old(resetMessage)
    {
      error := Null;
    }

    /** `refreshUser.pending`: the refresh flag rises instead of `isLoading`. */
    method RefreshPending()
      modifies this
      ensures isRefreshing && error == Null
      ensures user == old(user) && token == old(token) && isLoggedIn == old(isLoggedIn)
      ensures isLoading == old(isLoading)
      ensures resetSending == old(resetSending) && resetSuccess == old(resetSuccess) && resetMessage == old(resetMessage)
      ensures old(SessionConsistent()) ==> SessionConsistent()
    {
      isRefreshing := true;
      error := Null;
    }

    /** `refreshUser.fulfilled`: as login, but it ends the refresh and leaves
        `isLoading` alone. */
    method RefreshFulfilled(payload: Val)
      modifies this
      ensures user == NormaliseUser(PayloadUser(payload))
      ensures token == Or(PayloadToken(payload), Null)
      ensures isLoggedIn <==> Truthy(UserId(PayloadUser(payload)))
      ensures !isRefreshing && error == Null
      ensures isLoading == old(isLoading)
      ensures resetSending == old(resetSending) && resetSuccess == old(resetSuccess) && resetMessage == old(resetMessage)
      ensures SessionConsistent()
    {
      var u := PayloadUser(payload);
      user := NormaliseUser(u);
      token := Or(PayloadToken(payload), Null);
      isLoggedIn := Truthy(UserId(u));
      isRefreshing := false;
      error := Null;
    }

    /** `refreshUser.rejected`: the session is reset as on logout and the
        error stored. */
    method RefreshRejected(payload: Val)
      modifies this
      ensures user == LoggedOutUser && token == Null && !isLoggedIn
      ensures !isRefreshing && error == payload
      ensures isLoading == old(isLoading)
      ensures resetSending == old(resetSending) && resetSuccess == old(resetSuccess) && resetMessage == old(resetMessage)
      ensures SessionConsistent()
    {
      user := LoggedOutUser;
      token := Null;
      isLoggedIn := false;
      isRefreshing := false;
      error := payload;
    }

    /** `updateUser.pending` */
    method UpdateUserPending()
      modifies this
      ensures isLoading && error == Null
      ensures user == old(user) && token == old(token) && isLoggedIn == old(isLoggedIn)
      ensures isRefreshing == old(isRefreshing)
      ensures resetSending == old(resetSending) && resetSuccess == old(resetSuccess) && resetMessage == old(resetMessage)
    {
      isLoading := true;
      error := Null;
    }

    /** `updateUser.fulfilled`: the payload's fields override, every other
        field of the user is kept. The session stays consistent unless the
        payload itself carries a falsy `_id`. */
    method UpdateUserFulfilled(payload: Val)
      modifies this
      ensures user == Spread(old(user), payload)
      ensures !isLoading && error == Null
      ensures token == old(token) && isLoggedIn == old(isLoggedIn) && isRefreshing == old(isRefreshing)
      ensures resetSending == old(resetSending) && resetSuccess == old(resetSuccess) && resetMessage == old(resetMessage)
      ensures old(SessionConsistent()) && !(payload.Obj? && "_id" in payload.fields && !Truthy(payload.fields["_id"]))
              && !(payload.Obj? && "_id" in payload.fields && !old(isLoggedIn))
              ==> SessionConsistent()
    {
      user := Spread(user, payload);
      isLoading := false;
      error := Null;
    }

    /** `updateUser.rejected`: the error is stored; `isRefreshing` is left. */
    method UpdateUserRejected(payload: Val)
      modifies this
      ensures !isLoading && error == payload
      ensures user == old(user) && token == old(token) && isLoggedIn == old(isLoggedIn)
      ensures isRefreshing == old(isRefreshing)
      ensures resetSending == old(resetSending) && resetSuccess == old(resetSuccess) && resetMessage == old(resetMessage)
    {
      isLoading := false;
      error := payload;
    }

    /** The pending case of either reset flow. */
    method ResetPending()
      modifies this
      ensures resetSending && !resetSuccess && resetMessage == Null
      ensures user == old(user) && token == old(token) && isLoggedIn == old(isLoggedIn)
      ensures isLoading == old(isLoading) && isRefreshing == old(isRefreshing) && error == old(error)
    {
      resetSending := true;
      resetSuccess := false;
      resetMessage := Null;
    }

    /** The fulfilled case of a reset flow: `action.payload?.message ?? default`. */
    method ResetFulfilled(flow: ResetFlow, payload: Val)
      modifies this
      ensures !resetSending && resetSuccess
      ensures resetMessage == Nullish(Prop(payload, "message"), Str(ResetSuccessDefault(flow)))
      ensures user == old(user) && token == old(token) && isLoggedIn == old(isLoggedIn)
      ensures isLoading == old(isLoading) && isRefreshing == old(isRefreshing) && error == old(error)
    {
      resetSending := false;
      resetSuccess := true;
      resetMessage := Nullish(Prop(payload, "message"), Str(ResetSuccessDefault(flow)));
    }

    /** The rejected case of a reset flow. */
    method ResetRejected(flow: ResetFlow, payload: Val, errorMessage: Val)
      modifies this
      ensures !resetSending && !resetSuccess
      ensures resetMessage == ResetFailureMessage(flow, payload, errorMessage)
      ensures user == old(user) && token == old(token) && isLoggedIn == old(isLoggedIn)
      ensures isLoading == old(isLoading) && isRefreshing == old(isRefreshing) && error == old(error)
    {
      resetSending := false;
      resetSuccess := false;
      resetMessage := ResetFailureMessage(flow, payload, errorMessage);
    }
  }

  /** Logging in with a user that has an `id` but no `_id` signs in, with
      that `id` as the user's `_id`; a user with neither is not signed in. */
  lemma IdFallback(id: string)
    requires id != ""
    ensures var u := NormaliseUser(Obj(map["id" := Str(id)]));
            u["_id"] == Str(id)
    ensures !Truthy(UserId(Obj(map["name" := Str(id)])))
  {
    var u := Obj(map["id" := Str(id)]);
    assert Prop(u, "_id") == Undefined;
  }

  /** An empty or missing payload signs nobody in and stores a null token. */
  lemma EmptyPayloadSignsNobodyIn(payload: Val)
    requires !Truthy(payload)
    ensures !Truthy(UserId(PayloadUser(payload)))
    ensures Or(PayloadToken(payload), Null) == Null
    ensures NormaliseUser(PayloadUser(payload))["role"] == Str("user")
  {
  }
}
