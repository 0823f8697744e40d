/**
 * The profile container: the current user's record (or null) with a `loading` flag and
 * an optional `error` message, and its four reducers.
 */
module ProfileSlice {
  import opened Wrappers

  /** A user record; every field may be missing from what the server sent. */
  datatype User = User(
    name: Option<string>,
    email: Option<string>,
    phone: Option<string>,
    address: Option<string>,
    specialization: Option<string>,
    registrationNumber: Option<string>,
    aadhaarNumber: Option<string>,
    userType: Option<string>)

  class ProfileStore {
    var user: Option<User>
    var loading: bool
    var error: Option<string>

    /** The state `initialState` describes. */
    ghost predicate IsInitial()
      reads this
    {
      user == None && !loading && error == None
    }

    constructor ()
      ensures IsInitial()
    {
      user := None;
      loading := false;
      error := None;
    }

    method SetProfile(payload: Option<User>)
      modifies this
      ensures user == payload && !loading && error == None
    {
      user := payload;
      loading := false;
      error := None;
    }

    method SetLoading(payload: bool)
      modifies this`loading
      ensures loading == payload
    {
      loading := payload;
    }

    method SetError(payload: Option<string>)
      modifies this`error, this`loading
      ensures error == payload && !loading
    {
      error := payload;
      loading := false;
    }

    /** Back to `initialState`, whatever the state was; so clearing twice is clearing once. */
    method ClearProfile()
      modifies this
      ensures IsInitial()
    {
      user := None;
      loading := false;
      error := None;
    }
  }
}
