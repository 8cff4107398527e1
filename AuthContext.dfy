/** The session held by `AuthProvider` (src/context/AuthContext.tsx). */
module AuthContext {
  import opened Wrappers

  /** The part of a Firebase `User` the application reads. */
  datatype User = User(uid: string, email: Option<string>)

  /** The provider's two state cells, fed by `onAuthStateChanged`. */
  class AuthProvider {
    var currentUser: Option<User>
    var loading: bool
    /** How many auth-state notifications have been delivered so far. */
    ghost var notifications: nat

    /** `loading` is true exactly until the first notification, and before it
        there is no user. */
    ghost predicate Valid()
      reads this
    {
      && (loading <==> notifications == 0)
      && (notifications == 0 ==> currentUser.None?)
    }

    /** Mounting: no user, and loading until the first check completes. */
    constructor ()
      ensures Valid()
      ensures currentUser.None? && loading && notifications == 0
    {
      currentUser := None;
      loading := true;
      notifications := 0;
    }

    /** The callback given to `onAuthStateChanged`: it records the notified user
        (or null) and ends the loading phase; nothing ever sets `loading` back. */
    method OnAuthStateChanged(user: Option<User>)
      requires Valid()
      modifies this
      ensures Valid()
      ensures currentUser == user && !loading
      ensures notifications == old(notifications) + 1
    {
      currentUser := user;
      loading := false;
      notifications := notifications + 1;
    }

    /** `{!loading && children}`: whether the provider renders its children.
        Under the invariant that is exactly once a notification has arrived,
        whatever that notification said. */
    predicate RendersChildren(): (r: bool)
      reads this
      ensures Valid() ==> (r <==> notifications > 0)
    {
      !loading
    }
  }
}
