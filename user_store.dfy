/**
 * The persisted credential store and the two route guards that read it.
 */
module UserStore {
  import opened Wrappers

  datatype Credentials = Credentials(accessToken: string, refreshToken: string)

  /** The decoded token: only the fields the application reads. */
  datatype DecodedUser = DecodedUser(id: string, role: string)

  class Store {
    var user: Option<Credentials>
    var decodedUser: Option<DecodedUser>

    constructor ()
      ensures user == None && decodedUser == None
    {
      user, decodedUser := None, None;
    }

    /** setCredentials. */
    method SetCredentials(c: Credentials)
      modifies this
      ensures user == Some(c) && decodedUser == old(decodedUser)
    {
      user := Some(c);
    }

    /** setDecodedUser. */
    method SetDecodedUser(d: DecodedUser)
      modifies this
      ensures decodedUser == Some(d) && user == old(user)
    {
      decodedUser := Some(d);
    }

    /** removeCredentials. */
    method RemoveCredentials()
      modifies this
      ensures user == None && decodedUser == None
    {
      user, decodedUser := None, None;
    }
  }

  /** What a guarded route renders: its children, or a redirect. */
  datatype Outcome = RenderChildren | Redirect(to: string)

  /** PrivateRoute: only signed-in users see the page. */
  function PrivateRoute(user: Option<Credentials>): (o: Outcome)
    ensures o == RenderChildren <==> user.Some?
    ensures o != RenderChildren ==> o == Redirect("/")
  {
    if user.Some? then RenderChildren else Redirect("/")
  }

  /** PublicRoute: signed-in users are sent to the class list. */
  function PublicRoute(user: Option<Credentials>): (o: Outcome)
    ensures o == RenderChildren <==> user.None?
    ensures o != RenderChildren ==> o == Redirect("/dashboard/classes")
  {
    if user.Some? then Redirect("/dashboard/classes") else RenderChildren
  }
}
