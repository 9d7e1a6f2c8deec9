/**
 * The login form: the field-by-field form state, the storage writes after a
 * successful sign-in, and the redirect to the signed-in role's own page.
 */
module LoginPage {
  import opened Wrappers
  import opened BrowserStorage
  import opened ProtectedRoute
  import opened AppRoutes

  /** The page each role is sent to after signing in; any other role stays put. */
  function LoginRedirect(role: string): (r: Option<string>)
    ensures r.Some? <==> role == "waiter" || role == "chef" || role == "admin"
  {
    if role == "waiter" then Some("/waiter")
    else if role == "chef" then Some("/chief")
    else if role == "admin" then Some("/admin")
    else None
  }

  /** Every role that is redirected lands on a protected page that admits it. */
  lemma RedirectAdmitsRole(role: string)
    requires LoginRedirect(role).Some?
    ensures LoginRedirect(role).value in ProtectedPaths
    ensures AllowedRoles(LoginRedirect(role).value).Some?
    ensures role in AllowedRoles(LoginRedirect(role).value).value
    ensures Guard(Some(role), AllowedRoles(LoginRedirect(role).value).value) == RenderChildren
    ensures VisitPath(LoginRedirect(role).value, Some(role)) == Page(LoginRedirect(role).value)
  {
    VisitProtected(LoginRedirect(role).value, Some(role));
  }

  /** Signed-in user details in the login reply; a missing field is `None`. */
  datatype User = User(name: Option<string>, email: Option<string>)

  /** The outcome of the login request. */
  datatype LoginReply = Failed | Succeeded(token: Option<string>, user: Option<User>)

  const InitialForm: map<string, string> := map["role" := "", "email" := "", "password" := ""]

  class LoginForm {
    var formData: map<string, string>
    const storage: Storage

    ghost predicate Valid()
      reads this
    {
      "role" in formData
    }

    constructor (storage: Storage)
      ensures Valid() && formData == InitialForm && this.storage == storage
    {
      formData := InitialForm;
      this.storage := storage;
    }

    /** `handleChange`: the field named by the input takes its value; the others are kept. */
    method HandleChange(name: string, value: string)
      requires Valid()
      modifies this`formData
      ensures Valid()
      ensures formData == old(formData)[name := value]
      ensures forall k :: k in old(formData) && k != name ==> formData[k] == old(formData)[k]
    {
      formData := formData[name := value];
    }

    /**
     * `handleSubmit` once the request has settled. A failure writes nothing
     * and stays. A success stores the token; a reply without `user` then
     * fails on `resp.user.name`, which the page's own catch swallows.
     * Otherwise name, email and the form's role are stored, in that order,
     * and the role's own page is opened.
     */
    method HandleSubmit(reply: LoginReply) returns (navigateTo: Option<string>)
      requires Valid()
      modifies storage
      ensures reply.Failed? ==> storage.entries == old(storage.entries) && navigateTo == None
      ensures reply.Succeeded? && reply.user.None? ==>
                storage.entries == old(storage.entries)["token" := Stringify(reply.token)] && navigateTo == None
      ensures reply.Succeeded? && reply.user.Some? ==>
                && storage.entries == old(storage.entries)["token" := Stringify(reply.token)]
                                                          ["name" := Stringify(reply.user.value.name)]
                                                          ["email" := Stringify(reply.user.value.email)]
                                                          ["role" := formData["role"]]
                && navigateTo == LoginRedirect(formData["role"])
    {
      if reply.Failed? {
        return None;
      }
      storage.SetItem("token", Stringify(reply.token));
      if reply.user.None? {
        return None;
      }
      var role := formData["role"];
      storage.SetItem("name", Stringify(reply.user.value.name));
      storage.SetItem("email", Stringify(reply.user.value.email));
      storage.SetItem("role", role);
      navigateTo := LoginRedirect(role);
    }
  }

  /**
   * Signing in as waiter, chef or admin stores that role and opens a page the
   * guard then shows, reading the role back from storage.
   */
  method SignInThenVisit(role: string, token: string, name: string, email: string)
    returns (landed: Visit)
    requires role == "waiter" || role == "chef" || role == "admin"
    ensures landed == Page(LoginRedirect(role).value)
  {
    var storage := new Storage(map[]);
    var page := new LoginForm(storage);
    page.HandleChange("role", role);
    var target := page.HandleSubmit(Succeeded(Some(token), Some(User(Some(name), Some(email)))));
    assert storage.GetItem("role") == Some(role);
    RedirectAdmitsRole(role);
    landed := VisitPath(target.value, storage.GetItem("role"));
  }
}
