/**
 * The `auth` slice of the store: the signed-in role and whether someone is
 * signed in, read from the stored role at start-up and changed by the
 * `setRole` and `logout` reducers, which also keep the stored role in step.
 */
module AuthSlice {
  import opened Wrappers
  import opened BrowserStorage

  /** The slice's state together with the storage entries it reads and writes. */
  datatype View = View(role: Option<string>, isAuthenticated: bool, stored: map<string, string>)

  /** The stored role, when it is a non-empty string (`getItem("role") || null`). */
  function StoredRole(stored: map<string, string>): Option<string>
  {
    if "role" in stored && stored["role"] != "" then Some(stored["role"]) else None
  }

  /** The initial state: the stored role or null, authenticated exactly when a non-empty role is stored. */
  function InitialView(stored: map<string, string>): (v: View)
    ensures v.stored == stored
    ensures v.isAuthenticated <==> "role" in stored && stored["role"] != ""
    ensures v.role.Some? <==> v.isAuthenticated
    ensures v.role.Some? ==> v.role.value == stored["role"]
  {
    View(StoredRole(stored), StoredRole(stored).Some?, stored)
  }

  /** What `setItem` stores for the payload: `null` is written as the string "null". */
  function StoredForm(payload: Option<string>): string
  {
    payload.GetOr("null")
  }

  /** The `setRole` reducer. */
  function SetRoleStep(v: View, payload: Option<string>): (w: View)
    ensures w.role == payload && w.isAuthenticated
    ensures w.stored == v.stored["role" := StoredForm(payload)]
    ensures "role" in w.stored && w.stored["role"] == StoredForm(payload)
    ensures w.stored.Keys == v.stored.Keys + {"role"}
    ensures forall k :: k in v.stored && k != "role" ==> w.stored[k] == v.stored[k]
  {
    View(payload, true, v.stored["role" := StoredForm(payload)])
  }

  /** The `logout` reducer. */
  function LogoutStep(v: View): (w: View)
    ensures w.role == None && !w.isAuthenticated
    ensures w.stored == v.stored - {"role"}
    ensures w.stored.Keys == v.stored.Keys - {"role"}
    ensures forall k :: k in w.stored ==> w.stored[k] == v.stored[k]
  {
    View(None, false, v.stored - {"role"})
  }

  /** The slice says someone is signed in exactly when it holds a role. */
  predicate Consistent(v: View)
  {
    v.isAuthenticated <==> v.role.Some?
  }

  /** Logging out twice is logging out once. */
  lemma LogoutIdempotent(v: View)
    ensures LogoutStep(LogoutStep(v)) == LogoutStep(v)
  {
    assert LogoutStep(v).stored - {"role"} == v.stored - {"role"};
  }

  /** Start-up, `logout` and `setRole` with a role keep the slice consistent; `setRole(null)` does not. */
  lemma ConsistencyPreserved(v: View, stored: map<string, string>, r: string)
    ensures Consistent(InitialView(stored))
    ensures Consistent(LogoutStep(v))
    ensures Consistent(SetRoleStep(v, Some(r)))
    ensures !Consistent(SetRoleStep(v, None))
  {
  }

  /** A reload after `setRole` reads the role back when it is non-empty; a reload after `logout` reads none. */
  lemma ReloadRoundTrip(v: View, r: string)
    ensures r != "" ==> InitialView(SetRoleStep(v, Some(r)).stored).role == Some(r)
    ensures r == "" ==> InitialView(SetRoleStep(v, Some(r)).stored).role == None
    ensures InitialView(LogoutStep(v).stored) == View(None, false, LogoutStep(v).stored)
  {
  }

  /** `setRole(null)` stores "null", which a reload reads back as a role named "null". */
  lemma NullRoleSurvivesReload(v: View)
    ensures InitialView(SetRoleStep(v, None).stored).role == Some("null")
    ensures InitialView(SetRoleStep(v, None).stored).isAuthenticated
  {
  }

  class AuthState {
    var role: Option<string>
    var isAuthenticated: bool
    const storage: Storage

    function Current(): View
      reads this, storage
    {
      View(role, isAuthenticated, storage.entries)
    }

    constructor (storage: Storage)
      ensures this.storage == storage
      ensures Current() == InitialView(storage.entries)
    {
      this.storage := storage;
      role := StoredRole(storage.entries);
      isAuthenticated := StoredRole(storage.entries).Some?;
    }

    method SetRole(payload: Option<string>)
      modifies this`role, this`isAuthenticated, storage
      ensures Current() == SetRoleStep(old(Current()), payload)
    {
      role := payload;
      isAuthenticated := true;
      storage.SetItem("role", StoredForm(payload));
    }

    method Logout()
      modifies this`role, this`isAuthenticated, storage
      ensures Current() == LogoutStep(old(Current()))
    {
      role := None;
      isAuthenticated := false;
      storage.RemoveItem("role");
    }
  }
}
