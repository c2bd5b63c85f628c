/**
 * The authentication store: whether the user is signed in and the user record, restored
 * from `localStorage` at startup and written back on every change.
 */
module AuthContext {
  import opened Wrappers
  import opened Json
  import opened Storage

  const AuthStorageKey: string := "pfa_auth_state"

  /** The stored record. `isAuthenticated` is whatever JSON value the string held (read
      with truthiness); a missing `user` is None. */
  datatype AuthData = AuthData(isAuthenticated: JsonValue, user: Option<JsonObject>)

  /** The record `login` uses when it is given no user data. */
  const DefaultUser: JsonObject := map[
    "name" := JStr("Ananya Rao"),
    "phone" := JStr("+91 9876543210"),
    "role" := JStr("individual"),
    "joinedDays" := JNum(120)]

  /** What the startup check finds: a session to restore (its user), if any, and whether
      the key is removed. */
  datatype SessionLoad = SessionLoad(restored: Option<Option<JsonObject>>, removeKey: bool)

  /** The startup check. Nothing stored (or "") and a parsable record whose
      `isAuthenticated` is falsy both leave storage and the session alone; an unparsable
      record is removed; a truthy `isAuthenticated` restores the session with the stored
      user. */
  function LoadSession(stored: Option<string>, codec: Codec<AuthData>): (r: SessionLoad)
    ensures r.removeKey <==> IsPresent(stored) && codec.parse(stored.value).None?
    ensures r.restored.Some? <==>
      IsPresent(stored) && codec.parse(stored.value).Some? && Truthy(codec.parse(stored.value).value.isAuthenticated)
    ensures r.restored.Some? ==> r.restored.value == codec.parse(stored.value).value.user
  {
    if !IsPresent(stored) then SessionLoad(None, false)
    else match codec.parse(stored.value)
      case None => SessionLoad(None, true)
      case Some(data) =>
        if Truthy(data.isAuthenticated) then SessionLoad(Some(data.user), false) else SessionLoad(None, false)
  }

  /** The record `login(userData)` stores: authenticated, with the given user or, when none
      is given, the default one. */
  function LoginRecord(userData: Option<JsonObject>): (r: AuthData)
    ensures r.isAuthenticated == JBool(true) && Truthy(r.isAuthenticated)
    ensures userData.Some? ==> r.user == userData
    ensures userData.None? ==> r.user == Some(DefaultUser)
  {
    AuthData(JBool(true), Some(userData.GetOr(DefaultUser)))
  }

  /** `{...user, ...userData}`: every field of the patch, and every field of the current
      user the patch does not name. Spreading a null user adds nothing. */
  function MergedUser(user: Option<JsonObject>, userData: JsonObject): (r: JsonObject)
    ensures forall k :: k in userData ==> k in r && r[k] == userData[k]
    ensures forall k :: k !in userData && user.Some? && k in user.value ==> k in r && r[k] == user.value[k]
    ensures forall k :: k in r ==> k in userData || (user.Some? && k in user.value)
  {
    user.GetOr(map[]) + userData
  }

  /** An empty patch keeps the user; applying a patch twice is applying it once. */
  lemma MergeLaws(user: JsonObject, userData: JsonObject)
    ensures MergedUser(Some(user), map[]) == user
    ensures MergedUser(Some(MergedUser(Some(user), userData)), userData) == MergedUser(Some(user), userData)
  {
    var once := MergedUser(Some(user), userData);
    assert MergedUser(Some(user), map[]) == user by {
      assert forall k :: k in MergedUser(Some(user), map[]) <==> k in user;
    }
    assert MergedUser(Some(once), userData) == once by {
      assert forall k :: k in MergedUser(Some(once), userData) <==> k in once;
    }
  }

  /** The record `updateUser` stores: always marked authenticated. */
  function UpdateRecord(user: Option<JsonObject>, userData: JsonObject): (r: AuthData)
    ensures Truthy(r.isAuthenticated) && r.user == Some(MergedUser(user, userData))
  {
    AuthData(JBool(true), Some(MergedUser(user, userData)))
  }

  class AuthProvider {
    var isAuthenticated: bool
    var user: Option<JsonObject>
    var isLoading: bool
    const storage: LocalStorage

    constructor (storage: LocalStorage)
      ensures !isAuthenticated && user.None? && isLoading && this.storage == storage
    {
      isAuthenticated := false;
      user := None;
      isLoading := true;
      this.storage := storage;
    }

    /** The startup effect; loading ends whatever was stored. */
    method Load(codec: Codec<AuthData>)
      modifies this, storage
      ensures var o := LoadSession(old(storage.GetItem(AuthStorageKey)), codec);
        && (o.restored.Some? ==> isAuthenticated && user == o.restored.value)
        && (o.restored.None? ==> isAuthenticated == old(isAuthenticated) && user == old(user))
        && storage.items == if o.removeKey then old(storage.items) - {AuthStorageKey} else old(storage.items)
      ensures !isLoading
    {
      var outcome := LoadSession(storage.GetItem(AuthStorageKey), codec);
      if outcome.restored.Some? {
        isAuthenticated := true;
        user := outcome.restored.value;
      }
      if outcome.removeKey {
        storage.RemoveItem(AuthStorageKey);
      }
      isLoading := false;
    }

    /** `login(userData)`: storage and memory receive the same record. */
    method Login(userData: Option<JsonObject>, codec: Codec<AuthData>)
      modifies this, storage
      ensures isAuthenticated && user == LoginRecord(userData).user
      ensures storage.items == old(storage.items)[AuthStorageKey := codec.stringify(LoginRecord(userData))]
      ensures isLoading == old(isLoading)
    {
      var record := LoginRecord(userData);
      storage.SetItem(AuthStorageKey, codec.stringify(record));
      isAuthenticated := true;
      user := record.user;
    }

    /** `logout`: the key is removed and both the flag and the user are cleared. */
    method Logout()
      modifies this, storage
      ensures !isAuthenticated && user.None?
      ensures storage.items == old(storage.items) - {AuthStorageKey}
      ensures isLoading == old(isLoading)
    {
      storage.RemoveItem(AuthStorageKey);
      isAuthenticated := false;
      user := None;
    }

    /** `updateUser(userData)`: merges the patch into the user and stores the result as an
        authenticated record, leaving the in-memory flag as it was. */
    method UpdateUser(userData: JsonObject, codec: Codec<AuthData>)
      modifies this, storage
      ensures user == Some(MergedUser(old(user), userData))
      ensures isAuthenticated == old(isAuthenticated) && isLoading == old(isLoading)
      ensures storage.items == old(storage.items)[AuthStorageKey := codec.stringify(UpdateRecord(old(user), userData))]
    {
      var record := UpdateRecord(user, userData);
      storage.SetItem(AuthStorageKey, codec.stringify(record));
      user := record.user;
    }
  }

  /** A login survives a reload: what `login` stores, read back at startup, restores an
      authenticated session with the same user. */
  lemma LoginSurvivesReload(userData: Option<JsonObject>, codec: Codec<AuthData>)
    requires RoundTrips(codec) && codec.stringify(LoginRecord(userData)) != ""
    ensures LoadSession(Some(codec.stringify(LoginRecord(userData))), codec)
            == SessionLoad(Some(LoginRecord(userData).user), false)
  {
    var record := LoginRecord(userData);
    assert codec.parse(codec.stringify(record)) == Some(record);
  }

  /** Because `updateUser` always stores `isAuthenticated: true`, an update made while
      signed out signs the user in at the next startup. */
  lemma UpdateWhileSignedOutSignsInAfterReload(user: Option<JsonObject>, userData: JsonObject, codec: Codec<AuthData>)
    requires RoundTrips(codec) && codec.stringify(UpdateRecord(user, userData)) != ""
    ensures LoadSession(Some(codec.stringify(UpdateRecord(user, userData))), codec).restored
            == Some(Some(MergedUser(user, userData)))
  {
    var record := UpdateRecord(user, userData);
    assert codec.parse(codec.stringify(record)) == Some(record);
  }

  /** A parsable record that is not authenticated is ignored and kept; an unparsable one is
      removed. */
  lemma UnauthenticatedRecordIsKept(stored: string, codec: Codec<AuthData>)
    requires stored != ""
    ensures codec.parse(stored).Some? && !Truthy(codec.parse(stored).value.isAuthenticated) ==>
      LoadSession(Some(stored), codec) == SessionLoad(None, false)
    ensures codec.parse(stored).None? ==> LoadSession(Some(stored), codec) == SessionLoad(None, true)
  {
  }
}
