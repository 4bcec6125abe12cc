/**
 * The demo session store of the frontend: a provider holding the signed-in
 * user and profile, mirrored under one key of the browser's local storage.
 * Sign-in accepts any credentials; the uid is built from a clock reading
 * passed in as a parameter.
 */
module DemoAuth {
  import opened Wrappers
  import opened TextUtil
  import opened JsNumbers

  datatype User = User(uid: string, email: string, displayName: string)

  /** `createdAt` is the creation time in milliseconds. */
  datatype UserProfile = UserProfile(uid: string, email: string, displayName: string, createdAt: nat)

  /** The object stored under the session key. */
  datatype Session = Session(user: User, profile: UserProfile)

  const SessionKey := "demoUser"
  const UidPrefix := "demo-user-"
  const OutsideProvider := "useAuth must be used within an AuthProvider"

  /** The uid built from the millisecond clock reading `now`. */
  function Uid(now: nat): (uid: string)
    ensures StartsWith(uid, UidPrefix) && |uid| > |UidPrefix|
  {
    UidPrefix + DecimalText(now)
  }

  /** The text after the prefix reads back as the clock reading. */
  lemma UidReadsBack(now: nat)
    ensures ParseInt(Uid(now)[|UidPrefix|..]) == Some(now)
  {
    assert Uid(now)[|UidPrefix|..] == DecimalText(now);
    ParseIntOfDecimal(now);
  }

  /** Two clock readings give the same uid only when they are the same reading. */
  lemma UidInjective(a: nat, b: nat)
    ensures Uid(a) == Uid(b) <==> a == b
  {
    if Uid(a) == Uid(b) {
      UidReadsBack(a);
      UidReadsBack(b);
    }
  }

  /** `email.split("@")[0]`: the text before the first '@', or all of it. */
  function EmailPrefix(email: string): (r: string)
    ensures r <= email
    ensures '@' !in r
    ensures |r| < |email| ==> email[|r|] == '@'
  {
    if email == [] || email[0] == '@' then [] else [email[0]] + EmailPrefix(email[1..])
  }

  /** An email without '@' is its own prefix. */
  lemma PrefixOfPlainEmail(email: string)
    requires '@' !in email
    ensures EmailPrefix(email) == email
  {
  }

  /** User and profile are both present or both absent, and describe the same account. */
  predicate Paired(user: Option<User>, profile: Option<UserProfile>)
  {
    && (user.Some? <==> profile.Some?)
    && (user.Some? && profile.Some? ==>
          && user.value.uid == profile.value.uid
          && user.value.email == profile.value.email
          && user.value.displayName == profile.value.displayName)
  }

  /** What start-up restores from the stored items. */
  function Restored(items: map<string, Session>): (pair: (Option<User>, Option<UserProfile>))
    ensures pair.0.Some? <==> SessionKey in items
    ensures pair.1.Some? <==> SessionKey in items
    ensures SessionKey in items ==> pair == (Some(items[SessionKey].user), Some(items[SessionKey].profile))
  {
    if SessionKey in items then (Some(items[SessionKey].user), Some(items[SessionKey].profile))
    else (None, None)
  }

  /** The browser's local storage; it outlives any one provider. */
  class LocalStorage {
    var items: map<string, Session>

    constructor(initial: map<string, Session>)
      ensures items == initial
    {
      items := initial;
    }

    method SetItem(key: string, value: Session)
      modifies this
      ensures items == old(items)[key := value]
    {
      items := items[key := value];
    }

    method RemoveItem(key: string)
      modifies this
      ensures items == old(items) - {key}
    {
      items := items - {key};
    }
  }

  class AuthProvider {
    var user: Option<User>
    var userProfile: Option<UserProfile>
    var loading: bool
    const storage: LocalStorage

    /** Mounting the provider: the start-up effect restores a saved session. */
    constructor(storage: LocalStorage)
      ensures this.storage == storage
      ensures (user, userProfile) == Restored(storage.items)
      ensures !loading
    {
      this.storage := storage;
      user, userProfile := None, None;
      loading := false;
      if SessionKey in storage.items {
        var saved := storage.items[SessionKey];
        user, userProfile := Some(saved.user), Some(saved.profile);
      }
      loading := false;
    }

    /** Stores and adopts a new account with the given email and display name. */
    method SignUp(email: string, password: string, displayName: string, now: nat, createdAt: nat)
      modifies this, storage
      ensures user == Some(User(Uid(now), email, displayName))
      ensures userProfile == Some(UserProfile(Uid(now), email, displayName, createdAt))
      ensures storage.items == old(storage.items)[SessionKey := Session(user.value, userProfile.value)]
      ensures Paired(user, userProfile)
      ensures !loading
    {
      loading := true;
      var account := User(Uid(now), email, displayName);
      var profile := UserProfile(account.uid, email, displayName, createdAt);
      storage.SetItem(SessionKey, Session(account, profile));
      user, userProfile := Some(account), Some(profile);
      loading := false;
    }

    /** Accepts any credentials; the display name is the email's local part. */
    method SignIn(email: string, password: string, now: nat, createdAt: nat)
      modifies this, storage
      ensures user == Some(User(Uid(now), email, EmailPrefix(email)))
      ensures userProfile == Some(UserProfile(Uid(now), email, EmailPrefix(email), createdAt))
      ensures storage.items == old(storage.items)[SessionKey := Session(user.value, userProfile.value)]
      ensures Paired(user, userProfile)
      ensures !loading
    {
      loading := true;
      var account := User(Uid(now), email, EmailPrefix(email));
      var profile := UserProfile(account.uid, email, EmailPrefix(email), createdAt);
      storage.SetItem(SessionKey, Session(account, profile));
      user, userProfile := Some(account), Some(profile);
      loading := false;
    }

    /** Forgets the stored session and the signed-in user. */
    method Logout()
      modifies this, storage
      ensures storage.items == old(storage.items) - {SessionKey}
      ensures user.None? && userProfile.None?
      ensures loading == old(loading)
    {
      storage.RemoveItem(SessionKey);
      user, userProfile := None, None;
    }
  }

  /** The `useAuth` hook: the provider in scope, or the error it throws outside one. */
  function UseAuth(context: AuthProvider?): (r: Result<AuthProvider>)
    ensures r.Ok? <==> context != null
    ensures r.Ok? ==> r.value == context
    ensures r.Err? ==> r.error == OutsideProvider
  {
    if context == null then Err(OutsideProvider) else Ok(context)
  }

  /** Signing in and then mounting a new provider on the same storage restores the same session. */
  method SignInThenRestart(storage: LocalStorage, email: string, password: string, now: nat, createdAt: nat)
    returns (before: AuthProvider, after: AuthProvider)
    modifies storage
    ensures after.user == before.user && after.userProfile == before.userProfile
    ensures after.user == Some(User(Uid(now), email, EmailPrefix(email)))
  {
    before := new AuthProvider(storage);
    before.SignIn(email, password, now, createdAt);
    after := new AuthProvider(storage);
  }

  /** Logging out and then mounting a new provider restores nobody. */
  method LogoutThenRestart(storage: LocalStorage) returns (before: AuthProvider, after: AuthProvider)
    modifies storage
    ensures before.user.None? && after.user.None? && after.userProfile.None?
  {
    before := new AuthProvider(storage);
    before.Logout();
    after := new AuthProvider(storage);
  }
}
