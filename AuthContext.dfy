/**
 * The session store (src/contexts/AuthContext.tsx): the current user, the
 * loading and error flags, and one persisted entry under the key "user".
 * Browser storage is a key-to-record map; the JSON encoding in between is
 * taken to round-trip.
 */
module Session {
  import opened Wrappers

  /** `UserRole`; `NoRole` is its `null`. */
  datatype Role = Freelancer | Business | NoRole

  /** The properties of the `User` interface. */
  datatype Field = Id | Email | Name | RoleField | Bio | Skills | HourlyRate | Availability
                 | Phone | Location | CompanyName | Industry | Website

  datatype Value = Text(text: string) | TextList(items: seq<string>) | Number(number: real) | RoleValue(role: Role)

  /** A user object, or a `Partial<User>`: the fields it has, with their values. */
  type Record = map<Field, Value>

  /** The storage key of the persisted user. */
  const UserKey: string := "user"

  /** The value has the type the `User` interface declares for the field. */
  predicate HasKind(f: Field, v: Value)
  {
    match f
    case RoleField => v.RoleValue?
    case Skills => v.TextList?
    case HourlyRate => v.Number?
    case _ => v.Text?
  }

  predicate WellTyped(m: Record)
  {
    forall f :: f in m ==> HasKind(f, m[f])
  }

  /** A complete `User`: well typed, with the four required fields. */
  predicate IsUser(m: Record)
  {
    WellTyped(m) && Id in m && Email in m && Name in m && RoleField in m
  }

  /** `email.split("@")[0]`: the text before the first "@", or all of it when there is none. */
  function LocalPart(email: string): (r: string)
    ensures r <= email
    ensures '@' !in r
    ensures r == email || email[|r|] == '@'
  {
    if email == [] || email[0] == '@' then []
    else [email[0]] + LocalPart(email[1..])
  }

  /** The three properties of LocalPart determine it: any prefix without "@" that ends the string or stops at an "@" is it. */
  lemma {:induction false} LocalPartUnique(email: string, r: string)
    requires r <= email && '@' !in r
    requires r == email || email[|r|] == '@'
    ensures r == LocalPart(email)
  {
    if r != [] {
      assert email[0] == r[0];
      assert r[1..] <= email[1..];
      LocalPartUnique(email[1..], r[1..]);
    } else if email != [] {
      assert email[0] == '@';
    }
  }

  /** The record built by login and register: exactly id, email, name and role. */
  function MockUser(stamp: string, email: string, name: string, role: Role): (u: Record)
    ensures IsUser(u)
    ensures u.Keys == {Id, Email, Name, RoleField}
    ensures u[Id] == Text("user-" + stamp) && u[Email] == Text(email)
    ensures u[Name] == Text(name) && u[RoleField] == RoleValue(role)
  {
    map[Id := Text("user-" + stamp), Email := Text(email), Name := Text(name), RoleField := RoleValue(role)]
  }

  /** `m.f || fallback` for a text field: the text when present and non-empty, else the fallback. */
  function TextOr(m: Record, f: Field, fallback: string): (r: string)
    ensures f in m && m[f].Text? && m[f].text != "" ==> r == m[f].text
    ensures !(f in m && m[f].Text? && m[f].text != "") ==> r == fallback
    ensures r != fallback ==> f in m && m[f] == Text(r)
  {
    if f in m && m[f].Text? && m[f].text != "" then m[f].text else fallback
  }

  /** The user that login makes: the name is the local part of the email; the password plays no part. */
  function LoginUser(stamp: string, email: string, role: Role): (u: Record)
    ensures IsUser(u) && u.Keys == {Id, Email, Name, RoleField}
    ensures u[Id] == Text("user-" + stamp)
    ensures u[Email] == Text(email) && u[RoleField] == RoleValue(role)
    ensures exists name :: u[Name] == Text(name) && name <= email && '@' !in name && (name == email || email[|name|] == '@')
  {
    var name := LocalPart(email);
    assert MockUser(stamp, email, name, role)[Name] == Text(name);
    MockUser(stamp, email, name, role)
  }

  /** The user that register makes: only email and name are taken from the data (each defaulting to ""). */
  function RegisteredUser(data: Record, stamp: string, role: Role): (u: Record)
    ensures IsUser(u) && u.Keys == {Id, Email, Name, RoleField}
    ensures u[RoleField] == RoleValue(role) && u[Id] == Text("user-" + stamp)
    ensures forall f :: f in {Email, Name} ==>
      u[f] == if f in data && data[f].Text? then data[f] else Text("")
  {
    MockUser(stamp, TextOr(data, Email, ""), TextOr(data, Name, ""), role)
  }

  /** `{ ...user, ...data }`: fields of the update win, all other fields are kept. */
  function Merge(user: Record, data: Record): (r: Record)
    ensures r.Keys == user.Keys + data.Keys
    ensures forall f :: f in data ==> r[f] == data[f]
    ensures forall f :: f in user && f !in data ==> r[f] == user[f]
  {
    user + data
  }

  /** A well-typed update of a complete user is again a complete user. */
  lemma MergeKeepsUser(user: Record, data: Record)
    requires IsUser(user) && WellTyped(data)
    ensures IsUser(Merge(user, data))
  {
  }

  /** Sending the same update twice has the effect of sending it once. */
  lemma MergeIdempotent(user: Record, data: Record)
    ensures Merge(Merge(user, data), data) == Merge(user, data)
  {
  }

  /** Two updates in a row act as one update with the second one's fields winning. */
  lemma MergeSequential(user: Record, first: Record, second: Record)
    ensures Merge(Merge(user, first), second) == Merge(user, Merge(first, second))
  {
  }

  /** Browser storage, from key to (decoded) record. */
  class Storage {
    var entries: map<string, Record>

    constructor (initial: map<string, Record>)
      ensures entries == initial
    {
      entries := initial;
    }

    /** `getItem`: the stored record, or nothing. */
    method GetItem(key: string) returns (r: Option<Record>)
      ensures r.Some? <==> key in entries
      ensures r.Some? ==> r.value == entries[key]
    {
      r := if key in entries then Some(entries[key]) else None;
    }

    method SetItem(key: string, value: Record)
      modifies this
      ensures entries == old(entries)[key := value]
    {
      entries := entries[key := value];
    }

    method RemoveItem(key: string)
      modifies this
      ensures entries == old(entries) - {key}
    {
      entries := entries - {key};
    }
  }

  /** `AuthProvider`'s state and operations. */
  class AuthProvider {
    const storage: Storage
    var user: Option<Record>
    var isLoading: bool
    var error: Option<string>

    /** The initial state, before the restore effect has run. */
    constructor (storage: Storage)
      ensures this.storage == storage
      ensures user == None && isLoading && error == None
    {
      this.storage := storage;
      user := None;
      isLoading := true;
      error := None;
    }

    /** `isAuthenticated: !!user`. */
    function IsAuthenticated(): (authenticated: bool)
      reads this
      ensures authenticated <==> user != None
    {
      !user.None?
    }

    /** The in-memory user and the stored "user" entry agree. */
    predicate Synced()
      reads this, storage
    {
      (user.Some? ==> UserKey in storage.entries && storage.entries[UserKey] == user.value)
      && (user.None? ==> UserKey !in storage.entries)
    }

    /** The mount effect: adopt a stored user if there is one, then stop loading. */
    method Restore()
      modifies this
      ensures user == if UserKey in storage.entries then Some(storage.entries[UserKey]) else old(user)
      ensures !isLoading && error == old(error)
      ensures old(user) == None ==> Synced()
      ensures old(Synced()) ==> Synced()
    {
      var stored := storage.GetItem(UserKey);
      if stored.Some? {
        user := stored;
      }
      isLoading := false;
    }

    method Login(email: string, password: string, role: Role, stamp: string)
      modifies this, storage
      ensures user == Some(LoginUser(stamp, email, role))
      ensures storage.entries == old(storage.entries)[UserKey := user.value]
      ensures !isLoading && error == None
      ensures Synced() && IsAuthenticated()
    {
      isLoading := true;
      error := None;
      var mock := MockUser(stamp, email, LocalPart(email), role);
      storage.SetItem(UserKey, mock);
      user := Some(mock);
      isLoading := false;
    }

    method Register(userData: Record, password: string, role: Role, stamp: string)
      modifies this, storage
      ensures user == Some(RegisteredUser(userData, stamp, role))
      ensures storage.entries == old(storage.entries)[UserKey := user.value]
      ensures !isLoading && error == None
      ensures Synced() && IsAuthenticated()
    {
      isLoading := true;
      error := None;
      var mock := MockUser(stamp, TextOr(userData, Email, ""), TextOr(userData, Name, ""), role);
      storage.SetItem(UserKey, mock);
      user := Some(mock);
      isLoading := false;
    }

    /** Logged out: nothing but the flags changes. Logged in: the merged user is stored and adopted. */
    method UpdateProfile(profileData: Record)
      modifies this, storage
      ensures old(user).None? ==> user == None && storage.entries == old(storage.entries)
      ensures old(user).Some? ==> user == Some(Merge(old(user).value, profileData))
      ensures old(user).Some? ==> storage.entries == old(storage.entries)[UserKey := user.value]
      ensures !isLoading && error == None
      ensures old(user).Some? || old(Synced()) ==> Synced()
    {
      isLoading := true;
      error := None;
      if user.Some? {
        var updatedUser := user.value + profileData;
        storage.SetItem(UserKey, updatedUser);
        user := Some(updatedUser);
      }
      isLoading := false;
    }

    method Logout()
      modifies this, storage
      ensures user == None && storage.entries == old(storage.entries) - {UserKey}
      ensures isLoading == old(isLoading) && error == old(error)
      ensures Synced() && !IsAuthenticated()
    {
      storage.RemoveItem(UserKey);
      user := None;
    }
  }

  /** A fresh provider over the same storage, once restored, has the user the last write left behind. */
  method Reload(current: AuthProvider) returns (next: AuthProvider)
    requires current.Synced()
    ensures fresh(next) && next.storage == current.storage
    ensures next.user == current.user && !next.isLoading && next.error == None
    ensures next.Synced()
  {
    next := new AuthProvider(current.storage);
    next.Restore();
  }
}
