/** The administration screen: the user directory kept in browser storage
    under `EQPS_USERS`, and the backup tools over the whole store (export of
    every `EQPS_` entry, import of a backup file, and a full reset). Stored
    values are JSON values; the text they are written as is not modelled. */
module Admin {
  import opened Wrappers
  import opened Numerals
  import opened ToolAccess

  /** A JSON value as `JSON.parse` returns it. */
  datatype Json =
    | JNull
    | JBool(b: bool)
    | JNum(n: real)
    | JStr(s: string)
    | JArr(items: seq<Json>)
    | JObj(fields: map<string, Json>)

  datatype User = User(
    id: string,
    name: string,
    email: string,
    profile: UserProfile,
    unit: BusinessUnit,
    active: bool,
    lastLogin: string)

  /** The new-user form. */
  datatype UserForm = UserForm(name: string, email: string, profile: UserProfile, unit: BusinessUnit)

  const UsersKey: string := "EQPS_USERS"
  /** Where the login screen keeps the signed-in user. */
  const SessionKey: string := "EQPS_SESSION"
  const BackupPrefix: string := "EQPS_"
  const FirstAccess: string := "Primeiro Acesso"
  const EmptyForm: UserForm := UserForm("", "", Operator, QualityAssurance)

  /** The user seeded into an empty store; `today` is the date the browser
      formats for the first load. */
  function DefaultAdmin(today: string): (u: User)
    ensures u.profile == Admin && u.active && u.lastLogin == today
  {
    User("1", "Admin Panasonic", "admin@panasonic.com", Admin, QualityAssurance, true, today)
  }

  /* ---------------- Enumerations as stored text ---------------- */

  function ProfileName(p: UserProfile): string
  {
    match p
    case Operator => "OPERATOR"
    case Technician => "TECHNICIAN"
    case Quality => "QUALITY"
    case Engineering => "ENGINEERING"
    case Manager => "MANAGER"
    case Admin => "ADMIN"
  }

  function ProfileFromName(s: string): (p: Option<UserProfile>)
    ensures p.Some? ==> ProfileName(p.value) == s
  {
    if s == "OPERATOR" then Some(Operator)
    else if s == "TECHNICIAN" then Some(Technician)
    else if s == "QUALITY" then Some(Quality)
    else if s == "ENGINEERING" then Some(Engineering)
    else if s == "MANAGER" then Some(Manager)
    else if s == "ADMIN" then Some(Admin)
    else None
  }

  function UnitName(u: BusinessUnit): string
  {
    match u
    case WashingMachine => "Washing Machine"
    case QualityAssurance => "Quality Assurance"
    case Refrigeration => "Refrigeration"
    case Manufacturing => "Manufacturing"
    case EngineeringUnit => "Engineering"
  }

  function UnitFromName(s: string): (u: Option<BusinessUnit>)
    ensures u.Some? ==> UnitName(u.value) == s
  {
    if s == "Washing Machine" then Some(WashingMachine)
    else if s == "Quality Assurance" then Some(QualityAssurance)
    else if s == "Refrigeration" then Some(Refrigeration)
    else if s == "Manufacturing" then Some(Manufacturing)
    else if s == "Engineering" then Some(EngineeringUnit)
    else None
  }

  /** Every profile and unit reads back from its stored name. */
  lemma NamesRoundTrip(p: UserProfile, u: BusinessUnit)
    ensures ProfileFromName(ProfileName(p)) == Some(p)
    ensures UnitFromName(UnitName(u)) == Some(u)
  {
  }

  /* ---------------- Users as JSON ---------------- */

  function UserToJson(u: User): Json
  {
    JObj(map[
      "id" := JStr(u.id),
      "name" := JStr(u.name),
      "email" := JStr(u.email),
      "profile" := JStr(ProfileName(u.profile)),
      "unit" := JStr(UnitName(u.unit)),
      "active" := JBool(u.active),
      "lastLogin" := JStr(u.lastLogin)])
  }

  function StrField(m: map<string, Json>, k: string): Option<string>
  {
    if k in m && m[k].JStr? then Some(m[k].s) else None
  }

  /** A stored user record, when it has every field with the right type. */
  function UserFromJson(j: Json): Option<User>
  {
    if !j.JObj? then None
    else
      var m := j.fields;
      var id := StrField(m, "id");
      var name := StrField(m, "name");
      var email := StrField(m, "email");
      var profile := if StrField(m, "profile").Some? then ProfileFromName(StrField(m, "profile").value) else None;
      var unit := if StrField(m, "unit").Some? then UnitFromName(StrField(m, "unit").value) else None;
      var login := StrField(m, "lastLogin");
      if id.Some? && name.Some? && email.Some? && profile.Some? && unit.Some? && login.Some?
         && "active" in m && m["active"].JBool?
      then Some(User(id.value, name.value, email.value, profile.value, unit.value, m["active"].b, login.value))
      else None
  }

  function UsersToJson(us: seq<User>): (j: Json)
    ensures j.JArr? && |j.items| == |us|
    ensures forall i :: 0 <= i < |us| ==> j.items[i] == UserToJson(us[i])
  {
    JArr(seq(|us|, i requires 0 <= i < |us| => UserToJson(us[i])))
  }

  function DecodeUsers(items: seq<Json>): Option<seq<User>>
  {
    if items == [] then Some([])
    else
      var first := UserFromJson(items[0]);
      var rest := DecodeUsers(items[1..]);
      if first.Some? && rest.Some? then Some([first.value] + rest.value) else None
  }

  /** The user list `JSON.parse` gives back for a stored value. */
  function UsersFromJson(j: Json): Option<seq<User>>
  {
    if j.JArr? then DecodeUsers(j.items) else None
  }

  lemma UserRoundTrip(u: User)
    ensures UserFromJson(UserToJson(u)) == Some(u)
  {
    NamesRoundTrip(u.profile, u.unit);
  }

  lemma {:induction false} DecodeUsersRoundTrip(us: seq<User>)
    ensures DecodeUsers(UsersToJson(us).items) == Some(us)
  {
    if us != [] {
      UserRoundTrip(us[0]);
      DecodeUsersRoundTrip(us[1..]);
      assert UsersToJson(us).items[1..] == UsersToJson(us[1..]).items;
      assert us == [us[0]] + us[1..];
    }
  }

  /** What is written for the user list is read back as the same list. */
  lemma UsersRoundTrip(us: seq<User>)
    ensures UsersFromJson(UsersToJson(us)) == Some(us)
  {
    DecodeUsersRoundTrip(us);
  }

  /* ---------------- The directory ---------------- */

  /** `users.filter(u => u.id !== id)`. */
  function WithoutId(us: seq<User>, id: string): (r: seq<User>)
    ensures |r| <= |us|
    ensures forall i :: 0 <= i < |r| ==> r[i].id != id
  {
    if us == [] then []
    else (if us[0].id != id then [us[0]] else []) + WithoutId(us[1..], id)
  }

  /** Deleting removes every user with the id and keeps every other user. */
  lemma {:induction false} WithoutIdMembers(us: seq<User>, id: string, u: User)
    ensures u in WithoutId(us, id) <==> u in us && u.id != id
  {
    if us != [] {
      WithoutIdMembers(us[1..], id, u);
      assert u in us <==> u == us[0] || u in us[1..] by {
        assert us == [us[0]] + us[1..];
      }
    }
  }

  /** Users with other ids keep their relative order: deleting from a list
      and then appending equals appending and then deleting. */
  lemma {:induction false} WithoutIdAppend(us: seq<User>, vs: seq<User>, id: string)
    ensures WithoutId(us + vs, id) == WithoutId(us, id) + WithoutId(vs, id)
  {
    if us == [] {
      assert us + vs == vs;
    } else {
      var head := if us[0].id != id then [us[0]] else [];
      assert (us + vs)[0] == us[0];
      assert (us + vs)[1..] == us[1..] + vs;
      WithoutIdAppend(us[1..], vs, id);
      calc {
        WithoutId(us + vs, id);
        head + WithoutId(us[1..] + vs, id);
        head + (WithoutId(us[1..], id) + WithoutId(vs, id));
        (head + WithoutId(us[1..], id)) + WithoutId(vs, id);
      }
    }
  }

  /** Deleting an id nobody has changes nothing. */
  lemma {:induction false} WithoutAbsentId(us: seq<User>, id: string)
    requires forall i :: 0 <= i < |us| ==> us[i].id != id
    ensures WithoutId(us, id) == us
  {
    if us != [] {
      WithoutAbsentId(us[1..], id);
    }
  }

  /** The user the form creates under a given id. */
  function NewUser(form: UserForm, id: string): (u: User)
    ensures u.id == id && u.active && u.lastLogin == FirstAccess
    ensures u.name == form.name && u.email == form.email && u.profile == form.profile && u.unit == form.unit
  {
    User(id, form.name, form.email, form.profile, form.unit, true, FirstAccess)
  }

  /* ---------------- Backup ---------------- */

  predicate HasPrefix(k: string, prefix: string)
  {
    |prefix| <= |k| && k[..|prefix|] == prefix
  }

  /** The backup: every stored entry whose key starts with `EQPS_`. */
  function Exported(storage: map<string, Json>): (r: map<string, Json>)
    ensures forall k :: k in r <==> k in storage && HasPrefix(k, BackupPrefix)
    ensures forall k :: k in r ==> r[k] == storage[k]
  {
    map k | k in storage && HasPrefix(k, BackupPrefix) :: storage[k]
  }

  /** `k` is the decimal numeral of an index below `n`, as `Object.keys`
      names the positions of an array or a string. */
  predicate IsIndexKey(k: string, n: nat)
  {
    IsDigits(k) && DigitsValue(k) < n && DecimalString(DigitsValue(k)) == k
  }

  /** The elements of a sequence under the keys "0", "1", ... */
  function Indexed(items: seq<Json>): (r: map<string, Json>)
    ensures forall k :: k in r <==> IsIndexKey(k, |items|)
    ensures forall i :: 0 <= i < |items| ==> DecimalString(i) in r && r[DecimalString(i)] == items[i]
  {
    if items == [] then map[]
    else
      var n := |items| - 1;
      var prefix := Indexed(items[..n]);
      assert DigitsValue(DecimalString(n)) == n;
      forall i | 0 <= i < n
        ensures DecimalString(i) != DecimalString(n)
      {
        assert DigitsValue(DecimalString(i)) == i;
      }
      prefix[DecimalString(n) := items[n]]
  }

  /** The one-character strings of `s`, as `data[key]` gives them for a
      string. */
  function Characters(s: string): (r: seq<Json>)
    ensures |r| == |s| && forall i :: 0 <= i < |s| ==> r[i] == JStr([s[i]])
  {
    seq(|s|, i requires 0 <= i < |s| => JStr([s[i]]))
  }

  /** The key/value pairs `Object.keys(data).forEach` visits: an object's
      fields, an array's elements under "0", "1", ..., a string's characters
      likewise, nothing for a number or boolean; for `null` `Object.keys`
      throws, which is `None`. */
  function Entries(data: Json): (e: Option<map<string, Json>>)
    ensures e.None? <==> data.JNull?
    ensures data.JObj? ==> e == Some(data.fields)
    ensures data.JArr? ==> forall k :: k in e.value <==> IsIndexKey(k, |data.items|)
    ensures data.JBool? || data.JNum? ==> e == Some(map[])
    ensures data.JStr? ==> e == Some(Indexed(Characters(data.s)))
    ensures data.JArr? ==> e == Some(Indexed(data.items))
  {
    match data
    case JNull => None
    case JBool(_) => Some(map[])
    case JNum(_) => Some(map[])
    case JStr(s) => Some(Indexed(Characters(s)))
    case JArr(items) => Some(Indexed(items))
    case JObj(fields) => Some(fields)
  }

  /** The administration screen's state. */
  class AdminConsole {
    /** The directory on screen; `None` when the stored value is not a list
        of complete user records, which the screen cannot show. */
    var users: Option<seq<User>>
    var form: UserForm
    var storage: map<string, Json>

    /** Loading: the stored user list (`None` when it does not decode), or,
        in an empty store, the default administrator, which is then
        stored. */
    constructor (storage: map<string, Json>, today: string)
      ensures UsersKey in storage ==> users == UsersFromJson(storage[UsersKey]) && this.storage == storage
      ensures UsersKey !in storage ==>
        users == Some([DefaultAdmin(today)]) && this.storage == storage[UsersKey := UsersToJson(users.value)]
      ensures form == EmptyForm
    {
      form := EmptyForm;
      if UsersKey in storage {
        users := UsersFromJson(storage[UsersKey]);
        this.storage := storage;
      } else {
        users := Some([DefaultAdmin(today)]);
        this.storage := storage[UsersKey := UsersToJson([DefaultAdmin(today)])];
      }
    }

    /** Typing into the form. */
    method FillForm(f: UserForm)
      modifies this
      ensures form == f && users == old(users) && storage == old(storage)
    {
      form := f;
    }

    /** `addUser`: the form's user, under the generated `id`, active and
        never logged in, goes to the end of the list; the list is stored and
        the form cleared. Name and email are required fields of the form. */
    method AddUser(id: string)
      requires users.Some?
      requires form.name != "" && form.email != ""
      modifies this
      ensures users == Some(old(users).value + [NewUser(old(form), id)])
      ensures storage == old(storage)[UsersKey := UsersToJson(users.value)]
      ensures form == EmptyForm
    {
      var updated := users.value + [NewUser(form, id)];
      users := Some(updated);
      storage := storage[UsersKey := UsersToJson(updated)];
      form := EmptyForm;
    }

    /** `deleteUser`: once confirmed, every user with the id is dropped and
        the list stored; declined, nothing changes. */
    method DeleteUser(id: string, confirmed: bool)
      requires users.Some?
      modifies this
      ensures confirmed ==>
        users == Some(WithoutId(old(users).value, id)) && storage == old(storage)[UsersKey := UsersToJson(users.value)]
      ensures !confirmed ==> users == old(users) && storage == old(storage)
      ensures form == old(form)
    {
      if confirmed {
        var updated := WithoutId(users.value, id);
        users := Some(updated);
        storage := storage[UsersKey := UsersToJson(updated)];
      }
    }

    /** `exportData`: a pass over the stored keys collecting the `EQPS_`
        ones. */
    method ExportData() returns (all: map<string, Json>)
      ensures all == Exported(storage)
    {
      all := map[];
      var pending := storage.Keys;
      while pending != {}
        invariant pending <= storage.Keys
        invariant forall k :: k in all <==> k in storage && k !in pending && HasPrefix(k, BackupPrefix)
        invariant forall k :: k in all ==> all[k] == storage[k]
        decreases |pending|
      {
        var key :| key in pending;
        if HasPrefix(key, BackupPrefix) {
          all := all[key := storage[key]];
        }
        pending := pending - {key};
      }
    }

    /** The `forEach` of `importData`: each entry is written over the store,
        one key at a time; other keys are kept. */
    method WriteEntries(data: map<string, Json>)
      modifies this
      ensures storage == old(storage) + data
      ensures users == old(users) && form == old(form)
    {
      var pending := data.Keys;
      ghost var start := storage;
      while pending != {}
        invariant pending <= data.Keys
        invariant storage == start + (map k | k in data.Keys - pending :: data[k])
        invariant users == old(users) && form == old(form)
        decreases |pending|
      {
        var key :| key in pending;
        storage := storage[key := data[key]];
        pending := pending - {key};
        assert storage == start + (map k | k in data.Keys - pending :: data[k]);
      }
      assert (map k | k in data.Keys - pending :: data[k]) == data;
    }

    /** `importData`, given the parsed file (`None` when there is no file or
        it does not parse): every entry of the data is written over the
        store, other keys are kept. Returns whether it succeeded (and the
        page reloads). */
    method ImportData(parsed: Option<Json>) returns (ok: bool)
      modifies this
      ensures ok <==> parsed.Some? && !parsed.value.JNull?
      ensures ok ==> storage == old(storage) + Entries(parsed.value).value
      ensures !ok ==> storage == old(storage)
      ensures users == old(users) && form == old(form)
    {
      if parsed.None? {
        return false;
      }
      var entries := Entries(parsed.value);
      if entries.None? {
        return false;
      }
      WriteEntries(entries.value);
      ok := true;
    }

    /** `resetDB`: once confirmed, the store is emptied (and the page
        reloads). */
    method ResetDB(confirmed: bool)
      modifies this
      ensures confirmed ==> storage == map[]
      ensures !confirmed ==> storage == old(storage)
      ensures users == old(users) && form == old(form)
    {
      if confirmed {
        storage := map[];
      }
    }

    /** Restoring a backup of the store into the same store, untouched in
        between, succeeds and changes nothing. */
    method RestoreOwnBackup() returns (ok: bool)
      modifies this
      ensures ok
      ensures storage == old(storage)
      ensures users == old(users) && form == old(form)
    {
      var backup := ExportData();
      ok := ImportData(Some(JObj(backup)));
    }

    /** Backing up, resetting and restoring the backup succeeds and leaves
        exactly the `EQPS_` entries the store held before. */
    method RestoreAfterReset() returns (ok: bool)
      modifies this
      ensures ok
      ensures storage == Exported(old(storage))
      ensures users == old(users) && form == old(form)
    {
      var backup := ExportData();
      ResetDB(true);
      ok := ImportData(Some(JObj(backup)));
    }
  }

  /** After a confirmed reset the page reloads to the login screen; the
      console opens again only once an ADMIN has logged in, which stores the
      session record. The directory then holds just the default
      administrator, stored beside that session. */
  method ReloadAfterReset(c: AdminConsole, admin: User, today: string) returns (console: AdminConsole)
    requires admin.profile == Admin
    modifies c
    ensures console.users == Some([DefaultAdmin(today)])
    ensures console.storage == map[SessionKey := UserToJson(admin), UsersKey := UsersToJson([DefaultAdmin(today)])]
  {
    c.ResetDB(true);
    var loggedIn := c.storage[SessionKey := UserToJson(admin)];
    console := new AdminConsole(loggedIn, today);
  }

  /** Restoring a backup whose `EQPS_USERS` entry is not a user list leaves,
      after the reload, a directory the screen cannot show. */
  method ReloadAfterBadImport(c: AdminConsole, today: string) returns (console: AdminConsole)
    modifies c
    ensures console.users.None?
    ensures console.storage == old(c.storage)[UsersKey := JNum(5.0)]
  {
    var ok := c.ImportData(Some(JObj(map[UsersKey := JNum(5.0)])));
    console := new AdminConsole(c.storage, today);
  }
}
