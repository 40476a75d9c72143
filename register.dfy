/**
 * Registration: the form's checks, in the order the register button makes
 * them, and the user row it writes, with a landlord code for landlords.
 */
module Register {
  import opened Options
  import opened Text

  /** A row of the `users` table. */
  datatype User = User(
    id: int,
    username: string,
    password: string,
    phone: string,
    idNumber: string,
    role: string,
    landlordCode: Option<string>)

  const MsgIncomplete: string := "請填寫完整"
  const MsgMismatch: string := "密碼不一致"
  const MsgTaken: string := "帳號已存在"

  /** `findByUsername`: a user with that name, if any. */
  function FindByUsername(users: seq<User>, username: string): (r: Option<User>)
    ensures r.Some? ==> r.value in users && r.value.username == username
    ensures r.None? ==> forall u :: u in users ==> u.username != username
  {
    if users == [] then None
    else if users[0].username == username then Some(users[0])
    else FindByUsername(users[1..], username)
  }

  /** No two users share a username. */
  predicate UniqueUsernames(users: seq<User>) {
    forall i, j :: 0 <= i < j < |users| ==> users[i].username != users[j].username
  }

  /** The landlord code: the first eight characters of the generated id, upper-cased; tenants get none. */
  function LandlordCode(role: string, uuid: string): (r: Option<string>)
    ensures r.Some? <==> role == "landlord"
  {
    if role == "landlord" then Some(ToUpper(Take(uuid, 8))) else None
  }

  /** A landlord code has eight characters, none of them a lower-case letter. */
  lemma LandlordCodeShape(uuid: string)
    requires |uuid| >= 8
    ensures |LandlordCode("landlord", uuid).value| == 8
    ensures forall i :: 0 <= i < 8 ==> !('a' <= LandlordCode("landlord", uuid).value[i] <= 'z')
  {
    var code := LandlordCode("landlord", uuid).value;
    forall i | 0 <= i < 8
      ensures !('a' <= code[i] <= 'z')
    {
      var c := Take(uuid, 8)[i];
      assert code[i] == if 'a' <= c <= 'z' then (c as int - 32) as char else c;
    }
  }

  /** The users table. Rows are never deleted, so the generated id of a new row is one past the row count. */
  class UserStore {
    var users: seq<User>

    constructor ()
      ensures users == []
    {
      users := [];
    }

    /** `insert`: a new row with a fresh generated id. */
    method Insert(user: User)
      modifies this
      ensures users == old(users) + [user.(id := |old(users)| + 1)]
    {
      users := users + [user.(id := |users| + 1)];
    }
  }

  /** The registration form's remembered state. */
  class RegisterForm {
    var username: string
    var password: string
    var confirmPwd: string
    var phone: string
    var idNumber: string
    var role: string
    var errorMsg: string

    constructor ()
      ensures username == "" && password == "" && confirmPwd == "" && phone == "" && idNumber == ""
      ensures role == "tenant" && errorMsg == ""
    {
      username, password, confirmPwd, phone, idNumber := "", "", "", "", "";
      role := "tenant";
      errorMsg := "";
    }

    /** The user the form would register. */
    function NewUser(uuid: string): (u: User)
      reads this
      ensures u.username == username && u.password == password && u.phone == phone
      ensures u.idNumber == idNumber && u.role == role
    {
      User(0, username, password, phone, idNumber, role, LandlordCode(role, uuid))
    }

    /**
     * The register button. A blank name or password is reported first, then
     * differing passwords, then a taken name; in each of those cases nothing
     * is written. Otherwise the user is inserted and the message is left as
     * it was. `uuid` is the generated random id.
     */
    method Submit(store: UserStore, uuid: string) returns (registered: bool)
      modifies this, store
      ensures username == old(username) && password == old(password) && confirmPwd == old(confirmPwd)
      ensures phone == old(phone) && idNumber == old(idNumber) && role == old(role)
      ensures (IsBlank(username) || IsBlank(password) || IsBlank(confirmPwd)) ==>
        !registered && errorMsg == MsgIncomplete && store.users == old(store.users)
      ensures (!IsBlank(username) && !IsBlank(password) && !IsBlank(confirmPwd) && password != confirmPwd) ==>
        !registered && errorMsg == MsgMismatch && store.users == old(store.users)
      ensures (!IsBlank(username) && !IsBlank(password) && !IsBlank(confirmPwd) && password == confirmPwd
               && FindByUsername(old(store.users), username).Some?) ==>
        !registered && errorMsg == MsgTaken && store.users == old(store.users)
      ensures registered <==>
        !IsBlank(username) && !IsBlank(password) && !IsBlank(confirmPwd) && password == confirmPwd
        && FindByUsername(old(store.users), username).None?
      ensures registered ==>
        errorMsg == old(errorMsg)
        && store.users == old(store.users) + [NewUser(uuid).(id := |old(store.users)| + 1)]
    {
      if IsBlank(username) || IsBlank(password) || IsBlank(confirmPwd) {
        errorMsg := MsgIncomplete;
        return false;
      }
      if password != confirmPwd {
        errorMsg := MsgMismatch;
        return false;
      }
      var found := FindByUsername(store.users, username);
      if found.Some? {
        errorMsg := MsgTaken;
        return false;
      }
      var landlordCode := LandlordCode(role, uuid);
      store.Insert(User(0, username, password, phone, idNumber, role, landlordCode));
      return true;
    }
  }

  /** A registration keeps usernames unique. */
  lemma RegistrationKeepsUsernamesUnique(users: seq<User>, user: User)
    requires UniqueUsernames(users) && FindByUsername(users, user.username).None?
    ensures UniqueUsernames(users + [user.(id := |users| + 1)])
  {
    var next := users + [user.(id := |users| + 1)];
    forall i, j | 0 <= i < j < |next|
      ensures next[i].username != next[j].username
    {
      if j == |users| {
        assert next[i] == users[i] && users[i] in users;
      }
    }
  }

  /** Once a name is registered, registering it again finds it taken. */
  lemma RegisteredNameIsTaken(users: seq<User>, user: User)
    ensures FindByUsername(users + [user.(id := |users| + 1)], user.username).Some?
  {
    var next := users + [user.(id := |users| + 1)];
    assert next[|users|] in next;
  }
}
