/**
  User accounts and the user controller: the admin's client listing and
  client lookups (both guarded by "exists and has role client"), the
  credential view with its 'N/A' fallback, the caller's own profile update
  (a field-wise "new value if truthy, else keep" merge) and the temporary
  password reset.
*/
module Users {
  import opened Common
  import opened Sorting

  /**
    One User document. `isActive` is not a path of the User schema, so a
    document written through the schema never carries it (it reads as false
    here); the fleet statistics filter on it all the same.
  */
  datatype User = User(
    id: string,
    name: string,
    email: string,
    password: string,
    phone: string,
    address: string,
    role: Role,
    installationId: Option<string>,
    createdAt: int,
    isActive: bool)

  /** The part of an Installation document the user controller reads. */
  datatype Installation = Installation(id: string, installationCode: Option<string>)

  /** A user as `select('-password').populate('installationId')` returns it. */
  datatype ClientView = ClientView(
    id: string,
    name: string,
    email: string,
    phone: string,
    address: string,
    role: Role,
    installation: Option<Installation>,
    createdAt: int)

  /** The body of `getClientCredentials`. */
  datatype Credentials = Credentials(email: string, installationCode: string)

  /** The fields `updateProfile` reads from the request body. */
  datatype ProfileBody = ProfileBody(
    name: Option<string>,
    phone: Option<string>,
    address: Option<string>,
    photo: Option<string>,
    password: Option<string>)

  /** The body `updateProfile` answers with: the saved user without its password. */
  datatype Profile = Profile(
    id: string,
    name: string,
    email: string,
    phone: string,
    address: string,
    photo: Option<string>,
    role: Role)

  /** The body of a password reset. */
  datatype TemporaryPassword = TemporaryPassword(email: string, temporaryPassword: string)

  function CreatedAt(u: User): int { u.createdAt }
  function ViewCreatedAt(v: ClientView): int { v.createdAt }

  /** A user's `_id`. */
  function UserId(x: User): string { x.id }

  /** `populate('installationId')`: the referenced installation, or null when none is found. */
  function Populate(installations: seq<Installation>, ref: Option<string>): (r: Option<Installation>)
    ensures r.Some? ==> ref.Some? && r.value in installations && r.value.id == ref.value
    ensures r.None? ==> ref.None? || forall i :: i in installations ==> i.id != ref.value
  {
    if ref.None? || installations == [] then None
    else if installations[0].id == ref.value then Some(installations[0])
    else
      var r := Populate(installations[1..], ref);
      assert installations == [installations[0]] + installations[1..];
      r
  }

  function View(u: User, installations: seq<Installation>): ClientView
  {
    ClientView(u.id, u.name, u.email, u.phone, u.address, u.role,
               Populate(installations, u.installationId), u.createdAt)
  }

  /** `User.find({ role: 'client' })` in store order. */
  function ClientsOf(users: seq<User>): (r: seq<User>)
    ensures forall u :: u in r <==> u in users && u.role == Client
    ensures |r| <= |users|
  {
    if users == [] then []
    else
      assert users == [users[0]] + users[1..];
      if users[0].role == Client then [users[0]] + ClientsOf(users[1..])
      else ClientsOf(users[1..])
  }

  function Views(us: seq<User>, installations: seq<Installation>): (r: seq<ClientView>)
    ensures |r| == |us|
    ensures forall i :: 0 <= i < |us| ==> r[i] == View(us[i], installations)
  {
    if us == [] then [] else [View(us[0], installations)] + Views(us[1..], installations)
  }

  /**
    getClients: every user with role client, newest account first, each
    without its password and with its installation populated.
  */
  function GetClients(users: seq<User>, installations: seq<Installation>): seq<ClientView>
  {
    Views(SortDesc(ClientsOf(users), CreatedAt), installations)
  }

  /** getClients lists exactly the clients, once per client document, newest account first. */
  lemma {:induction false} GetClientsListsClients(users: seq<User>, installations: seq<Installation>)
    ensures var r := GetClients(users, installations);
      && |r| == |ClientsOf(users)|
      && SortedDesc(r, ViewCreatedAt)
      && (forall v :: v in r ==> v.role == Client)
      && (forall u :: u in users && u.role == Client ==> View(u, installations) in r)
  {
    var sorted := SortDesc(ClientsOf(users), CreatedAt);
    SortDescSorted(ClientsOf(users), CreatedAt);
    var r := Views(sorted, installations);
    assert forall i :: 0 <= i < |r| ==> r[i].createdAt == sorted[i].createdAt;
    EveryClientListed(users, installations);
    OnlyClientsListed(users, installations);
  }

  lemma EveryClientListed(users: seq<User>, installations: seq<Installation>)
    ensures forall u :: u in users && u.role == Client ==> View(u, installations) in GetClients(users, installations)
  {
    var sorted := SortDesc(ClientsOf(users), CreatedAt);
    var r := Views(sorted, installations);
    forall u | u in users && u.role == Client
      ensures View(u, installations) in r
    {
      assert u in multiset(ClientsOf(users));
      assert u in multiset(sorted);
      var i :| 0 <= i < |sorted| && sorted[i] == u;
      assert r[i] == View(u, installations);
    }
  }

  lemma OnlyClientsListed(users: seq<User>, installations: seq<Installation>)
    ensures forall v :: v in GetClients(users, installations) ==> v.role == Client
  {
    var sorted := SortDesc(ClientsOf(users), CreatedAt);
    var r := Views(sorted, installations);
    forall v | v in r
      ensures v.role == Client
    {
      var i :| 0 <= i < |r| && r[i] == v;
      assert sorted[i] in multiset(ClientsOf(users));
    }
  }

  /** `_id` is unique in a collection. */
  ghost predicate UniqueIds(users: seq<User>)
  {
    forall i, j :: 0 <= i < j < |users| ==> users[i].id != users[j].id
  }

  /** The guard shared by the admin lookups: 404 unless the record exists and is a client. */
  function FindClient(users: seq<User>, id: string): (r: Result<User>)
    ensures r.Ok? ==> r.value in users && r.value.id == id && r.value.role == Client
    ensures r.Err? ==> r.error == NotFound
    ensures UniqueIds(users) ==> (r.Ok? <==> exists u :: u in users && u.id == id && u.role == Client)
  {
    var k := IndexOf(users, UserId, id);
    if k.None? || users[k.value].role != Client then Err(NotFound) else Ok(users[k.value])
  }

  /** getClientById */
  function GetClientById(users: seq<User>, installations: seq<Installation>, id: string): (r: Result<ClientView>)
    ensures r.Err? <==> FindClient(users, id).Err?
    ensures r.Err? ==> r.error == NotFound
    ensures r.Ok? ==> r.value.id == id && r.value.role == Client
    ensures r.Ok? ==> var u := FindClient(users, id).value;
      && r.value.name == u.name && r.value.email == u.email
      && r.value.phone == u.phone && r.value.address == u.address
      && r.value.createdAt == u.createdAt
      && r.value.installation == Populate(installations, u.installationId)
  {
    match FindClient(users, id)
    case Ok(u) => Ok(View(u, installations))
    case Err(e) => Err(e)
  }

  /** A client found by id is answered with the same view the client list shows for it. */
  lemma ClientByIdIsListed(users: seq<User>, installations: seq<Installation>, id: string)
    ensures var r := GetClientById(users, installations, id);
      r.Ok? ==> r.value in GetClients(users, installations)
  {
    var f := FindClient(users, id);
    if f.Ok? {
      EveryClientListed(users, installations);
      assert View(f.value, installations) in GetClients(users, installations);
    }
  }

  /** getClientCredentials: the email and the installation code, 'N/A' when there is none. */
  function GetClientCredentials(users: seq<User>, installations: seq<Installation>, id: string): (r: Result<Credentials>)
    ensures r.Err? <==> FindClient(users, id).Err?
    ensures r.Err? ==> r.error == NotFound
    ensures r.Ok? ==> var u := FindClient(users, id).value;
      && r.value.email == u.email
      && var inst := Populate(installations, u.installationId);
      if inst.Some? && Truthy(inst.value.installationCode)
      then r.value.installationCode == inst.value.installationCode.value
      else r.value.installationCode == "N/A"
  {
    match FindClient(users, id)
    case Err(e) => Err(e)
    case Ok(u) =>
      var inst := Populate(installations, u.installationId);
      var code := if inst.Some? then inst.value.installationCode else None;
      Ok(Credentials(u.email, OrElse(code, "N/A")))
  }

  /**
    The fields of the fetched user that `updateProfile` assigns before
    saving: each of name, phone and address takes the body's value when it is
    truthy and keeps the old one otherwise; the password changes only when
    the body carries a truthy one, and it is stored as given.
  */
  function MergeProfile(u: User, body: ProfileBody): (m: User)
    ensures Truthy(body.name) ==> m.name == body.name.value
    ensures !Truthy(body.name) ==> m.name == u.name
    ensures Truthy(body.phone) ==> m.phone == body.phone.value
    ensures !Truthy(body.phone) ==> m.phone == u.phone
    ensures Truthy(body.address) ==> m.address == body.address.value
    ensures !Truthy(body.address) ==> m.address == u.address
    ensures Truthy(body.password) ==> m.password == body.password.value
    ensures !Truthy(body.password) ==> m.password == u.password
    ensures m.(name := u.name, phone := u.phone, address := u.address, password := u.password) == u
  {
    u.(name := OrElse(body.name, u.name),
       phone := OrElse(body.phone, u.phone),
       address := OrElse(body.address, u.address),
       password := if Truthy(body.password) then body.password.value else u.password)
  }

  /**
    The response of `updateProfile`. `photo` is no path of the User schema,
    so the saved document never held one: the answer carries the body's
    photo when it is truthy and none otherwise, and nothing stores it.
  */
  function ProfileOf(saved: User, body: ProfileBody): (p: Profile)
    ensures p.id == saved.id && p.email == saved.email && p.role == saved.role
    ensures p.name == saved.name && p.phone == saved.phone && p.address == saved.address
    ensures p.photo == if Truthy(body.photo) then body.photo else None
  {
    Profile(saved.id, saved.name, saved.email, saved.phone, saved.address,
            if Truthy(body.photo) then body.photo else None, saved.role)
  }

  /** The required paths of the User schema hold values that pass validation. */
  predicate WellFormed(u: User)
  {
    u.name != "" && u.email != "" && u.password != ""
  }

  /** Merging a profile keeps a user valid and never touches email or role. */
  lemma MergeKeepsWellFormed(u: User, body: ProfileBody)
    requires WellFormed(u)
    ensures WellFormed(MergeProfile(u, body))
    ensures MergeProfile(u, body).email == u.email && MergeProfile(u, body).role == u.role
    ensures MergeProfile(u, body).id == u.id
  {
  }

  /** The user collection, in insertion order. */
  class UserStore {
    var users: seq<User>
    var installations: seq<Installation>

    ghost predicate Valid()
      reads this
    {
      && UniqueIds(users)
      && (forall i :: 0 <= i < |users| ==> WellFormed(users[i]))
    }

    constructor (installations: seq<Installation>)
      ensures Valid()
      ensures users == [] && this.installations == installations
    {
      users := [];
      this.installations := installations;
    }

    /**
      updateProfile: 404 and nothing changes when the caller has no record;
      otherwise the merged record replaces the caller's and the answer is its
      projection without the password.
    */
    method UpdateProfile(caller: Caller, body: ProfileBody) returns (r: Result<Profile>)
      requires Valid()
      modifies this
      ensures Valid()
      ensures installations == old(installations)
      ensures IndexOf(old(users), UserId, caller.id).None? ==> r == Err(NotFound) && users == old(users)
      ensures IndexOf(old(users), UserId, caller.id).Some? ==>
        var k := IndexOf(old(users), UserId, caller.id).value;
        var saved := MergeProfile(old(users)[k], body);
        && users == old(users)[k := saved]
        && r == Ok(ProfileOf(saved, body))
    {
      var k := IndexOf(users, UserId, caller.id);
      if k.None? {
        return Err(NotFound);
      }
      var user := users[k.value];
      MergeKeepsWellFormed(user, body);
      user := user.(name := OrElse(body.name, user.name));
      user := user.(phone := OrElse(body.phone, user.phone));
      user := user.(address := OrElse(body.address, user.address));
      if Truthy(body.password) {
        user := user.(password := body.password.value);
      }
      users := users[k.value := user];
      r := Ok(ProfileOf(user, body));
    }

    /**
      resetClientPassword as written: after the client-role guard it calls
      `generateTempPassword`, which authController does not export, so the
      call throws and the answer is 500; nothing is saved.
    */
    method ResetClientPasswordAsWritten(id: string) returns (r: Result<TemporaryPassword>)
      ensures FindClient(users, id).Err? ==> r == Err(NotFound)
      ensures FindClient(users, id).Ok? ==> r == Err(ServerError)
    {
      var client := FindClient(users, id);
      if client.Err? {
        return Err(NotFound);
      }
      r := Err(ServerError);
    }

    /**
      resetClientPassword as intended: after the same guard the client's
      password becomes the generated temporary one, which is answered
      together with the client's email.
    */
    method ResetClientPassword(id: string, tempPassword: string) returns (r: Result<TemporaryPassword>)
      requires Valid()
      modifies this
      ensures Valid()
      ensures installations == old(installations)
      ensures FindClient(old(users), id).Err? ==> r == Err(NotFound) && users == old(users)
      ensures tempPassword == "" && FindClient(old(users), id).Ok? ==> r == Err(ServerError) && users == old(users)
      ensures tempPassword != "" && FindClient(old(users), id).Ok? ==>
        var k := IndexOf(old(users), UserId, id).value;
        && users == old(users)[k := old(users)[k].(password := tempPassword)]
        && r == Ok(TemporaryPassword(old(users)[k].email, tempPassword))
    {
      var client := FindClient(users, id);
      if client.Err? {
        return Err(NotFound);
      }
      if tempPassword == "" {
        return Err(ServerError);
      }
      var k := IndexOf(users, UserId, id).value;
      users := users[k := users[k].(password := tempPassword)];
      r := Ok(TemporaryPassword(client.value.email, tempPassword));
    }
  }
}
