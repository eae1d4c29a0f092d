/** User documents (models/User.js) and the routes that update one user in
    place: appending an address (app/api/add-address/route.js), changing a
    role (app/api/admin/users/update-role/route.js) and consuming a
    password-reset token (app/api/auth/reset-password/route.js). */
module Accounts {
  import opened Common
  import opened CartContext

  /** An address sub-document. */
  datatype Address = Address(
    id: string,
    fullName: string,
    phoneNumber: string,
    area: string,
    city: string,
    state: string,
    pincode: string,
    landmark: string,
    isDefault: bool)

  /** A user document. The reset fields are the ones the reset route reads. */
  datatype User = User(
    id: string,
    name: string,
    email: string,
    imageUrl: string,
    role: string,
    password: Option<string>,
    resetPasswordToken: Option<string>,
    resetPasswordExpires: Option<int>,
    addresses: seq<Address>,
    cartItems: Cart)

  /** `User.findById(id)`: the position of the user with that id. */
  function FindUser(users: seq<User>, id: string): (r: Option<nat>)
    ensures r.Some? ==> r.value < |users| && users[r.value].id == id
    ensures r.None? <==> forall i :: 0 <= i < |users| ==> users[i].id != id
    ensures r.Some? ==> forall i :: 0 <= i < r.value ==> users[i].id != id
  {
    if users == [] then None
    else if users[0].id == id then Some(0)
    else match FindUser(users[1..], id)
      case None => None
      case Some(i) => Some(i + 1)
  }

  /** `User.findOne({email})`: the position of the first user with that email. */
  function FindUserByEmail(users: seq<User>, email: string): (r: Option<nat>)
    ensures r.Some? ==> r.value < |users| && users[r.value].email == email
    ensures r.None? <==> forall i :: 0 <= i < |users| ==> users[i].email != email
  {
    if users == [] then None
    else if users[0].email == email then Some(0)
    else match FindUserByEmail(users[1..], email)
      case None => None
      case Some(i) => Some(i + 1)
  }

  /** `findById` with the session's possibly missing id. */
  function FindSessionUser(users: seq<User>, id: Option<string>): (r: Option<nat>)
    ensures r.Some? ==> id.Some? && r.value < |users| && users[r.value].id == id.value
    ensures r.None? <==> id.None? || forall i :: 0 <= i < |users| ==> users[i].id != id.value
  {
    if id.None? then None else FindUser(users, id.value)
  }

  // ---------------------------------------------------------------------------
  // Addresses

  /** The fields of an add-address request; `isDefault` as JavaScript reads it. */
  datatype AddressForm = AddressForm(
    fullName: Option<string>,
    phoneNumber: Option<string>,
    area: Option<string>,
    city: Option<string>,
    state: Option<string>,
    pincode: Option<string>,
    landmark: Option<string>,
    isDefault: bool)

  predicate HasRequiredFields(f: AddressForm) {
    Truthy(f.fullName) && Truthy(f.phoneNumber) && Truthy(f.area) &&
    Truthy(f.city) && Truthy(f.state) && Truthy(f.pincode)
  }

  /** The address the route pushes: landmark defaults to "". */
  function NewAddress(f: AddressForm, id: string): (a: Address)
    requires HasRequiredFields(f)
    ensures a.landmark == OrElse(f.landmark, "") && a.isDefault == f.isDefault
    ensures a.fullName == f.fullName.value && a.phoneNumber == f.phoneNumber.value && a.area == f.area.value
    ensures a.city == f.city.value && a.state == f.state.value && a.pincode == f.pincode.value && a.id == id
  {
    Address(id, f.fullName.value, f.phoneNumber.value, f.area.value, f.city.value,
            f.state.value, f.pincode.value, OrElse(f.landmark, ""), f.isDefault)
  }

  /** `$set: {"addresses.$[].isDefault": false}`. */
  function ClearDefaults(addrs: seq<Address>): (r: seq<Address>)
    ensures |r| == |addrs|
    ensures forall i :: 0 <= i < |r| ==> r[i] == addrs[i].(isDefault := false)
  {
    if addrs == [] then [] else [addrs[0].(isDefault := false)] + ClearDefaults(addrs[1..])
  }

  function IsDefault(): Address -> bool {
    (a: Address) => a.isDefault
  }

  /** The address list after adding `a`. */
  function WithAddress(addrs: seq<Address>, a: Address): seq<Address> {
    (if a.isDefault then ClearDefaults(addrs) else addrs) + [a]
  }

  lemma {:induction false} NoDefaultAfterClear(addrs: seq<Address>)
    ensures Count(ClearDefaults(addrs), IsDefault()) == 0
  {
    if addrs != [] {
      NoDefaultAfterClear(addrs[1..]);
      assert ClearDefaults(addrs)[1..] == ClearDefaults(addrs[1..]);
    }
  }

  /** Adding an address never leaves two defaults where there was at most
      one; a new default is then the only one. */
  lemma AtMostOneDefault(addrs: seq<Address>, a: Address)
    requires Count(addrs, IsDefault()) <= 1
    ensures Count(WithAddress(addrs, a), IsDefault()) <= 1
    ensures a.isDefault ==> Count(WithAddress(addrs, a), IsDefault()) == 1
  {
    if a.isDefault {
      NoDefaultAfterClear(addrs);
      CountAppend(ClearDefaults(addrs), a, IsDefault());
    } else {
      CountAppend(addrs, a, IsDefault());
    }
  }

  // ---------------------------------------------------------------------------
  // Role changes

  /** The user as the role route returns it: every field but the password
      and reset fields, the cart included. */
  datatype UserSummary = UserSummary(id: string, name: string, email: string, imageUrl: string, role: string,
                                     addresses: seq<Address>, cartItems: Cart)

  function Summary(u: User): UserSummary {
    UserSummary(u.id, u.name, u.email, u.imageUrl, u.role, u.addresses, u.cartItems)
  }

  // ---------------------------------------------------------------------------
  // Password reset

  /** The reset route's only rule on the new password: `password.length >= 8`. */
  predicate LongEnough(password: string) {
    |password| >= 8
  }

  /** `findOne({resetPasswordToken: hashed, resetPasswordExpires: {$gt: now}})`. */
  predicate TokenMatches(u: User, hashed: string, now: int) {
    u.resetPasswordToken == Some(hashed) && u.resetPasswordExpires.Some? &&
    u.resetPasswordExpires.value > now
  }

  function FindByToken(users: seq<User>, hashed: string, now: int): (r: Option<nat>)
    ensures r.Some? ==> r.value < |users| && TokenMatches(users[r.value], hashed, now)
    ensures r.None? <==> forall i :: 0 <= i < |users| ==> !TokenMatches(users[i], hashed, now)
  {
    if users == [] then None
    else if TokenMatches(users[0], hashed, now) then Some(0)
    else match FindByToken(users[1..], hashed, now)
      case None => None
      case Some(i) => Some(i + 1)
  }

  /** No two users hold the same reset token. */
  ghost predicate UniqueTokens(users: seq<User>) {
    forall i, j :: 0 <= i < j < |users| && users[i].resetPasswordToken.Some? ==>
      users[i].resetPasswordToken != users[j].resetPasswordToken
  }

  /** The user after a successful reset: new password, both reset fields null. */
  function Consumed(u: User, hashedPassword: string): User {
    u.(password := Some(hashedPassword), resetPasswordToken := None, resetPasswordExpires := None)
  }

  /** A reset token works once: after it is consumed no user matches it,
      whatever the time. */
  lemma ResetIsOneShot(users: seq<User>, hashed: string, now: int, later: int, hashedPassword: string)
    requires UniqueTokens(users)
    requires FindByToken(users, hashed, now).Some?
    ensures var i := FindByToken(users, hashed, now).value;
      FindByToken(users[i := Consumed(users[i], hashedPassword)], hashed, later).None?
  {
    var i := FindByToken(users, hashed, now).value;
    var after := users[i := Consumed(users[i], hashedPassword)];
    forall j | 0 <= j < |after| ensures !TokenMatches(after[j], hashed, later) {
      if j < i {
        assert users[j].resetPasswordToken != users[i].resetPasswordToken;
      } else if j > i {
        assert users[i].resetPasswordToken != users[j].resetPasswordToken;
      }
    }
  }

  /** The user documents, as the routes that change one user see them. */
  class UserTable {
    var users: seq<User>

    constructor (initial: seq<User>)
      ensures users == initial
    {
      users := initial;
    }

    /** POST /api/add-address. A missing user makes the reply fail with 500
        after the (no-op) updates. */
    method AddAddress(session: Option<Session>, form: AddressForm, newId: string)
      returns (r: Outcome<seq<Address>>)
      modifies this
      ensures session.None? ==> r == Failure(401, "Unauthorized") && users == old(users)
      ensures session.Some? && !HasRequiredFields(form) ==>
        r == Failure(400, "Missing required fields") && users == old(users)
      ensures session.Some? && HasRequiredFields(form) ==>
        match FindSessionUser(old(users), session.value.id)
        case None => r == Failure(500, "Something went wrong") && users == old(users)
        case Some(i) =>
          var updated := WithAddress(old(users)[i].addresses, NewAddress(form, newId));
          r == Success(updated) && users == old(users)[i := old(users)[i].(addresses := updated)]
    {
      if session.None? {
        return Failure(401, "Unauthorized");
      }
      if !HasRequiredFields(form) {
        return Failure(400, "Missing required fields");
      }
      var found := FindSessionUser(users, session.value.id);
      if found.None? {
        return Failure(500, "Something went wrong");
      }
      var i := found.value;
      var addrs := users[i].addresses;
      if form.isDefault {
        addrs := ClearDefaults(addrs);
      }
      addrs := addrs + [NewAddress(form, newId)];
      users := users[i := users[i].(addresses := addrs)];
      r := Success(addrs);
    }

    /** PATCH /api/admin/users/update-role. */
    method UpdateRole(session: Option<Session>, userId: Option<string>, role: Option<string>)
      returns (r: Outcome<UserSummary>)
      modifies this
      ensures r.Failure? ==> users == old(users)
      ensures session.None? || session.value.role != Some("admin") ==>
        r == Failure(403, "Unauthorized access. Only admins can change user roles.")
      ensures session.Some? && session.value.role == Some("admin") ==>
        if !Truthy(userId) || !Truthy(role) then r == Failure(400, "User ID and role are required")
        else if role.value !in Roles then r == Failure(400, "Invalid role specified")
        else if session.value.id == userId then r == Failure(400, "You cannot change your own role")
        else match FindUser(old(users), userId.value)
          case None => r == Failure(404, "User not found")
          case Some(i) =>
            users == old(users)[i := old(users)[i].(role := role.value)] &&
            r == Success(Summary(users[i]))
    {
      if session.None? || session.value.role != Some("admin") {
        return Failure(403, "Unauthorized access. Only admins can change user roles.");
      }
      if !Truthy(userId) || !Truthy(role) {
        return Failure(400, "User ID and role are required");
      }
      if role.value !in Roles {
        return Failure(400, "Invalid role specified");
      }
      if session.value.id == userId {
        return Failure(400, "You cannot change your own role");
      }
      var found := FindUser(users, userId.value);
      if found.None? {
        return Failure(404, "User not found");
      }
      var i := found.value;
      users := users[i := users[i].(role := role.value)];
      r := Success(Summary(users[i]));
    }

    /** POST /api/auth/reset-password; `sha256` and `bcrypt` are parameters,
        `now` is `Date.now()`. Only the length rule is checked here. */
    method ResetPassword(token: Option<string>, password: Option<string>, now: int,
                         sha256: string -> string, bcrypt: string -> string)
      returns (r: Outcome<()>)
      modifies this
      ensures r.Failure? ==> users == old(users)
      ensures !Truthy(token) || !Truthy(password) ==> r == Failure(400, "Token and password are required")
      ensures Truthy(token) && Truthy(password) && !LongEnough(password.value) ==>
        r == Failure(400, "Password must be at least 8 characters long")
      ensures Truthy(token) && Truthy(password) && LongEnough(password.value) ==>
        match FindByToken(old(users), sha256(token.value), now)
        case None => r == Failure(400, "Password reset token is invalid or has expired")
        case Some(i) =>
          r == Success(()) && users == old(users)[i := Consumed(old(users)[i], bcrypt(password.value))]
    {
      if !Truthy(token) || !Truthy(password) {
        return Failure(400, "Token and password are required");
      }
      if !LongEnough(password.value) {
        return Failure(400, "Password must be at least 8 characters long");
      }
      var found := FindByToken(users, sha256(token.value), now);
      if found.None? {
        return Failure(400, "Password reset token is invalid or has expired");
      }
      var i := found.value;
      users := users[i := Consumed(users[i], bcrypt(password.value))];
      r := Success(());
    }
  }
}
