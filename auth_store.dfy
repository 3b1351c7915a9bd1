/** The authentication container (frontend/src/context/AuthContext.js):
    the bearer token, the signed-in customer and a start-up flag, mirrored
    into the 'token' and 'user' local-storage slots. */
module Auth {
  import opened Common

  /** The customer object the login reply carries. */
  datatype Customer = Customer(name: string, email: string)

  /** The 'user' slot a user value leaves behind: a customer is written, no
      customer removes the key. */
  function UserSlotFor(user: Option<Customer>): (slot: Slot<Customer>)
    ensures slot.Stored? <==> user.Some?
    ensures user.Some? ==> slot.value == user.value
    ensures user.None? ==> slot == Empty
  {
    if user.Some? then Stored(user.value) else Empty
  }

  /** What start-up reads back from a 'user' slot. */
  function UserFromSlot(slot: Slot<Customer>): (user: Option<Customer>)
    ensures user.Some? <==> slot.Stored?
  {
    if slot.Stored? then Some(slot.value) else None
  }

  /** Writing a user and reading the slot back gives the same user. */
  lemma UserSlotRoundTrip(user: Option<Customer>)
    ensures UserFromSlot(UserSlotFor(user)) == user
  {
  }

  class AuthStore {
    var token: string
    var user: Option<Customer>
    var loading: bool
    /** The 'token' slot; "" stands for an absent key (both are falsy). */
    var tokenSlot: string
    var userSlot: Slot<Customer>

    /** The slots mirror the state. */
    ghost predicate Valid()
      reads this
    {
      tokenSlot == token && userSlot == UserSlotFor(user)
    }

    /** Start-up: a non-empty stored token is taken; a stored user that
        parses is taken, one that does not is removed; loading ends. */
    constructor Startup(storedToken: string, storedUser: Slot<Customer>)
      ensures Valid() && !loading
      ensures token == storedToken && user == UserFromSlot(storedUser)
      ensures storedUser.Corrupt? ==> userSlot == Empty
      ensures !storedUser.Corrupt? ==> userSlot == storedUser
    {
      token := "";
      user := None;
      loading := true;
      tokenSlot := storedToken;
      userSlot := storedUser;
      new;
      if storedToken != "" {
        token := storedToken;
      }
      if storedUser.Stored? {
        user := Some(storedUser.value);
      } else if storedUser.Corrupt? {
        userSlot := Empty;
      }
      loading := false;
    }

    /** The exported setUser. */
    method UpdateUser(userData: Option<Customer>)
      requires Valid()
      modifies this
      ensures Valid()
      ensures user == userData && token == old(token) && loading == old(loading)
    {
      user := userData;
      if userData.Some? {
        userSlot := Stored(userData.value);
      } else {
        userSlot := Empty;
      }
    }

    /** The exported setToken. */
    method UpdateToken(tokenData: string)
      requires Valid()
      modifies this
      ensures Valid()
      ensures token == tokenData && user == old(user) && loading == old(loading)
    {
      token := tokenData;
      if tokenData != "" {
        tokenSlot := tokenData;
      } else {
        tokenSlot := "";
      }
    }

    method Logout()
      requires Valid()
      modifies this
      ensures Valid()
      ensures user == None && token == "" && tokenSlot == "" && userSlot == Empty && loading == old(loading)
    {
      user := None;
      token := "";
      userSlot := Empty;
      tokenSlot := "";
    }
  }
}
