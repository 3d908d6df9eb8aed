// The structs exercise: a four-field user account record and the free
// function that builds a freshly signed-in one.

module Structs {

  /** One past the largest `u64`. */
  const U64Limit: int := 0x1_0000_0000_0000_0000

  type U64 = n: nat | n < U64Limit

  /** `struct User`: a plain record with no invariant beyond its field types. */
  datatype User = User(username: string, email: string, signInCount: U64, active: bool)

  /** `build_user(email, username)`: takes both strings and returns a record
      holding them, marked active, with a sign-in count of 1. Any two
      strings are accepted, the empty ones included. */
  function BuildUser(email: string, username: string): (user: User)
    ensures user.email == email
    ensures user.username == username
    ensures user.active
    ensures user.signInCount == 1
  {
    User(username := username, email := email, active := true, signInCount := 1)
  }

  /** `user.email = email`: overwrites the email of a record its owner holds
      mutably; the other three fields keep their values. */
  function SetEmail(user: User, email: string): (updated: User)
    ensures updated.email == email
    ensures updated.username == user.username
    ensures updated.signInCount == user.signInCount
    ensures updated.active == user.active
  {
    user.(email := email)
  }

  /** A built record keeps both of its arguments apart: two calls give the
      same record exactly when they were given the same email and username. */
  lemma BuildUserInjective(email1: string, username1: string, email2: string, username2: string)
    ensures BuildUser(email1, username1) == BuildUser(email2, username2)
        <==> email1 == email2 && username1 == username2
  {
    if BuildUser(email1, username1) == BuildUser(email2, username2) {
      assert BuildUser(email1, username1).email == BuildUser(email2, username2).email;
      assert BuildUser(email1, username1).username == BuildUser(email2, username2).username;
    }
  }

  /** Overwriting the email of a freshly built record gives the record that
      building with the new email would have given. */
  lemma SetEmailOfBuiltUser(email: string, username: string, newEmail: string)
    ensures SetEmail(BuildUser(email, username), newEmail) == BuildUser(newEmail, username)
  {
  }

  /** The first `main` of the exercise: a record written out field by field,
      then given a new email, equals one built for the new email. */
  method ReassignEmailScenario() returns (user1: User)
    ensures user1 == BuildUser("anotheremail@example.com", "someusername123")
    ensures user1.email != "someone@example.com"
  {
    user1 := User(
      email := "someone@example.com",
      username := "someusername123",
      active := true,
      signInCount := 1);
    user1 := SetEmail(user1, "anotheremail@example.com");
  }
}
