/** Principal resolution: the display name of the identity that triggered a stack change. */
module Principals {

  /** An identity as `list_users` lists it. */
  datatype User = User(userId: string, userName: string)

  /** The placeholder for an identifier no listed user carries. */
  function Unknown(userId: string): string
  {
    "unknown (" + userId + ")"
  }

  /** The name of the first listed user with this identifier, else the placeholder. */
  function UserName(users: seq<User>, userId: string): string
  {
    if users == [] then Unknown(userId)
    else if users[0].userId == userId then users[0].userName
    else UserName(users[1..], userId)
  }

  /** The first user carrying the identifier decides the name; later duplicates are ignored. */
  lemma {:induction false} UserNameFirstMatch(users: seq<User>, userId: string, i: nat)
    requires i < |users| && users[i].userId == userId
    requires forall j :: 0 <= j < i ==> users[j].userId != userId
    ensures UserName(users, userId) == users[i].userName
    decreases i
  {
    if i > 0 {
      UserNameFirstMatch(users[1..], userId, i - 1);
    }
  }

  /** Without a matching user the result is the placeholder. */
  lemma {:induction false} UserNameNoMatch(users: seq<User>, userId: string)
    requires forall j :: 0 <= j < |users| ==> users[j].userId != userId
    ensures UserName(users, userId) == Unknown(userId)
    decreases |users|
  {
    if users != [] {
      UserNameNoMatch(users[1..], userId);
    }
  }

  /** `resolve_user_id_to_name`: a linear scan that returns at the first user with the identifier. */
  method ResolveUserIdToName(users: seq<User>, userId: string) returns (name: string)
    ensures name == UserName(users, userId)
  {
    var i := 0;
    while i < |users|
      invariant 0 <= i <= |users|
      invariant UserName(users, userId) == UserName(users[i..], userId)
    {
      if users[i].userId == userId {
        return users[i].userName;
      }
      assert users[i..][1..] == users[i + 1..];
      i := i + 1;
    }
    return Unknown(userId);
  }
}
