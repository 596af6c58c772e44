/** The user store (src/store/users.ts, types in src/types/auth.ts): the user
    list, seeded with three test users, and the actions that add, merge into
    and remove users. */
module UserStore {
  import opened Seqs

  datatype UserRole = BookingAgent | EnergyAdvisor | TechTeam | Admin | Trainee

  datatype User = User(id: string, email: string, name: string, role: UserRole)

  /** `Omit<User, 'id'>`. */
  datatype UserData = UserData(email: string, name: string, role: UserRole)

  /** `Partial<User>`. */
  datatype UserPatch = UserPatch(id: Option<string>, email: Option<string>, name: Option<string>, role: Option<UserRole>)

  /** `TEST_USERS`, the store's initial contents. */
  const TestUsers: seq<User> := [
    User("1", "john.smith@example.com", "John Smith", EnergyAdvisor),
    User("2", "sarah.j@example.com", "Sarah Johnson", BookingAgent),
    User("3", "mike.w@example.com", "Mike Wilson", TechTeam)]

  /** The user `addUser` builds: the data under the clock's decimal id. */
  function NewUser(data: UserData, now: nat): (u: User)
    ensures u.id == NatToString(now) && u.email == data.email && u.name == data.name && u.role == data.role
  {
    User(NatToString(now), data.email, data.name, data.role)
  }

  /** `{ ...user, ...updates }`. */
  function MergeUser(u: User, p: UserPatch): (r: User)
    ensures p.id.Some? ==> r.id == p.id.value
    ensures p.id.None? ==> r.id == u.id
    ensures p.email.Some? ==> r.email == p.email.value
    ensures p.email.None? ==> r.email == u.email
    ensures p.name.Some? ==> r.name == p.name.value
    ensures p.name.None? ==> r.name == u.name
    ensures p.role.Some? ==> r.role == p.role.value
    ensures p.role.None? ==> r.role == u.role
    ensures p == UserPatch(None, None, None, None) ==> r == u
  {
    User(Pick(p.id, u.id), Pick(p.email, u.email), Pick(p.name, u.name), Pick(p.role, u.role))
  }

  function UpdateUsers(us: seq<User>, id: string, p: UserPatch): seq<User> {
    MapWhere(us, (u: User) => u.id == id, (u: User) => MergeUser(u, p))
  }

  function WithoutUser(us: seq<User>, id: string): seq<User> {
    Filter(us, (u: User) => u.id != id)
  }

  /** The store: the user list as its one piece of state. */
  class Store {
    var users: seq<User>

    constructor()
      ensures users == TestUsers
    {
      users := TestUsers;
    }

    method AddUser(userData: UserData, now: nat)
      modifies this
      ensures users == old(users) + [NewUser(userData, now)]
    {
      users := users + [NewUser(userData, now)];
    }

    method UpdateUser(id: string, updates: UserPatch)
      modifies this
      ensures users == UpdateUsers(old(users), id, updates)
    {
      users := UpdateUsers(users, id, updates);
    }

    method DeleteUser(id: string)
      modifies this
      ensures users == WithoutUser(old(users), id)
    {
      users := WithoutUser(users, id);
    }
  }

  // ---------------------------------------------------------------------

  /** Adding a user under a fresh id and deleting that id restores the list. */
  lemma AddThenDeleteRestores(us: seq<User>, data: UserData, now: nat)
    requires forall i :: 0 <= i < |us| ==> us[i].id != NatToString(now)
    ensures WithoutUser(us + [NewUser(data, now)], NatToString(now)) == us
  {
    var f := (u: User) => u.id != NatToString(now);
    FilterAppend(us, [NewUser(data, now)], f);
    FilterKeepsAll(us, f);
    assert Filter([NewUser(data, now)], f) == [];
  }

  /** An update merges into matching users only and keeps the length. */
  lemma UpdateChangesOnlyMatching(us: seq<User>, id: string, p: UserPatch)
    ensures |UpdateUsers(us, id, p)| == |us|
    ensures forall i :: 0 <= i < |us| ==> UpdateUsers(us, id, p)[i] == if us[i].id == id then MergeUser(us[i], p) else us[i]
  {
  }

  /** Delete removes exactly the users with that id, keeps the rest in order,
      and changes nothing when no user has that id. */
  lemma DeleteRemovesExactly(us: seq<User>, id: string, x: User)
    ensures x in WithoutUser(us, id) <==> x in us && x.id != id
    ensures IsSubsequence(WithoutUser(us, id), us)
    ensures (forall i :: 0 <= i < |us| ==> us[i].id != id) ==> WithoutUser(us, id) == us
  {
    FilterMembership(us, (u: User) => u.id != id, x);
    FilterIsSubsequence(us, (u: User) => u.id != id);
    if forall i :: 0 <= i < |us| ==> us[i].id != id {
      FilterKeepsAll(us, (u: User) => u.id != id);
    }
  }

  /** The test users have distinct ids, none of which a clock-drawn id reproduces after the first ten milliseconds. */
  lemma TestUserIdsDistinct(now: nat)
    requires now >= 10
    ensures forall i, j :: 0 <= i < j < |TestUsers| ==> TestUsers[i].id != TestUsers[j].id
    ensures forall i :: 0 <= i < |TestUsers| ==> TestUsers[i].id != NatToString(now)
  {
    assert NatToString(now) == NatToString(now / 10) + [DigitChar(now % 10)];
  }
}
