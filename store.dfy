/**
 * The two database tables of the application, `usr` (class `User`) and
 * `message` (class `Message`), held in memory in id order. Rows are only
 * ever added.
 */
module Store {
  import opened Wrappers
  import Turns

  /** The value `datetime.strptime(dob, '%Y-%m-%d')` yields and the `dob` column keeps. */
  datatype Date = Date(year: int, month: int, day: int)

  datatype User = User(id: nat, name: string, username: string, dob: Date)

  datatype MessageRow = MessageRow(role: Turns.Role, content: string)

  /** The `unique=True` constraint on `usr.username`. */
  predicate UniqueUsernames(users: seq<User>)
  {
    forall i, j :: 0 <= i < j < |users| ==> users[i].username != users[j].username
  }

  /** Primary keys handed out 1, 2, 3, ... in insertion order, with no row ever deleted. */
  predicate SequentialIds(users: seq<User>)
  {
    forall i :: 0 <= i < |users| ==> users[i].id == i + 1
  }

  /**
   * `query.filter(...).first()`: the position of the first row that passes
   * `keep`, or None when no row does.
   */
  function First(users: seq<User>, keep: User -> bool): (r: Option<nat>)
    ensures r.Some? ==> r.value < |users| && keep(users[r.value])
    ensures r.Some? ==> forall j :: 0 <= j < r.value ==> !keep(users[j])
    ensures r.None? ==> forall j :: 0 <= j < |users| ==> !keep(users[j])
  {
    if users == [] then None
    else if keep(users[0]) then Some(0)
    else match First(users[1..], keep)
      case None => None
      case Some(i) => Some(i + 1)
  }

  /** `User.query.filter_by(name=name, username=username, dob=dob).first()`. */
  function FindExact(users: seq<User>, name: string, username: string, dob: Date): Option<nat>
  {
    First(users, (u: User) => u.name == name && u.username == username && u.dob == dob)
  }

  /** `User.query.filter_by(username=username).first()`. */
  function FindUsername(users: seq<User>, username: string): Option<nat>
  {
    First(users, (u: User) => u.username == username)
  }

  /**
   * With unique usernames, the row that matches all three details is the row
   * that holds the username.
   */
  lemma ExactMatchHoldsUsername(users: seq<User>, name: string, username: string, dob: Date)
    requires UniqueUsernames(users)
    requires FindExact(users, name, username, dob).Some?
    ensures FindUsername(users, username) == FindExact(users, name, username, dob)
  {
    var i := FindExact(users, name, username, dob).value;
    var j := FindUsername(users, username);
    assert users[i].username == username;
    if j.Some? && j.value < i {
      assert users[j.value].username == users[i].username;
    }
  }

  /** Adding a row whose username no row holds keeps the usernames unique. */
  lemma InsertKeepsUnique(users: seq<User>, row: User)
    requires UniqueUsernames(users)
    requires FindUsername(users, row.username).None?
    ensures UniqueUsernames(users + [row])
  {
    var after := users + [row];
    forall i, j | 0 <= i < j < |after|
      ensures after[i].username != after[j].username
    {
      if j == |users| {
        assert ((u: User) => u.username == row.username)(users[i]) == false;
      }
    }
  }

  class Database {
    var users: seq<User>
    var messages: seq<MessageRow>

    predicate Valid()
      reads this
    {
      UniqueUsernames(users) && SequentialIds(users)
    }

    constructor ()
      ensures Valid() && users == [] && messages == []
    {
      users := [];
      messages := [];
    }

    /**
     * `db.session.add(User(...)); db.session.commit()`. The commit fails with
     * an integrity error, leaving the table as it was, when the username is
     * already held; otherwise the row gets the next id.
     */
    method AddUser(name: string, username: string, dob: Date) returns (id: Option<nat>)
      requires Valid()
      modifies this
      ensures Valid()
      ensures messages == old(messages)
      ensures FindUsername(old(users), username).Some? ==> id.None? && users == old(users)
      ensures FindUsername(old(users), username).None? ==>
        id == Some(|old(users)| + 1) && users == old(users) + [User(|old(users)| + 1, name, username, dob)]
    {
      if FindUsername(users, username).Some? {
        id := None;
      } else {
        var row := User(|users| + 1, name, username, dob);
        InsertKeepsUnique(users, row);
        users := users + [row];
        id := Some(row.id);
      }
    }

    /** `db.session.add(Message(role=..., content=...)); db.session.commit()`. */
    method AddMessage(role: Turns.Role, content: string)
      modifies this
      ensures messages == old(messages) + [MessageRow(role, content)]
      ensures users == old(users)
    {
      messages := messages + [MessageRow(role, content)];
    }
  }
}
