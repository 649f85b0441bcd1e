/**
 * The file-system branch of the user data-access object
 * (src/dao/models/userDAO.js): the users live as one JSON array in a file,
 * and every operation reads the whole array, looks up, edits or filters it,
 * and writes it back. Records are JSON objects; lookups compare a field with
 * a string using `===`.
 */
module Users {
  import opened Wrappers
  import Seqs

  /** A JSON value as read from the users file. */
  datatype Json = Null | Bool(b: bool) | Num(n: int) | Str(s: string) | Arr(items: seq<Json>) | Obj(fields: map<string, Json>)

  /** A user record: a JSON object, by field name. */
  type User = map<string, Json>

  /** `record[key] === value` for a string value: an absent field is `undefined` and never matches. */
  predicate FieldIs(u: User, key: string, value: string) {
    key in u && u[key] == Str(value)
  }

  function IdIs(id: string): User -> bool {
    u => FieldIs(u, "_id", id)
  }

  function IdIsNot(id: string): User -> bool {
    u => !FieldIs(u, "_id", id)
  }

  function EmailIs(email: string): User -> bool {
    u => FieldIs(u, "email", email)
  }

  /** The record `{ _id: id, ...data }`: the fields of data come after `_id`, so they win. */
  function NewUser(id: string, data: User): (u: User)
    ensures u.Keys == data.Keys + {"_id"}
    ensures forall key :: key in data ==> u[key] == data[key]
    ensures "_id" !in data ==> u["_id"] == Str(id)
  {
    map["_id" := Str(id)] + data
  }

  /** `users.find(user => user._id === id)`: the first record with that `_id`. */
  function FindById(users: seq<User>, id: string): (r: Option<User>)
    ensures r.None? <==> forall i :: 0 <= i < |users| ==> !FieldIs(users[i], "_id", id)
    ensures r.Some? ==> exists k :: 0 <= k < |users| && users[k] == r.value && FieldIs(r.value, "_id", id)
                          && forall j :: 0 <= j < k ==> !FieldIs(users[j], "_id", id)
  {
    Seqs.Find(users, IdIs(id))
  }

  /** `users.find(user => user.email === email)`: the first record with that email. */
  function FindByEmail(users: seq<User>, email: string): (r: Option<User>)
    ensures r.None? <==> forall i :: 0 <= i < |users| ==> !FieldIs(users[i], "email", email)
    ensures r.Some? ==> exists k :: 0 <= k < |users| && users[k] == r.value && FieldIs(r.value, "email", email)
                          && forall j :: 0 <= j < k ==> !FieldIs(users[j], "email", email)
  {
    Seqs.Find(users, EmailIs(email))
  }

  /**
   * `updateUserById`'s edit on the array: the first record with that `_id` becomes
   * `{ ...record, ...patch }`; None when there is no such record (nothing is written).
   */
  function UpdateById(users: seq<User>, id: string, patch: User): (r: Option<seq<User>>)
    ensures r.None? <==> forall i :: 0 <= i < |users| ==> !FieldIs(users[i], "_id", id)
    ensures r.Some? ==>
              var k := Seqs.IndexOf(users, IdIs(id)).value;
              && |r.value| == |users|
              && r.value[k] == users[k] + patch
              && forall j :: 0 <= j < |users| && j != k ==> r.value[j] == users[j]
  {
    match Seqs.IndexOf(users, IdIs(id))
    case Some(k) => Some(users[k := users[k] + patch])
    case None => None
  }

  /** `deleteUserById`'s edit: `users.filter(user => user._id !== id)`. */
  function DeleteById(users: seq<User>, id: string): (r: seq<User>)
    ensures forall i :: 0 <= i < |r| ==> !FieldIs(r[i], "_id", id)
    ensures forall u :: multiset(r)[u] == if FieldIs(u, "_id", id) then 0 else multiset(users)[u]
  {
    var r := Seqs.Filter(users, IdIsNot(id));
    assert forall u :: multiset(r)[u] == if FieldIs(u, "_id", id) then 0 else multiset(users)[u] by {
      forall u {
        Seqs.FilterCounts(users, IdIsNot(id), u);
      }
    }
    r
  }

  /** Why `getUserByResetToken` fails: `user.resetToken.token` on a record with no `resetToken`. */
  datatype UserError = NoResetToken(record: User)

  /** `user.resetToken` is `undefined` or `null`, so reading `.token` on it throws. */
  predicate TokenThrows(u: User) {
    "resetToken" !in u || u["resetToken"] == Null
  }

  /**
   * `user.resetToken.token === token` on a record whose `resetToken` is set: only an
   * object with a string `token` field can match; on any other value `.token` is `undefined`.
   */
  predicate TokenIs(u: User, token: string) {
    && "resetToken" in u
    && u["resetToken"].Obj?
    && "token" in u["resetToken"].fields
    && u["resetToken"].fields["token"] == Str(token)
  }

  function TokenMatches(token: string): User -> bool {
    u => TokenIs(u, token)
  }

  /**
   * `users.find(user => user.resetToken.token === token)`: the callback runs on each record
   * in order until one matches, and the first record reached that has no `resetToken` throws.
   */
  function FindByResetToken(users: seq<User>, token: string): (r: Result<Option<User>, UserError>)
    ensures r.Success? && r.value.Some? ==> TokenIs(r.value.value, token) && r.value.value in users
    decreases |users|
  {
    if users == [] then Success(None)
    else if TokenThrows(users[0]) then Failure(NoResetToken(users[0]))
    else if TokenIs(users[0], token) then Success(Some(users[0]))
    else FindByResetToken(users[1..], token)
  }

  /** A new record carrying a fresh id is what a lookup by that id finds after the append. */
  lemma CreateThenFind(users: seq<User>, id: string, data: User)
    requires forall i :: 0 <= i < |users| ==> !FieldIs(users[i], "_id", id)
    requires "_id" !in data
    ensures FindById(users + [NewUser(id, data)], id) == Some(NewUser(id, data))
  {
    var all := users + [NewUser(id, data)];
    assert FieldIs(all[|users|], "_id", id);
    assert forall i :: 0 <= i < |users| ==> all[i] == users[i];
  }

  /** When the given fields carry their own `_id`, it replaces the generated one. */
  lemma NewUserIdOverridden(id: string, data: User)
    requires "_id" in data
    ensures NewUser(id, data)["_id"] == data["_id"]
  {
  }

  /**
   * After an update the fields of the patch hold their new values and every other field of
   * the record is unchanged; the record is still found by its id unless the patch changes `_id`.
   */
  lemma UpdateThenFind(users: seq<User>, id: string, patch: User)
    requires UpdateById(users, id, patch).Some?
    requires "_id" !in patch
    ensures var u := FindById(UpdateById(users, id, patch).value, id);
            && u.Some?
            && (forall key :: key in patch ==> key in u.value && u.value[key] == patch[key])
            && (forall key :: key in u.value && key !in patch ==>
                  (key in FindById(users, id).value && u.value[key] == FindById(users, id).value[key]))
  {
    var k := Seqs.IndexOf(users, IdIs(id)).value;
    var r := UpdateById(users, id, patch).value;
    assert IdIs(id)(r[k]);
    forall j | 0 <= j < k
      ensures !IdIs(id)(r[j])
    {
      assert r[j] == users[j];
    }
    assert Seqs.IndexOf(r, IdIs(id)) == Some(k);
  }

  /** Deleting removes every record with the id and keeps the others, with their multiplicity, in order. */
  lemma DeleteThenFind(users: seq<User>, id: string)
    ensures FindById(DeleteById(users, id), id).None?
    ensures DeleteById(DeleteById(users, id), id) == DeleteById(users, id)
  {
    Seqs.FilterIdempotent(users, IdIsNot(id));
  }

  /** Deleting one id does not affect the lookup of a different id. */
  lemma DeleteKeepsOthers(users: seq<User>, id: string, other: string)
    requires other != id
    ensures FindById(DeleteById(users, id), other) == FindById(users, other)
  {
    assert forall u :: IdIs(other)(u) ==> IdIsNot(id)(u);
    Seqs.FindFilter(users, IdIsNot(id), IdIs(other));
  }

  /** The reset-token lookup can fail only on a record without `resetToken` reached before a match. */
  lemma {:induction false} ResetTokenFails(users: seq<User>, token: string)
    ensures FindByResetToken(users, token).Failure? <==>
              exists k :: 0 <= k < |users| && TokenThrows(users[k])
                && forall j :: 0 <= j < k ==> !TokenThrows(users[j]) && !TokenIs(users[j], token)
    decreases |users|
  {
    if users != [] {
      ResetTokenFails(users[1..], token);
      if FindByResetToken(users, token).Failure? && !TokenThrows(users[0]) {
        var k :| 0 <= k < |users[1..]| && TokenThrows(users[1..][k])
                 && forall j :: 0 <= j < k ==> !TokenThrows(users[1..][j]) && !TokenIs(users[1..][j], token);
        assert TokenThrows(users[k + 1]);
        assert forall j :: 0 <= j < k + 1 ==> !TokenThrows(users[j]) && !TokenIs(users[j], token);
      }
      if !FindByResetToken(users, token).Failure? && !TokenThrows(users[0]) && !TokenIs(users[0], token) {
        forall k | 0 <= k < |users| && TokenThrows(users[k])
          ensures exists j :: 0 <= j < k && (TokenThrows(users[j]) || TokenIs(users[j], token))
        {
          assert k > 0;
          assert users[1..][k - 1] == users[k];
          var j :| 0 <= j < k - 1 && (TokenThrows(users[1..][j]) || TokenIs(users[1..][j], token));
          assert users[j + 1] == users[1..][j];
        }
      }
    }
  }

  /**
   * When the lookup does not throw, it yields the first record whose token matches, or
   * nothing when none matches: records after the match are never reached.
   */
  lemma {:induction false} ResetTokenFindsFirst(users: seq<User>, token: string)
    ensures FindByResetToken(users, token).Success? ==>
              FindByResetToken(users, token).value == Seqs.Find(users, TokenMatches(token))
    decreases |users|
  {
    if users != [] {
      ResetTokenFindsFirst(users[1..], token);
      assert users == [users[0]] + users[1..];
      Seqs.FindCons(users[0], users[1..], TokenMatches(token));
    }
  }

  /** With a `resetToken` on every record the lookup never throws. */
  lemma {:induction false} ResetTokenNeverThrows(users: seq<User>, token: string)
    requires forall i :: 0 <= i < |users| ==> !TokenThrows(users[i])
    ensures FindByResetToken(users, token).Success?
    ensures FindByResetToken(users, token).value == Seqs.Find(users, TokenMatches(token))
    decreases |users|
  {
    if users != [] {
      ResetTokenNeverThrows(users[1..], token);
    }
    ResetTokenFindsFirst(users, token);
  }

  /** The users file as the store sees it: what reading it yields, None when that is a falsy value. */
  class UserDAO {
    var stored: Option<seq<User>>

    /** `_ensureFileExists`: a file that does not exist is created holding `[]`. */
    constructor (fileExists: bool, content: Option<seq<User>>)
      ensures stored == if fileExists then content else Some([])
    {
      stored := if fileExists then content else Some([]);
    }

    /** `getAllUsers`: the stored array, or `[]` when reading yields nothing. */
    function GetAllUsers(): (r: seq<User>)
      reads this
      ensures stored.Some? ==> r == stored.value
      ensures stored.None? ==> r == []
    {
      if stored.Some? then stored.value else []
    }

    /** `createUser`: appends `{ _id: id, ...data }`; id stands for the `uuidv4()` value, new to the file. */
    method CreateUser(id: string, data: User) returns (u: User)
      requires forall i :: 0 <= i < |GetAllUsers()| ==> !FieldIs(GetAllUsers()[i], "_id", id)
      modifies this
      ensures u == NewUser(id, data)
      ensures stored == Some(old(GetAllUsers()) + [u])
    {
      var users := GetAllUsers();
      u := NewUser(id, data);
      users := users + [u];
      stored := Some(users);
    }

    /** `getUserById`: the first stored record with that `_id`, as `users.find` returns it. */
    function GetUserById(id: string): (r: Option<User>)
      reads this
      ensures r.None? <==> forall i :: 0 <= i < |GetAllUsers()| ==> !FieldIs(GetAllUsers()[i], "_id", id)
      ensures r.Some? ==> r.value in GetAllUsers() && FieldIs(r.value, "_id", id)
      ensures r.Some? ==> exists k :: 0 <= k < |GetAllUsers()| && GetAllUsers()[k] == r.value
                            && forall j :: 0 <= j < k ==> !FieldIs(GetAllUsers()[j], "_id", id)
    {
      FindById(GetAllUsers(), id)
    }

    /** `getUserByEmail`: the first stored record with that email, as `users.find` returns it. */
    function GetUserByEmail(email: string): (r: Option<User>)
      reads this
      ensures r.None? <==> forall i :: 0 <= i < |GetAllUsers()| ==> !FieldIs(GetAllUsers()[i], "email", email)
      ensures r.Some? ==> r.value in GetAllUsers() && FieldIs(r.value, "email", email)
      ensures r.Some? ==> exists k :: 0 <= k < |GetAllUsers()| && GetAllUsers()[k] == r.value
                            && forall j :: 0 <= j < k ==> !FieldIs(GetAllUsers()[j], "email", email)
    {
      FindByEmail(GetAllUsers(), email)
    }

    /** `updateUserById`: merges the patch into the first record with that id and writes the array back. */
    method UpdateUserById(id: string, patch: User) returns (r: Option<User>)
      modifies this
      ensures UpdateById(old(GetAllUsers()), id, patch).None? ==> r == None && stored == old(stored)
      ensures UpdateById(old(GetAllUsers()), id, patch).Some? ==>
                && stored == Some(UpdateById(old(GetAllUsers()), id, patch).value)
                && r == Some(old(GetAllUsers())[Seqs.IndexOf(old(GetAllUsers()), IdIs(id)).value] + patch)
    {
      var users := GetAllUsers();
      var index := Seqs.IndexOf(users, IdIs(id));
      if index.None? {
        return None;
      }
      var k := index.value;
      users := users[k := users[k] + patch];
      stored := Some(users);
      r := Some(users[k]);
    }

    /** `deleteUserById`: writes back the array without the records with that id; always true. */
    method DeleteUserById(id: string) returns (b: bool)
      modifies this
      ensures b
      ensures stored == Some(DeleteById(old(GetAllUsers()), id))
    {
      var users := DeleteById(GetAllUsers(), id);
      stored := Some(users);
      b := true;
    }

    /** `getUserByResetToken`. */
    function GetUserByResetToken(token: string): (r: Result<Option<User>, UserError>)
      reads this
      ensures r.Success? && r.value.Some? ==> r.value.value in GetAllUsers() && TokenIs(r.value.value, token)
      ensures r.Success? ==> r.value == Seqs.Find(GetAllUsers(), TokenMatches(token))
    {
      ResetTokenFindsFirst(GetAllUsers(), token);
      FindByResetToken(GetAllUsers(), token)
    }
  }
}
