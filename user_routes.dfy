/** The in-memory user directory of server/routes/users.js. A stored user is an object with
    arbitrary fields, so it is a map from field name to value; every response is the
    object rest `{ password, ...userData }`, i.e. the user without its "password" field. */
module UserRoutes {
  import opened Wrappers
  import opened Seqs
  import opened Text
  import opened Http

  datatype Value = Str(s: string) | Time(t: int) | Other

  type User = map<string, Value>

  /** `const { password, ...userData } = user`. */
  function Public(u: User): (r: User)
    ensures "password" !in r
    ensures forall f :: f != "password" ==> (f in r <==> f in u) && (f in r ==> r[f] == u[f])
  {
    u - {"password"}
  }

  /** A user the search handler can read without throwing: username and email are strings. */
  predicate Searchable(u: User) {
    "username" in u && u["username"].Str? && "email" in u && u["email"].Str?
  }

  /** The filter of GET /search/:query. */
  predicate MatchesQuery(u: User, query: string)
    requires Searchable(u)
  {
    Matches(u["username"].s, query) || Matches(u["email"].s, query)
  }

  /** `if (field) user[name] = field`: a truthy string overwrites the field. */
  function SetIfTruthy(u: User, name: string, v: Option<string>): (r: User)
    ensures Truthy(v) ==> r == u[name := Str(v.value)]
    ensures !Truthy(v) ==> r == u
  {
    if Truthy(v) then u[name := Str(v.value)] else u
  }

  /** The fields PUT /:id writes. */
  const Written: set<string> := {"username", "email", "avatar", "updatedAt"}

  /** The user after PUT /:id: truthy username, email and avatar overwrite the stored ones,
      updatedAt is always refreshed, every other field is kept, and a user the search can
      read stays readable. */
  function Applied(u: User, username: Option<string>, email: Option<string>, avatar: Option<string>, now: int): (v: User)
    ensures "updatedAt" in v && v["updatedAt"] == Time(now)
    ensures Truthy(username) ==> "username" in v && v["username"] == Str(username.value)
    ensures Truthy(email) ==> "email" in v && v["email"] == Str(email.value)
    ensures Truthy(avatar) ==> "avatar" in v && v["avatar"] == Str(avatar.value)
    ensures !Truthy(username) ==> ("username" in v <==> "username" in u) && ("username" in u ==> v["username"] == u["username"])
    ensures !Truthy(email) ==> ("email" in v <==> "email" in u) && ("email" in u ==> v["email"] == u["email"])
    ensures !Truthy(avatar) ==> ("avatar" in v <==> "avatar" in u) && ("avatar" in u ==> v["avatar"] == u["avatar"])
    ensures forall f :: f !in Written ==> (f in v <==> f in u) && (f in u ==> v[f] == u[f])
    ensures Searchable(u) ==> Searchable(v)
  {
    SetIfTruthy(SetIfTruthy(SetIfTruthy(u, "username", username), "email", email), "avatar", avatar)["updatedAt" := Time(now)]
  }

  /** The stripped copies of a list of users are exactly the stripped users of the list. */
  lemma PublicOfEach(s: seq<User>)
    ensures forall v :: v in Map(s, Public) <==> exists u :: u in s && v == Public(u)
  {
    var r := Map(s, Public);
    forall v | v in r ensures exists u :: u in s && v == Public(u) {
      var i :| 0 <= i < |r| && r[i] == v;
      assert s[i] in s;
    }
    forall u | u in s ensures Public(u) in r {
      var i :| 0 <= i < |s| && s[i] == u;
      assert r[i] == Public(u);
    }
  }

  class UserStore {
    var users: map<string, User>
    /** The keys of `users` in insertion order. */
    var order: seq<string>

    ghost predicate Valid()
      reads this
    {
      && NoDuplicates(order)
      && (forall k :: k in order <==> k in users)
      && (forall k :: k in users ==> Searchable(users[k]))
    }

    constructor ()
      ensures Valid() && users == map[] && order == []
    {
      users := map[];
      order := [];
    }

    /** GET / (server/routes/users.js:9-16): every user, password stripped, in insertion order. */
    function List(): (r: seq<User>)
      reads this
      requires Valid()
      ensures forall v :: v in r ==> "password" !in v
      ensures forall k :: k in users ==> Public(users[k]) in r
      ensures forall v :: v in r ==> exists k :: k in users && v == Public(users[k])
      ensures |r| == |order| && forall i :: 0 <= i < |order| ==> r[i] == Public(users[order[i]])
    {
      var all := Values(order, users);
      PublicOfEach(all);
      Map(all, Public)
    }

    /** GET /:id (server/routes/users.js:24-34). */
    method Get(id: string) returns (res: Response<User>)
      ensures id !in users ==> res == NotFound
      ensures id in users ==> res == Ok(Public(users[id])) && "password" !in res.body
    {
      if id !in users {
        return NotFound;
      }
      res := Ok(Public(users[id]));
    }

    /** PUT /:id (server/routes/users.js:42-63): the stored user becomes `Applied` to its
        old fields, and the password is never returned. */
    method Update(id: string, username: Option<string>, email: Option<string>, avatar: Option<string>, now: int)
      returns (res: Response<User>)
      requires Valid()
      modifies this
      ensures Valid() && order == old(order)
      ensures id !in old(users) ==> res == NotFound && users == old(users)
      ensures id in old(users) ==>
                && id in users && users == old(users)[id := users[id]]
                && users[id] == Applied(old(users)[id], username, email, avatar, now)
                && res == Ok(Public(users[id]))
                && "password" !in res.body
    {
      if id !in users {
        return NotFound;
      }
      var u := users[id];
      ghost var before := u;
      u := SetIfTruthy(u, "username", username);
      u := SetIfTruthy(u, "email", email);
      u := SetIfTruthy(u, "avatar", avatar);
      u := u["updatedAt" := Time(now)];
      assert u == Applied(before, username, email, avatar, now);
      users := users[id := u];
      res := Ok(Public(u));
    }

    /** GET /search/:query (server/routes/users.js:71-84): the users whose lowercased
        username or email contains the lowercased query, in insertion order, password stripped. */
    function Search(query: string): (r: seq<User>)
      reads this
      requires Valid()
      ensures forall v :: v in r ==> "password" !in v
      ensures forall k :: k in users && MatchesQuery(users[k], query) ==> Public(users[k]) in r
      ensures forall v :: v in r ==> exists k :: k in users && MatchesQuery(users[k], query) && v == Public(users[k])
      ensures r == Map(Filter(Values(order, users), (u: User) => Searchable(u) && MatchesQuery(u, query)), Public)
    {
      var found := Filter(Values(order, users), (u: User) => Searchable(u) && MatchesQuery(u, query));
      PublicOfEach(found);
      Map(found, Public)
    }
  }
}
