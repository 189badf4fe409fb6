/** The user/todo service: users registered by username, todos owned by a
    user token. Records keep the JavaScript property names, because which
    property a handler writes and which one it reads is part of what the
    service does: users are stored with `token`, every lookup reads
    `user_token`, and new todos copy `userToken`. */
module TodoStore {
  import opened Common

  /** A stored user. `user_token` and `userToken` are properties that the
      registration handler never sets, so they stay absent. */
  datatype User = User(
    token: Option<string>,
    user_token: Option<string>,
    userToken: Option<string>,
    name: Option<string>,
    username: Option<string>,
    created_at: int,
    updated_at: Option<int>)

  /** A stored todo. `deadline` is `None` for a date that does not parse. */
  datatype Todo = Todo(
    token: Option<string>,
    user_token: Option<string>,
    title: Option<string>,
    deadline: Option<int>,
    done: bool,
    created_at: int,
    updated_at: Option<int>)

  /** The answers other than success: the four the handlers send (404, 404,
      403, 404) and the two exceptions that end a request with 500. */
  datatype Failure =
    | UserNotFound
    | UserAlreadyExists
    | TodoNotBelongsToUser
    | TodosNotFound
    | TypeError   // reading `user_token` of the undefined todo
    | RangeError  // `toISOString` of an invalid date

  // ---------------------------------------------------------------------
  // Lookups and middlewares

  /** `checkIfTheUserIsLoggedIn`: the first user whose `user_token` equals
      the header value, or `UserNotFound`. */
  function LoggedIn(users: seq<User>, header: Option<string>): (r: Result<nat, Failure>)
    ensures r.Ok? ==> r.value < |users| && users[r.value].user_token == header
    ensures r.Ok? ==> forall j :: 0 <= j < r.value ==> users[j].user_token != header
    ensures r.Err? <==> forall j :: 0 <= j < |users| ==> users[j].user_token != header
    ensures r.Err? ==> r.error == UserNotFound
  {
    match FindFirst(users, (u: User) => u.user_token == header)
    case None => Err(UserNotFound)
    case Some(i) => Ok(i)
  }

  /** `database.todos.find(...)` by route token: the first todo with that
      `token`. */
  function TodoIndex(todos: seq<Todo>, todoToken: string): (r: Option<nat>)
    ensures r.Some? ==> r.value < |todos| && todos[r.value].token == Some(todoToken)
    ensures r.Some? ==> forall j :: 0 <= j < r.value ==> todos[j].token != Some(todoToken)
    ensures r.None? <==> forall j :: 0 <= j < |todos| ==> todos[j].token != Some(todoToken)
  {
    FindFirst(todos, (t: Todo) => t.token == Some(todoToken))
  }

  /** `checkIfTheTodoBelongsToTheUser`: the found todo when its `user_token`
      equals the user's, `TodoNotBelongsToUser` when they differ, and a
      `TypeError` when no todo has the token (the missing todo is
      dereferenced). */
  function Owned(todos: seq<Todo>, user: User, todoToken: string): (r: Result<nat, Failure>)
    ensures r == Err(TypeError) <==> TodoIndex(todos, todoToken).None?
    ensures r == Err(TodoNotBelongsToUser) <==>
      TodoIndex(todos, todoToken).Some? && todos[TodoIndex(todos, todoToken).value].user_token != user.user_token
    ensures r.Ok? ==> Some(r.value) == TodoIndex(todos, todoToken) && todos[r.value].user_token == user.user_token
    ensures r.Err? ==> r.error == TypeError || r.error == TodoNotBelongsToUser
  {
    match TodoIndex(todos, todoToken)
    case None => Err(TypeError)
    case Some(i) => if user.user_token != todos[i].user_token then Err(TodoNotBelongsToUser) else Ok(i)
  }

  /** The two middlewares chained: the index of the todo a request on
      `/todos/:todoToken` acts on. */
  function Authorize(users: seq<User>, todos: seq<Todo>, header: Option<string>, todoToken: string): (r: Result<nat, Failure>)
    ensures LoggedIn(users, header).Err? ==> r == Err(UserNotFound)
    ensures LoggedIn(users, header).Ok? ==> r == Owned(todos, users[LoggedIn(users, header).value], todoToken)
    ensures r.Ok? ==> r.value < |todos| && todos[r.value].token == Some(todoToken)
  {
    match LoggedIn(users, header)
    case Err(e) => Err(e)
    case Ok(u) => Owned(todos, users[u], todoToken)
  }

  /** The listing filter: the todos whose `user_token` equals the user's. */
  function OwnedBy(todos: seq<Todo>, user: User): (r: seq<Todo>)
    ensures forall i :: 0 <= i < |r| ==> r[i].user_token == user.user_token
    ensures forall i :: 0 <= i < |todos| && todos[i].user_token == user.user_token ==>
      multiset(r)[todos[i]] == multiset(todos)[todos[i]]
    ensures multiset(r) <= multiset(todos)
    ensures IsSubsequence(r, todos)
  {
    var mine := (t: Todo) => t.user_token == user.user_token;
    var r := Filter(todos, mine);
    FilterIsSubsequence(todos, mine);
    r
  }

  /** A todo pushed onto the store shows up at the end of its owner's
      listing, after the earlier ones, and in no other user's listing. */
  lemma OwnedByAppend(todos: seq<Todo>, t: Todo, user: User)
    ensures OwnedBy(todos + [t], user) ==
      OwnedBy(todos, user) + (if t.user_token == user.user_token then [t] else [])
  {
    var mine := (x: Todo) => x.user_token == user.user_token;
    FilterAppend(todos, [t], mine);
    assert Filter([t], mine) == (if mine(t) then [t] else []) + Filter([t][1..], mine);
    assert [t][1..] == [];
  }

  // ---------------------------------------------------------------------
  // What the stored records always look like

  /** No two users share a `username`. */
  ghost predicate UsernamesUnique(users: seq<User>)
  {
    forall i, j :: 0 <= i < j < |users| ==> users[i].username != users[j].username
  }

  /** No user carries `user_token` or `userToken`. */
  ghost predicate NoUserTokens(users: seq<User>)
  {
    forall i :: 0 <= i < |users| ==> users[i].user_token.None? && users[i].userToken.None?
  }

  /** No todo carries an owner. */
  ghost predicate NoTodoOwners(todos: seq<Todo>)
  {
    forall i :: 0 <= i < |todos| ==> todos[i].user_token.None?
  }

  /** Because stored users lack `user_token`, a login that sends a token
      never succeeds. */
  lemma TokenLoginFails(users: seq<User>, t: string)
    requires NoUserTokens(users)
    ensures LoggedIn(users, Some(t)) == Err(UserNotFound)
  {
  }

  /** ... and a login without the header (the header name is never found)
      succeeds as the first registered user. */
  lemma HeaderlessLoginIsFirstUser(users: seq<User>)
    requires NoUserTokens(users)
    ensures |users| > 0 <==> LoggedIn(users, None) == Ok(0)
  {
  }

  /** With no owners stored anywhere, the ownership check never answers 403. */
  lemma OwnershipNeverRefused(users: seq<User>, todos: seq<Todo>, header: Option<string>, todoToken: string)
    requires NoUserTokens(users) && NoTodoOwners(todos)
    ensures Authorize(users, todos, header, todoToken) != Err(TodoNotBelongsToUser)
  {
  }

  /** ... and the listing shows every todo to every logged-in user. */
  lemma {:induction false} ListingShowsAllTodos(users: seq<User>, todos: seq<Todo>, u: nat)
    requires NoUserTokens(users) && NoTodoOwners(todos)
    requires u < |users|
    ensures OwnedBy(todos, users[u]) == todos
  {
    FilterAll(todos, (t: Todo) => t.user_token == users[u].user_token);
  }

  /** The service's `database` object and its handlers. */
  class Store {
    var users: seq<User>
    var todos: seq<Todo>

    /** Usernames are unique, and the token properties the handlers read are
        never written. */
    ghost predicate Valid()
      reads this
    {
      UsernamesUnique(users) && NoUserTokens(users) && NoTodoOwners(todos)
    }

    constructor ()
      ensures Valid()
      ensures users == [] && todos == []
    {
      users, todos := [], [];
    }

    /** POST /users */
    method CreateUser(name: Option<string>, username: Option<string>, token: string, now: int)
      returns (r: Outcome<Failure>)
      requires Valid()
      modifies this
      ensures Valid()
      ensures todos == old(todos)
      ensures (exists j :: 0 <= j < |old(users)| && old(users)[j].username == username) ==>
        r == Fail(UserAlreadyExists) && users == old(users)
      ensures (forall j :: 0 <= j < |old(users)| ==> old(users)[j].username != username) ==>
        r == Done && users == old(users) + [User(Some(token), None, None, name, username, now, None)]
    {
      match FindFirst(users, (u: User) => u.username == username)
      case Some(_) =>
        r := Fail(UserAlreadyExists);
      case None =>
        users := users + [User(Some(token), None, None, name, username, now, None)];
        r := Done;
    }

    /** GET /users/:userToken: the route value is always a string, compared
        with the `user_token` property. */
    method GetUser(userToken: string) returns (r: Result<User, Failure>)
      ensures r.Err? <==> forall j :: 0 <= j < |users| ==> users[j].user_token != Some(userToken)
      ensures r.Err? ==> r.error == UserNotFound
      ensures r.Ok? ==> r.value in users && r.value.user_token == Some(userToken)
      ensures NoUserTokens(users) ==> r == Err(UserNotFound)
    {
      match LoggedIn(users, Some(userToken))
      case Err(e) => r := Err(e);
      case Ok(i) => r := Ok(users[i]);
    }

    /** GET /users */
    method ListUsers() returns (r: seq<User>)
      ensures r == users
    {
      r := users;
    }

    /** POST /todos: the owner is copied from the user's `userToken`. */
    method CreateTodo(header: Option<string>, title: Option<string>, deadline: Option<int>, token: string, now: int)
      returns (r: Outcome<Failure>)
      requires Valid()
      modifies this
      ensures Valid()
      ensures users == old(users)
      ensures old(LoggedIn(users, header)).Err? ==> r == Fail(UserNotFound) && todos == old(todos)
      ensures old(LoggedIn(users, header)).Ok? ==>
        var u := old(users)[old(LoggedIn(users, header)).value];
        r == Done && todos == old(todos) + [Todo(Some(token), u.userToken, title, deadline, false, now, None)]
      ensures r.Done? ==> todos[|todos| - 1].user_token == None && !todos[|todos| - 1].done
    {
      match LoggedIn(users, header)
      case Err(e) =>
        r := Fail(e);
      case Ok(i) =>
        todos := todos + [Todo(Some(token), users[i].userToken, title, deadline, false, now, None)];
        r := Done;
    }

    /** GET /todos/:todoToken. Its own 404 for a missing todo cannot be
        reached: the ownership check has already failed with a TypeError. */
    method GetTodo(header: Option<string>, todoToken: string) returns (r: Result<Todo, Failure>)
      ensures r.Err? <==> Authorize(users, todos, header, todoToken).Err?
      ensures r.Err? ==> r.error == Authorize(users, todos, header, todoToken).error
      ensures r.Ok? ==> r.value == todos[Authorize(users, todos, header, todoToken).value]
      ensures r.Ok? ==> r.value.token == Some(todoToken)
      ensures r.Ok? ==> forall j :: 0 <= j < Authorize(users, todos, header, todoToken).value ==>
        todos[j].token != Some(todoToken)
    {
      match Authorize(users, todos, header, todoToken)
      case Err(e) => r := Err(e);
      case Ok(k) => r := Ok(todos[k]);
    }

    /** GET /todos: the user's todos in stored order; an empty list is
        answered as not found. */
    method ListTodos(header: Option<string>) returns (r: Result<seq<Todo>, Failure>)
      ensures LoggedIn(users, header).Err? ==> r == Err(UserNotFound)
      ensures LoggedIn(users, header).Ok? ==>
        var u := users[LoggedIn(users, header).value];
        (r.Err? <==> forall j :: 0 <= j < |todos| ==> todos[j].user_token != u.user_token)
        && (r.Err? ==> r.error == TodosNotFound)
        && (r.Ok? ==> IsSubsequence(r.value, todos)
                      && (forall i :: 0 <= i < |r.value| ==> r.value[i].user_token == u.user_token)
                      && (forall j :: 0 <= j < |todos| && todos[j].user_token == u.user_token ==>
                            multiset(r.value)[todos[j]] == multiset(todos)[todos[j]]))
      ensures Valid() && r.Ok? ==> r.value == todos
    {
      match LoggedIn(users, header)
      case Err(e) =>
        r := Err(e);
      case Ok(i) =>
        var mine := OwnedBy(todos, users[i]);
        if Valid() {
          ListingShowsAllTodos(users, todos, i);
        }
        if |mine| == 0 {
          r := Err(TodosNotFound);
        } else {
          assert mine[0] in multiset(todos);
          r := Ok(mine);
        }
    }

    /** PUT /todos/:todoToken: `title` is written first; a deadline that is
        not a valid date then throws in `toISOString`, leaving the new title
        in place. Owner, `done` and `created_at` are untouched. */
    method UpdateTodo(header: Option<string>, todoToken: string, title: Option<string>, deadline: Option<int>)
      returns (r: Outcome<Failure>)
      requires Valid()
      modifies this
      ensures Valid()
      ensures users == old(users)
      ensures old(Authorize(users, todos, header, todoToken)).Err? ==>
        r == Fail(old(Authorize(users, todos, header, todoToken)).error) && todos == old(todos)
      ensures old(Authorize(users, todos, header, todoToken)).Ok? ==>
        var k := old(Authorize(users, todos, header, todoToken)).value;
        var t := old(todos)[k];
        |todos| == |old(todos)|
        && (forall j :: 0 <= j < |todos| && j != k ==> todos[j] == old(todos)[j])
        && todos[k].title == title
        && todos[k].deadline == (if deadline.Some? then deadline else t.deadline)
        && todos[k].token == t.token && todos[k].user_token == t.user_token
        && todos[k].done == t.done && todos[k].created_at == t.created_at && todos[k].updated_at == t.updated_at
        && r == (if deadline.Some? then Done else Fail(RangeError))
    {
      match Authorize(users, todos, header, todoToken)
      case Err(e) =>
        r := Fail(e);
      case Ok(k) =>
        todos := todos[k := todos[k].(title := title)];
        if deadline.None? {
          return Fail(RangeError);
        }
        todos := todos[k := todos[k].(deadline := deadline)];
        r := Done;
    }

    /** PATCH /todos/:todoToken: sets `done` to false. */
    method PatchTodo(header: Option<string>, todoToken: string) returns (r: Outcome<Failure>)
      requires Valid()
      modifies this
      ensures Valid()
      ensures users == old(users)
      ensures old(Authorize(users, todos, header, todoToken)).Err? ==>
        r == Fail(old(Authorize(users, todos, header, todoToken)).error) && todos == old(todos)
      ensures old(Authorize(users, todos, header, todoToken)).Ok? ==>
        var k := old(Authorize(users, todos, header, todoToken)).value;
        r == Done
        && |todos| == |old(todos)|
        && (forall j :: 0 <= j < |todos| && j != k ==> todos[j] == old(todos)[j])
        && !todos[k].done
        && todos[k] == old(todos)[k].(done := false)
      ensures (old(Authorize(users, todos, header, todoToken)).Ok? &&
               !old(todos)[old(Authorize(users, todos, header, todoToken)).value].done) ==> todos == old(todos)
    {
      match Authorize(users, todos, header, todoToken)
      case Err(e) =>
        r := Fail(e);
      case Ok(k) =>
        todos := todos[k := todos[k].(done := false)];
        r := Done;
    }

    /** DELETE todos/:todoToken: `splice` is applied to `users`, with the
        todo object as start index, which coerces to 0; the todos stay. */
    method DeleteTodo(header: Option<string>, todoToken: string) returns (r: Outcome<Failure>)
      requires Valid()
      modifies this
      ensures Valid()
      ensures todos == old(todos)
      ensures old(Authorize(users, todos, header, todoToken)).Err? ==>
        r == Fail(old(Authorize(users, todos, header, todoToken)).error) && users == old(users)
      ensures old(Authorize(users, todos, header, todoToken)).Ok? ==>
        r == Done && |old(users)| > 0 && users == old(users)[1..]
    {
      match Authorize(users, todos, header, todoToken)
      case Err(e) =>
        r := Fail(e);
      case Ok(k) =>
        SpliceObjectDropsFirst(users);
        users := SpliceOne(users, ObjectAsIndex);
        r := Done;
    }
  }
}
