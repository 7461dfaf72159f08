/** The server: its three tables held in one store object, one method per
    route, and `Serve`, which puts the authentication and admin middleware in
    front of the routes as the router does. */
module Server {
  import opened Base
  import opened Text
  import opened Schema
  import opened Auth
  import opened Queries

  /** A request: the route with its body fields (absent JSON fields are None).
      The video route also carries what the server's environment supplies:
      whether an API key is configured and what the handle search returned. */
  datatype Route =
    | Signup(email: string, password: string, name: Option<string>)
    | Login(email: string, password: string)
    | Upgrade(plan: Option<string>)
    | GetUsage
    | GetProfile
    | UpdateProfile(name: Option<string>, bio: Option<string>, photo: Option<string>, channel: Option<string>)
    | GetVideos(apiKeySet: bool, handleLookup: Option<string>)
    | ListMyNotes
    | CreateNote(title: Option<string>, content: Option<string>, isSecret: bool,
                 notePassword: Option<string>, kind: Option<string>)
    | DeleteNote(noteId: int)
    | AdminListUsers
    | AdminStats
    | AdminDeleteUser(userId: int)
    | LogActivity(action: Option<string>, details: Option<string>)
  {
    /** Signup and login are the only routes without `authenticateToken`. */
    predicate Public() { Signup? || Login? }
    /** The routes behind `isAdmin`. */
    predicate AdminOnly() { AdminListUsers? || AdminStats? || AdminDeleteUser? }
    /** The routes that only select. */
    predicate ReadOnly() {
      Login? || GetUsage? || GetProfile? || GetVideos? || ListMyNotes? || AdminListUsers? || AdminStats?
    }
  }

  /** What a route answers. */
  datatype Reply =
    | Status(code: int)                          // res.sendStatus(code)
    | Failure(code: int, error: string)          // res.status(code).json({ error })
    | Issued(token: string, user: Account)       // { token, user }
    | Done                                       // { success: true }
    | Upgraded(plan: Option<string>)             // { success: true, plan }
    | UsageReply(usage: Usage)
    | ProfileReply(profile: Option<ProfileView>)
    | NoteList(notes: seq<Note>)
    | Created(id: int)                           // { id: lastInsertRowid }
    | UserList(users: seq<UserSummary>)
    | Counts(userCount: nat, noteCount: nat, activityCount: nat)
    | VideosFrom(source: VideoSource)
    | ServerError                                // a thrown error: Express answers 500

  /** `POST /api/auth/login`: 401 unless a row has the email and the password
      matches its stored hash; otherwise a token carrying the stored role. */
  function LoginReply(users: seq<User>, email: string, password: string, crypto: Crypto): (r: Reply)
    ensures r.Failure? || r.Issued?
    ensures r.Failure? ==> r == Failure(401, "Invalid credentials")
    ensures r.Failure? <==> !EmailTaken(users, email) || !crypto.compare(password, FindByEmail(users, email).value.password)
    ensures r.Issued? ==> exists u :: (u in users && u.email == email && crypto.compare(password, u.password) &&
      r.token == crypto.sign(Claims(u.id, u.email, u.role)) && r.user == AccountOf(u))
  {
    match FindByEmail(users, email)
    case None => Failure(401, "Invalid credentials")
    case Some(u) =>
      if !crypto.compare(password, u.password) then Failure(401, "Invalid credentials")
      else Issued(crypto.sign(Claims(u.id, u.email, u.role)), AccountOf(u))
  }

  /** A signup followed by a login with the same email and password is let in,
      as the same id, with role `user`, and its token verifies to that payload. */
  lemma SignupThenLogin(users: seq<User>, id: int, email: string, password: string,
                        name: Option<string>, now: int, crypto: Crypto)
    requires Sound(crypto)
    requires !EmailTaken(users, email)
    ensures var r := LoginReply(users + [NewUser(id, email, crypto.hash(password), name, now)], email, password, crypto);
      r.Issued? && r.user.id == id && r.user.role == RoleUser &&
      crypto.verify(r.token) == Some(Claims(id, email, RoleUser))
  {
    var u := NewUser(id, email, crypto.hash(password), name, now);
    var users' := users + [u];
    assert users'[|users|] == u;
    assert FindByEmail(users', email) == Some(u) by {
      var found := FindByEmail(users', email);
      assert EmailTaken(users', email);
      var i :| 0 <= i < |users'| && users'[i] == found.value && forall j :: 0 <= j < i ==> users'[j].email != email;
      assert i == |users|;
    }
  }

  /** The request gets past `authenticateToken`, and past `isAdmin` where the
      route has it (signup and login have neither). */
  predicate Admitted(header: Option<string>, route: Route, crypto: Crypto) {
    route.Public() ||
    (Authenticate(header, crypto).Pass? &&
     (!route.AdminOnly() || AdminGate(Authenticate(header, crypto).claims).Pass?))
  }

  /** What an authenticated route answers and what the tables and sequences
      become (the primed values), for a caller the middleware let through. */
  predicate Handled(users: seq<User>, notes: seq<Note>, activities: seq<Activity>, noteSeq: int, activitySeq: int,
                    caller: Claims, route: Route, now: int, reply: Reply,
                    users': seq<User>, notes': seq<Note>, activities': seq<Activity>, noteSeq': int, activitySeq': int)
  {
    match route
    case Upgrade(plan) =>
      users' == SetPlan(users, caller.id, plan) && notes' == notes && activities' == activities &&
      noteSeq' == noteSeq && activitySeq' == activitySeq && reply == Upgraded(plan)
    case GetUsage =>
      users' == users && notes' == notes && activities' == activities &&
      noteSeq' == noteSeq && activitySeq' == activitySeq &&
      reply == if UsageOf(users, notes, caller.id).Some? then UsageReply(UsageOf(users, notes, caller.id).value)
               else ServerError
    case GetProfile =>
      users' == users && notes' == notes && activities' == activities &&
      noteSeq' == noteSeq && activitySeq' == activitySeq && reply == ProfileReply(ProfileOf(users, caller.id))
    case UpdateProfile(name, bio, photo, channel) =>
      users' == SetProfile(users, caller.id, name, bio, photo, channel) && notes' == notes &&
      activities' == activities && noteSeq' == noteSeq && activitySeq' == activitySeq && reply == Done
    case GetVideos(apiKeySet, handleLookup) =>
      users' == users && notes' == notes && activities' == activities &&
      noteSeq' == noteSeq && activitySeq' == activitySeq &&
      reply == VideosFrom(VideoSourceFor(users, caller.id, apiKeySet, handleLookup))
    case ListMyNotes =>
      users' == users && notes' == notes && activities' == activities &&
      noteSeq' == noteSeq && activitySeq' == activitySeq && reply == NoteList(ListNotes(notes, caller.id))
    case CreateNote(title, content, isSecret, password, kind) =>
      users' == users && activities' == activities && activitySeq' == activitySeq &&
      if HasUser(users, caller.id) then
        noteSeq' == noteSeq + 1 && reply == Created(noteSeq') &&
        notes' == notes + [NoteRow(noteSeq', caller.id, title, content, isSecret, password, kind, now)]
      else noteSeq' == noteSeq && notes' == notes && reply == ServerError
    case DeleteNote(noteId) =>
      users' == users && notes' == RemoveNote(notes, noteId, caller.id) && activities' == activities &&
      noteSeq' == noteSeq && activitySeq' == activitySeq && reply == Done
    case AdminListUsers =>
      users' == users && notes' == notes && activities' == activities &&
      noteSeq' == noteSeq && activitySeq' == activitySeq && reply == UserList(UserSummaries(users))
    case AdminStats =>
      users' == users && notes' == notes && activities' == activities &&
      noteSeq' == noteSeq && activitySeq' == activitySeq && reply == Counts(|users|, |notes|, |activities|)
    case AdminDeleteUser(userId) =>
      notes' == notes && activities' == activities && noteSeq' == noteSeq && activitySeq' == activitySeq &&
      if Referenced(notes, activities, userId) then users' == users && reply == ServerError
      else users' == RemoveUser(users, userId) && reply == Done
    case LogActivity(action, details) =>
      notes' == notes && noteSeq' == noteSeq &&
      if HasUser(users, caller.id) then
        activitySeq' == activitySeq + 1 && reply == Done &&
        activities' == activities + [Activity(activitySeq', caller.id, action, details, now)] &&
        users' == (if action == Some(AiChatAction) then BumpUsage(users, caller.id) else users)
      else users' == users && activities' == activities && activitySeq' == activitySeq && reply == ServerError
    case Signup(_, _, _) => false
    case Login(_, _) => false
  }

  /** Every note and activity refers to an existing user. */
  predicate Linked(users: seq<User>, notes: seq<Note>, activities: seq<Activity>) {
    (forall n :: n in notes ==> HasUser(users, n.userId)) &&
    (forall a :: a in activities ==> HasUser(users, a.userId))
  }

  class Store {
    var users: seq<User>
    var notes: seq<Note>
    var activities: seq<Activity>
    // The AUTOINCREMENT sequence of each table: the largest id it has issued.
    var userSeq: int
    var noteSeq: int
    var activitySeq: int

    /** Ids ascend in table order and are positive and never above their table's
        sequence; emails are unique; and every note and activity refers to an
        existing user, as the foreign keys enforce. */
    ghost predicate Valid()
      reads this
    {
      0 <= userSeq && 0 <= noteSeq && 0 <= activitySeq &&
      Pairwise(users, UserBefore) && (forall u :: u in users ==> 0 < u.id <= userSeq) &&
      Pairwise(notes, NoteBefore) && (forall n :: n in notes ==> 0 < n.id <= noteSeq) &&
      Pairwise(activities, ActivityBefore) && (forall a :: a in activities ==> 0 < a.id <= activitySeq) &&
      Linked(users, notes, activities)
    }

    /** The database as the first start creates it: empty tables. */
    constructor ()
      ensures Valid()
      ensures users == [] && notes == [] && activities == []
      ensures userSeq == 0 && noteSeq == 0 && activitySeq == 0
    {
      users, notes, activities := [], [], [];
      userSeq, noteSeq, activitySeq := 0, 0, 0;
    }

    /** `POST /api/auth/signup`. A taken email fails with 400 and changes nothing;
        otherwise exactly one row is added, with a fresh id and the column
        defaults, and a token with role `user` is issued. */
    method Signup(email: string, password: string, name: Option<string>, crypto: Crypto, now: int)
      returns (reply: Reply)
      requires Valid()
      modifies this
      ensures Valid()
      ensures notes == old(notes) && activities == old(activities)
      ensures noteSeq == old(noteSeq) && activitySeq == old(activitySeq)
      ensures EmailTaken(old(users), email) ==>
        reply == Failure(400, "Email already exists") && unchanged(this)
      ensures !EmailTaken(old(users), email) ==>
        var id := old(userSeq) + 1;
        userSeq == id && (forall u :: u in old(users) ==> u.id < id) &&
        users == old(users) + [NewUser(id, email, crypto.hash(password), name, now)] &&
        reply == Issued(crypto.sign(Claims(id, email, RoleUser)), SignupAccount(id, email, name))
    {
      var hashed := crypto.hash(password);
      if EmailTaken(users, email) {
        reply := Failure(400, "Email already exists");
        return;
      }
      var id := userSeq + 1;
      var u := NewUser(id, email, hashed, name, now);
      forall y | y in users ensures UserBefore(y, u) {
        var i :| 0 <= i < |users| && users[i] == y;
      }
      AppendAboveKeepsOrder(users, u, (x: User) => x.id, UserBefore, userSeq);
      SameUsersKeepLinked(users, users + [u], notes, activities);
      users := users + [u];
      userSeq := id;
      reply := Issued(crypto.sign(Claims(id, email, RoleUser)), SignupAccount(id, email, name));
    }

    /** `POST /api/user/upgrade`: overwrites the caller's plan with whatever was sent. */
    method Upgrade(caller: Claims, plan: Option<string>) returns (reply: Reply)
      requires Valid()
      modifies this
      ensures Valid()
      ensures users == SetPlan(old(users), caller.id, plan)
      ensures notes == old(notes) && activities == old(activities)
      ensures userSeq == old(userSeq) && noteSeq == old(noteSeq) && activitySeq == old(activitySeq)
      ensures reply == Upgraded(plan)
    {
      var users' := SetPlan(users, caller.id, plan);
      forall i | 0 <= i < |users| ensures users'[i].id == users[i].id && users'[i].email == users[i].email {
        assert users'[i].(plan := users[i].plan) == users[i];
      }
      SameKeysKeepValid(users, users', userSeq);
      SameUsersKeepLinked(users, users', notes, activities);
      users := users';
      reply := Upgraded(plan);
    }

    /** `PUT /api/user/profile`: overwrites the caller's name, bio, photo and
        channel, absent fields becoming NULL. */
    method UpdateProfile(caller: Claims, name: Option<string>, bio: Option<string>,
                         photo: Option<string>, channel: Option<string>) returns (reply: Reply)
      requires Valid()
      modifies this
      ensures Valid()
      ensures users == SetProfile(old(users), caller.id, name, bio, photo, channel)
      ensures notes == old(notes) && activities == old(activities)
      ensures userSeq == old(userSeq) && noteSeq == old(noteSeq) && activitySeq == old(activitySeq)
      ensures reply == Done
    {
      var users' := SetProfile(users, caller.id, name, bio, photo, channel);
      forall i | 0 <= i < |users| ensures users'[i].id == users[i].id && users'[i].email == users[i].email {
        assert users'[i].(name := users[i].name, bio := users[i].bio, profilePhoto := users[i].profilePhoto,
                          youtubeChannel := users[i].youtubeChannel) == users[i];
      }
      SameKeysKeepValid(users, users', userSeq);
      SameUsersKeepLinked(users, users', notes, activities);
      users := users';
      reply := Done;
    }

    /** `POST /api/notes`: inserts exactly one row, owned by the caller, with a
        fresh id. When the caller's row is gone (a token outliving its user),
        the foreign key refuses the insert and the request fails. */
    method CreateNote(caller: Claims, title: Option<string>, content: Option<string>, isSecret: bool,
                      password: Option<string>, kind: Option<string>, now: int) returns (reply: Reply)
      requires Valid()
      modifies this
      ensures Valid()
      ensures !HasUser(old(users), caller.id) ==> reply == ServerError && unchanged(this)
      ensures HasUser(old(users), caller.id) ==>
        noteSeq == old(noteSeq) + 1 && (forall n :: n in old(notes) ==> n.id < noteSeq) &&
        notes == old(notes) + [NoteRow(noteSeq, caller.id, title, content, isSecret, password, kind, now)] &&
        reply == Created(noteSeq)
      ensures users == old(users) && activities == old(activities)
      ensures userSeq == old(userSeq) && activitySeq == old(activitySeq)
    {
      if !HasUser(users, caller.id) {
        reply := ServerError;
        return;
      }
      var id := noteSeq + 1;
      var n := NoteRow(id, caller.id, title, content, isSecret, password, kind, now);
      AppendAboveKeepsOrder(notes, n, (x: Note) => x.id, NoteBefore, noteSeq);
      assert forall m :: m in notes + [n] ==> m in notes || m == n;
      notes := notes + [n];
      noteSeq := id;
      reply := Created(id);
    }

    /** `DELETE /api/notes/:id`: removes the row only when both its id and its
        owner match, and answers success whether or not a row went. */
    method DeleteNote(caller: Claims, id: int) returns (reply: Reply)
      requires Valid()
      modifies this
      ensures Valid()
      ensures notes == RemoveNote(old(notes), id, caller.id)
      ensures |old(notes)| - 1 <= |notes| <= |old(notes)|
      ensures users == old(users) && activities == old(activities)
      ensures userSeq == old(userSeq) && noteSeq == old(noteSeq) && activitySeq == old(activitySeq)
      ensures reply == Done
    {
      RemoveNoteAtMostOne(notes, id, caller.id);
      FilterPairwise(notes, n => KeptByDelete(id, caller.id, n), NoteBefore);
      assert forall n :: n in RemoveNote(notes, id, caller.id) ==> n in notes;
      notes := RemoveNote(notes, id, caller.id);
      reply := Done;
    }

    /** `POST /api/activities`: appends exactly one activity row, and raises the
        caller's AI usage counter by one exactly when the action is `AI Chat`.
        When the caller's row is gone, the foreign key refuses the insert and
        the request fails before the counter update. */
    method LogActivity(caller: Claims, action: Option<string>, details: Option<string>, now: int)
      returns (reply: Reply)
      requires Valid()
      modifies this
      ensures Valid()
      ensures !HasUser(old(users), caller.id) ==> reply == ServerError && unchanged(this)
      ensures HasUser(old(users), caller.id) ==>
        activitySeq == old(activitySeq) + 1 &&
        activities == old(activities) + [Activity(activitySeq, caller.id, action, details, now)] &&
        users == (if action == Some(AiChatAction) then BumpUsage(old(users), caller.id) else old(users)) &&
        reply == Done
      ensures notes == old(notes)
      ensures userSeq == old(userSeq) && noteSeq == old(noteSeq)
    {
      if !HasUser(users, caller.id) {
        reply := ServerError;
        return;
      }
      var id := activitySeq + 1;
      var a := Activity(id, caller.id, action, details, now);
      AppendAboveKeepsOrder(activities, a, (x: Activity) => x.id, ActivityBefore, activitySeq);
      assert forall b :: b in activities + [a] ==> b in activities || b == a;
      activities := activities + [a];
      activitySeq := id;
      if action == Some(AiChatAction) {
        BumpUsageKeepsValid(users, caller.id, userSeq);
        SameUsersKeepLinked(users, BumpUsage(users, caller.id), notes, activities);
        users := BumpUsage(users, caller.id);
      }
      reply := Done;
    }

    /** `DELETE /api/admin/users/:id`: removes that user's row. While a note or
        an activity still refers to the user, the foreign keys refuse the
        delete and the request fails with nothing removed. */
    method AdminDeleteUser(id: int) returns (reply: Reply)
      requires Valid()
      modifies this
      ensures Valid()
      ensures Referenced(old(notes), old(activities), id) ==> reply == ServerError && unchanged(this)
      ensures !Referenced(old(notes), old(activities), id) ==>
        users == RemoveUser(old(users), id) && reply == Done
      ensures notes == old(notes) && activities == old(activities)
      ensures userSeq == old(userSeq) && noteSeq == old(noteSeq) && activitySeq == old(activitySeq)
    {
      if Referenced(notes, activities, id) {
        reply := ServerError;
        return;
      }
      FilterPairwise(users, u => UserIdIsNot(id, u), UserBefore);
      UnreferencedKeepsLinked(users, notes, activities, id);
      users := RemoveUser(users, id);
      reply := Done;
    }

    /** One request through the router: the middleware first, then the route.
        A request the middleware stops gets a bare 401 or 403 and leaves every
        table as it was; an admitted request gets what its handler answers. */
    method Serve(header: Option<string>, route: Route, crypto: Crypto, now: int) returns (reply: Reply)
      requires Valid()
      modifies this
      ensures Valid()
      ensures !route.Public() && Authenticate(header, crypto).Reject? ==>
        reply == Status(Authenticate(header, crypto).status) && unchanged(this)
      ensures route.AdminOnly() && Authenticate(header, crypto).Pass? &&
              Authenticate(header, crypto).claims.role != RoleAdmin ==>
        reply == Status(403) && unchanged(this)
      ensures route.ReadOnly() ==> unchanged(this)
      ensures route.Login? ==> reply == LoginReply(users, route.email, route.password, crypto)
      ensures route.Signup? && EmailTaken(old(users), route.email) ==>
        reply == Failure(400, "Email already exists") && unchanged(this)
      ensures route.Signup? && !EmailTaken(old(users), route.email) ==>
        var id := old(userSeq) + 1;
        users == old(users) + [NewUser(id, route.email, crypto.hash(route.password), route.name, now)] &&
        reply == Issued(crypto.sign(Claims(id, route.email, RoleUser)), SignupAccount(id, route.email, route.name)) &&
        userSeq == id && (forall u :: u in old(users) ==> u.id < id) && notes == old(notes) && activities == old(activities) &&
        noteSeq == old(noteSeq) && activitySeq == old(activitySeq)
      ensures !route.Public() && Admitted(header, route, crypto) ==>
        userSeq == old(userSeq) &&
        Handled(old(users), old(notes), old(activities), old(noteSeq), old(activitySeq),
                Authenticate(header, crypto).claims, route, now, reply, users, notes, activities, noteSeq, activitySeq)
    {
      if route.Signup? {
        reply := Signup(route.email, route.password, route.name, crypto, now);
        return;
      }
      if route.Login? {
        reply := LoginReply(users, route.email, route.password, crypto);
        return;
      }
      var gate := Authenticate(header, crypto);
      if gate.Reject? {
        reply := Status(gate.status);
        return;
      }
      var caller := gate.claims;
      if route.AdminOnly() {
        var admin := AdminGate(caller);
        if admin.Reject? {
          reply := Status(admin.status);
          return;
        }
      }
      reply := Dispatch(caller, route, now);
    }

    /** The handler of an authenticated route, once the middleware let the
        request through. */
    method Dispatch(caller: Claims, route: Route, now: int) returns (reply: Reply)
      requires Valid() && !route.Public()
      modifies this
      ensures Valid()
      ensures route.ReadOnly() ==> unchanged(this)
      ensures userSeq == old(userSeq)
      ensures Handled(old(users), old(notes), old(activities), old(noteSeq), old(activitySeq),
                      caller, route, now, reply, users, notes, activities, noteSeq, activitySeq)
    {
      match route {
        case Upgrade(plan) =>
          reply := Upgrade(caller, plan);
        case GetUsage =>
          var usage := UsageOf(users, notes, caller.id);
          reply := if usage.Some? then UsageReply(usage.value) else ServerError;
        case GetProfile =>
          reply := ProfileReply(ProfileOf(users, caller.id));
        case UpdateProfile(name, bio, photo, channel) =>
          reply := UpdateProfile(caller, name, bio, photo, channel);
        case GetVideos(apiKeySet, handleLookup) =>
          reply := VideosFrom(VideoSourceFor(users, caller.id, apiKeySet, handleLookup));
        case ListMyNotes =>
          reply := NoteList(ListNotes(notes, caller.id));
        case CreateNote(title, content, isSecret, password, kind) =>
          reply := CreateNote(caller, title, content, isSecret, password, kind, now);
        case DeleteNote(noteId) =>
          reply := DeleteNote(caller, noteId);
        case AdminListUsers =>
          reply := UserList(UserSummaries(users));
        case AdminStats =>
          reply := Counts(|users|, |notes|, |activities|);
        case AdminDeleteUser(userId) =>
          reply := AdminDeleteUser(userId);
        case LogActivity(action, details) =>
          reply := LogActivity(caller, action, details, now);
      }
    }
  }

  /** An update that keeps every row's id and email keeps the users invariant. */
  lemma SameKeysKeepValid(users: seq<User>, users': seq<User>, bound: int)
    requires |users'| == |users|
    requires forall i :: 0 <= i < |users| ==> users'[i].id == users[i].id && users'[i].email == users[i].email
    requires Pairwise(users, UserBefore) && forall u :: u in users ==> 0 < u.id <= bound
    ensures Pairwise(users', UserBefore) && forall u :: u in users' ==> 0 < u.id <= bound
    ensures forall u :: u in users ==> HasUser(users', u.id)
  {
    forall u' | u' in users' ensures 0 < u'.id <= bound {
      var i :| 0 <= i < |users'| && users'[i] == u';
      assert users[i] in users;
    }
    forall u | u in users ensures HasUser(users', u.id) {
      var i :| 0 <= i < |users| && users[i] == u;
      assert users'[i] in users';
    }
  }

  lemma BumpUsageKeepsValid(users: seq<User>, uid: int, bound: int)
    requires Pairwise(users, UserBefore) && forall u :: u in users ==> 0 < u.id <= bound
    ensures var r := BumpUsage(users, uid);
      Pairwise(r, UserBefore) && forall u :: u in r ==> 0 < u.id <= bound
    ensures forall u :: u in users ==> HasUser(BumpUsage(users, uid), u.id)
  {
    var r := BumpUsage(users, uid);
    forall i | 0 <= i < |users| ensures r[i].id == users[i].id && r[i].email == users[i].email {
      assert r[i].(aiUsageCount := users[i].aiUsageCount) == users[i];
    }
    SameKeysKeepValid(users, r, bound);
  }

  /** A new users table that still has a row for every old user id keeps every
      note and activity linked. */
  lemma SameUsersKeepLinked(users: seq<User>, users': seq<User>, notes: seq<Note>, activities: seq<Activity>)
    requires Linked(users, notes, activities)
    requires forall u :: u in users ==> HasUser(users', u.id)
    ensures Linked(users', notes, activities)
  {
    forall n | n in notes ensures HasUser(users', n.userId) {
      var u :| u in users && u.id == n.userId;
    }
    forall a | a in activities ensures HasUser(users', a.userId) {
      var u :| u in users && u.id == a.userId;
    }
  }

  /** Deleting a user nothing refers to keeps every note and activity linked. */
  lemma UnreferencedKeepsLinked(users: seq<User>, notes: seq<Note>, activities: seq<Activity>, id: int)
    requires Linked(users, notes, activities) && !Referenced(notes, activities, id)
    ensures Linked(RemoveUser(users, id), notes, activities)
  {
    var users' := RemoveUser(users, id);
    forall n | n in notes ensures HasUser(users', n.userId) {
      var u :| u in users && u.id == n.userId;
      assert u in users';
    }
    forall a | a in activities ensures HasUser(users', a.userId) {
      var u :| u in users && u.id == a.userId;
      assert u in users';
    }
  }

  /** Appending a row with an id above every id present keeps ids ascending and
      bounded by the new sequence value. */
  lemma AppendAboveKeepsOrder<T>(s: seq<T>, x: T, id: T -> int, before: (T, T) -> bool, oldSeq: int)
    requires Pairwise(s, before)
    requires forall y :: y in s ==> 0 < id(y) <= oldSeq
    requires oldSeq >= 0 && id(x) == oldSeq + 1
    requires forall y :: y in s ==> before(y, x)
    ensures Pairwise(s + [x], before) && forall y :: y in s + [x] ==> 0 < id(y) <= oldSeq + 1
  {
    forall i | 0 <= i < |s| ensures before(s[i], x) {
      assert s[i] in s;
    }
    PairwiseAppend(s, x, before);
    forall y | y in s + [x] ensures 0 < id(y) <= oldSeq + 1 {
      if y != x { assert y in s; }
    }
  }
}
