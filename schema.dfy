/** The rows of the server's relational store: the `users`, `notes` and
    `activities` tables, with their column defaults. Nullable text columns are
    `Option<string>`; `created_at` is a logical timestamp. */
module Schema {
  import opened Base

  const RoleUser := "user"
  const RoleAdmin := "admin"
  const PlanFree := "Free"
  const DefaultNoteType := "note"

  datatype User = User(
    id: int,
    email: string,
    password: string,               // the stored bcrypt hash
    name: Option<string>,
    bio: Option<string>,
    profilePhoto: Option<string>,
    role: string,
    plan: Option<string>,
    aiUsageCount: int,
    youtubeChannel: Option<string>,
    createdAt: int)

  datatype Note = Note(
    id: int,
    userId: int,
    title: Option<string>,
    content: Option<string>,
    isSecret: int,                  // 0 or 1
    password: Option<string>,
    kind: string,                   // the `type` column: note, todo, file
    createdAt: int)

  datatype Activity = Activity(
    id: int,
    userId: int,
    action: Option<string>,
    details: Option<string>,
    createdAt: int)

  /** A `users` row as `INSERT INTO users (email, password, name)` creates it:
      every other column takes its default. */
  function NewUser(id: int, email: string, hash: string, name: Option<string>, now: int): (u: User)
    ensures u.id == id && u.email == email && u.password == hash && u.name == name
    ensures u.role == RoleUser && u.plan == Some(PlanFree) && u.aiUsageCount == 0
    ensures u.bio == None && u.profilePhoto == None && u.youtubeChannel == None
  {
    User(id, email, hash, name, None, None, RoleUser, Some(PlanFree), 0, None, now)
  }

  /** The `user` object the auth routes answer with and the client keeps. Fields
      a route does not send are None. */
  datatype Account = Account(
    id: int,
    email: string,
    name: Option<string>,
    role: string,
    bio: Option<string>,
    profilePhoto: Option<string>,
    plan: Option<string>,
    aiUsageCount: Option<int>,
    youtubeChannel: Option<string>)

  /** Two `users` rows in table order: ids ascend (AUTOINCREMENT) and the
      emails differ (the UNIQUE constraint). */
  predicate UserBefore(a: User, b: User) {
    a.id < b.id && a.email != b.email
  }

  predicate NoteBefore(a: Note, b: Note) {
    a.id < b.id
  }

  predicate ActivityBefore(a: Activity, b: Activity) {
    a.id < b.id
  }

  predicate EmailTaken(users: seq<User>, email: string) {
    exists i :: 0 <= i < |users| && users[i].email == email
  }

  /** A `users` row with this id exists: what `REFERENCES users(id)` demands of
      a note's or an activity's `user_id`. */
  predicate HasUser(users: seq<User>, id: int) {
    exists u :: u in users && u.id == id
  }

  /** Some note or activity refers to this user id, so the foreign keys forbid
      deleting the user's row. */
  predicate Referenced(notes: seq<Note>, activities: seq<Activity>, id: int) {
    (exists n :: n in notes && n.userId == id) || (exists a :: a in activities && a.userId == id)
  }
}
