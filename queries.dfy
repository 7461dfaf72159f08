/** The server's SQL statements, as functions over the table contents: the row
    updates the routes perform, the selects they answer with, and the usage
    computation and channel-id extraction done on the selected values. */
module Queries {
  import opened Base
  import opened Text
  import opened Schema
  import opened Auth

  const AiChatAction := "AI Chat"
  const FreeAiLimit := 10
  const FreeStorageLimit := 500 * 1024 * 1024
  const PaidStorageLimit := 10 * 1024 * 1024 * 1024

  // ---------------------------------------------------------------------------
  // users

  /** `SELECT * FROM users WHERE email = ?` with `.get()`: the first matching row. */
  function FindByEmail(users: seq<User>, email: string): (r: Option<User>)
    ensures r.None? <==> !EmailTaken(users, email)
    ensures r.Some? ==> r.value in users && r.value.email == email
    ensures r.Some? ==> exists i :: 0 <= i < |users| && users[i] == r.value &&
                          forall j :: 0 <= j < i ==> users[j].email != email
  {
    if users == [] then None
    else if users[0].email == email then Some(users[0])
    else
      var r := FindByEmail(users[1..], email);
      assert r.Some? ==> exists i :: 0 <= i < |users| && users[i] == r.value &&
                          forall j :: 0 <= j < i ==> users[j].email != email by {
        if r.Some? {
          var i :| 0 <= i < |users[1..]| && users[1..][i] == r.value &&
                   forall j :: 0 <= j < i ==> users[1..][j].email != email;
          assert users[i + 1] == r.value;
          assert forall j :: 0 <= j < i + 1 ==> users[j].email != email by {
            forall j | 0 <= j < i + 1 ensures users[j].email != email {
              if j > 0 { assert users[j] == users[1..][j - 1]; }
            }
          }
        }
      }
      assert r.None? <==> !EmailTaken(users, email) by {
        if EmailTaken(users, email) {
          var i :| 0 <= i < |users| && users[i].email == email;
          assert i > 0 && users[1..][i - 1].email == email;
        }
      }
      r
  }

  /** `SELECT ... FROM users WHERE id = ?` with `.get()`: the first matching row. */
  function FindById(users: seq<User>, uid: int): (r: Option<User>)
    ensures r.Some? ==> r.value in users && r.value.id == uid
    ensures r.None? ==> forall u :: u in users ==> u.id != uid
  {
    if users == [] then None
    else if users[0].id == uid then Some(users[0])
    else FindById(users[1..], uid)
  }

  /** The user object the login route answers with. */
  function AccountOf(u: User): (a: Account)
    ensures a.id == u.id && a.email == u.email && a.role == u.role && a.plan == u.plan
    ensures a.aiUsageCount == Some(u.aiUsageCount) && a.youtubeChannel == u.youtubeChannel
  {
    Account(u.id, u.email, u.name, u.role, u.bio, u.profilePhoto, u.plan, Some(u.aiUsageCount), u.youtubeChannel)
  }

  /** The user object the signup route answers with: only id, email, name and role. */
  function SignupAccount(id: int, email: string, name: Option<string>): (a: Account)
    ensures a.id == id && a.email == email && a.name == name && a.role == RoleUser
    ensures a.plan == None && a.aiUsageCount == None
  {
    Account(id, email, name, RoleUser, None, None, None, None, None)
  }

  /** `UPDATE users SET plan = ? WHERE id = ?`. */
  function SetPlan(users: seq<User>, uid: int, plan: Option<string>): (r: seq<User>)
    ensures |r| == |users|
    ensures forall i :: 0 <= i < |users| ==>
      r[i].plan == (if users[i].id == uid then plan else users[i].plan) &&
      r[i].(plan := users[i].plan) == users[i]
  {
    seq(|users|, i requires 0 <= i < |users| =>
      if users[i].id == uid then users[i].(plan := plan) else users[i])
  }

  /** `UPDATE users SET name = ?, bio = ?, profile_photo = ?, youtube_channel = ? WHERE id = ?`. */
  function SetProfile(users: seq<User>, uid: int, name: Option<string>, bio: Option<string>,
                      photo: Option<string>, channel: Option<string>): (r: seq<User>)
    ensures |r| == |users|
    ensures forall i :: 0 <= i < |users| && users[i].id == uid ==>
      r[i].name == name && r[i].bio == bio && r[i].profilePhoto == photo && r[i].youtubeChannel == channel
    ensures forall i :: 0 <= i < |users| ==>
      r[i].(name := users[i].name, bio := users[i].bio, profilePhoto := users[i].profilePhoto,
            youtubeChannel := users[i].youtubeChannel) == users[i]
    ensures forall i :: 0 <= i < |users| && users[i].id != uid ==> r[i] == users[i]
  {
    seq(|users|, i requires 0 <= i < |users| =>
      if users[i].id == uid
      then users[i].(name := name, bio := bio, profilePhoto := photo, youtubeChannel := channel)
      else users[i])
  }

  /** `UPDATE users SET ai_usage_count = ai_usage_count + 1 WHERE id = ?`. */
  function BumpUsage(users: seq<User>, uid: int): (r: seq<User>)
    ensures |r| == |users|
    ensures forall i :: 0 <= i < |users| ==>
      r[i].aiUsageCount == users[i].aiUsageCount + (if users[i].id == uid then 1 else 0) &&
      r[i].(aiUsageCount := users[i].aiUsageCount) == users[i]
  {
    seq(|users|, i requires 0 <= i < |users| =>
      if users[i].id == uid then users[i].(aiUsageCount := users[i].aiUsageCount + 1) else users[i])
  }

  predicate UserIdIsNot(id: int, u: User) { u.id != id }

  /** `DELETE FROM users WHERE id = ?`. */
  function RemoveUser(users: seq<User>, id: int): (r: seq<User>)
    ensures forall u :: u in r <==> u in users && u.id != id
  {
    Filter(users, u => UserIdIsNot(id, u))
  }

  /** The row of the admin user list: `SELECT id, email, name, role, created_at`. */
  datatype UserSummary = UserSummary(id: int, email: string, name: Option<string>, role: string, createdAt: int)

  /** `SELECT id, email, name, role, created_at FROM users`, in table order. */
  function UserSummaries(users: seq<User>): (r: seq<UserSummary>)
    ensures |r| == |users|
    ensures forall i :: 0 <= i < |users| ==>
      r[i] == UserSummary(users[i].id, users[i].email, users[i].name, users[i].role, users[i].createdAt)
  {
    seq(|users|, i requires 0 <= i < |users| =>
      UserSummary(users[i].id, users[i].email, users[i].name, users[i].role, users[i].createdAt))
  }

  /** The row of `GET /api/user/profile`: `SELECT id, email, name, bio, profile_photo, role`. */
  datatype ProfileView = ProfileView(id: int, email: string, name: Option<string>, bio: Option<string>,
                                     profilePhoto: Option<string>, role: string)

  function ProfileOf(users: seq<User>, uid: int): (r: Option<ProfileView>)
    ensures r.None? <==> FindById(users, uid).None?
    ensures r.Some? ==> r.value.id == uid
    ensures r.Some? ==>
      exists u :: u in users && u.id == uid && r.value == ProfileView(u.id, u.email, u.name, u.bio, u.profilePhoto, u.role)
  {
    match FindById(users, uid)
    case None => None
    case Some(u) => Some(ProfileView(u.id, u.email, u.name, u.bio, u.profilePhoto, u.role))
  }

  /** Looking a user up after `SetProfile` finds the same row with the new profile columns. */
  lemma {:induction false} FindAfterSetProfile(users: seq<User>, uid: int, name: Option<string>, bio: Option<string>,
                                               photo: Option<string>, channel: Option<string>)
    ensures var f := FindById(SetProfile(users, uid, name, bio, photo, channel), uid);
      f.None? <==> FindById(users, uid).None?
    ensures var f := FindById(SetProfile(users, uid, name, bio, photo, channel), uid);
      f.Some? ==> f.value == FindById(users, uid).value.(name := name, bio := bio, profilePhoto := photo,
                                                         youtubeChannel := channel)
  {
    if users != [] && users[0].id != uid {
      assert SetProfile(users, uid, name, bio, photo, channel)[1..] == SetProfile(users[1..], uid, name, bio, photo, channel);
      FindAfterSetProfile(users[1..], uid, name, bio, photo, channel);
    }
  }

  /** The profile read back after `PUT /api/user/profile` shows what was written, with
      the caller's email and role as they were. */
  lemma ProfileShowsUpdate(users: seq<User>, uid: int, name: Option<string>, bio: Option<string>,
                           photo: Option<string>, channel: Option<string>)
    requires FindById(users, uid).Some?
    ensures var u := FindById(users, uid).value;
      ProfileOf(SetProfile(users, uid, name, bio, photo, channel), uid) ==
        Some(ProfileView(uid, u.email, name, bio, photo, u.role))
  {
    FindAfterSetProfile(users, uid, name, bio, photo, channel);
  }

  // ---------------------------------------------------------------------------
  // notes

  predicate OwnedBy(uid: int, n: Note) { n.userId == uid }

  /** `... FROM notes WHERE user_id = ?`, in table order. */
  function NotesOf(notes: seq<Note>, uid: int): (r: seq<Note>)
    ensures forall n :: n in r <==> n in notes && n.userId == uid
  {
    Filter(notes, n => OwnedBy(uid, n))
  }

  /** `created_at` never increases along the sequence. */
  ghost predicate NewestFirst(s: seq<Note>) {
    forall i, j :: 0 <= i < j < |s| ==> s[i].createdAt >= s[j].createdAt
  }

  function InsertNewest(n: Note, s: seq<Note>): (r: seq<Note>)
    requires NewestFirst(s)
    ensures NewestFirst(r)
    ensures multiset(r) == multiset(s) + multiset{n}
    decreases |s|
  {
    if s == [] || n.createdAt >= s[0].createdAt then
      NewestFirstHead(s);
      PrependNewest(n, s);
      [n] + s
    else
      NewestFirstTail(s);
      var t := InsertNewest(n, s[1..]);
      InsertedBelowHead(n, s, t);
      PrependNewest(s[0], t);
      ConsMultiset(s, t, n);
      [s[0]] + t
  }

  /** No note of a newest-first list is newer than its first. */
  lemma NewestFirstHead(s: seq<Note>)
    requires NewestFirst(s)
    ensures forall k :: 0 <= k < |s| ==> s[k].createdAt <= s[0].createdAt
  {
  }

  lemma InsertedBelowHead(n: Note, s: seq<Note>, t: seq<Note>)
    requires NewestFirst(s) && s != [] && n.createdAt < s[0].createdAt
    requires multiset(t) == multiset(s[1..]) + multiset{n}
    ensures forall k :: 0 <= k < |t| ==> t[k].createdAt <= s[0].createdAt
  {
    forall k | 0 <= k < |t| ensures t[k].createdAt <= s[0].createdAt {
      assert t[k] in multiset(t);
      if t[k] != n {
        assert t[k] in multiset(s[1..]);
        var j :| 0 <= j < |s[1..]| && s[1..][j] == t[k];
        assert s[j + 1] == t[k];
      }
    }
  }

  lemma ConsMultiset(s: seq<Note>, t: seq<Note>, n: Note)
    requires s != [] && multiset(t) == multiset(s[1..]) + multiset{n}
    ensures multiset([s[0]] + t) == multiset(s) + multiset{n}
  {
    assert s == [s[0]] + s[1..];
  }

  lemma NewestFirstTail(s: seq<Note>)
    requires NewestFirst(s) && s != []
    ensures NewestFirst(s[1..])
  {
    forall i, j | 0 <= i < j < |s[1..]| ensures s[1..][i].createdAt >= s[1..][j].createdAt {
      assert s[1..][i] == s[i + 1] && s[1..][j] == s[j + 1];
    }
  }

  lemma PrependNewest(x: Note, t: seq<Note>)
    requires NewestFirst(t)
    requires forall k :: 0 <= k < |t| ==> t[k].createdAt <= x.createdAt
    ensures NewestFirst([x] + t)
  {
    var r := [x] + t;
    forall i, j | 0 <= i < j < |r| ensures r[i].createdAt >= r[j].createdAt {
      assert r[j] == t[j - 1];
      if i > 0 { assert r[i] == t[i - 1]; }
    }
  }

  /** `ORDER BY created_at DESC`, as an insertion sort. */
  function SortNewestFirst(s: seq<Note>): (r: seq<Note>)
    ensures NewestFirst(r)
    ensures multiset(r) == multiset(s)
  {
    if s == [] then []
    else
      assert s == [s[0]] + s[1..];
      InsertNewest(s[0], SortNewestFirst(s[1..]))
  }

  /** `SELECT * FROM notes WHERE user_id = ? ORDER BY created_at DESC`: exactly the
      caller's notes, each as often as it is stored, newest first. */
  function ListNotes(notes: seq<Note>, uid: int): (r: seq<Note>)
    ensures NewestFirst(r)
    ensures multiset(r) == multiset(NotesOf(notes, uid))
    ensures forall n :: n in r <==> n in notes && n.userId == uid
  {
    var r := SortNewestFirst(NotesOf(notes, uid));
    assert forall n :: n in r <==> n in NotesOf(notes, uid) by {
      forall n ensures n in r <==> n in NotesOf(notes, uid) {
        assert n in r <==> n in multiset(r);
      }
    }
    r
  }

  /** A note stored for one user never shows in another user's list. */
  lemma ListIsolation(notes: seq<Note>, a: int, b: int, n: Note)
    requires a != b
    ensures n in ListNotes(notes + [n.(userId := a)], b) <==> n in ListNotes(notes, b)
  {
  }

  /** A note added for one user leaves every other user's selection as it was. */
  lemma {:induction false} NotesOfOtherUnchanged(notes: seq<Note>, n: Note, uid: int)
    requires n.userId != uid
    ensures NotesOf(notes + [n], uid) == NotesOf(notes, uid)
  {
    FilterAppend(notes, [n], m => OwnedBy(uid, m));
  }

  /** The row `INSERT INTO notes (user_id, title, content, is_secret, password, type)`
      stores: `is_secret ? 1 : 0`, `password || null`, `type || 'note'`. */
  function NoteRow(id: int, uid: int, title: Option<string>, content: Option<string>, isSecret: bool,
                   password: Option<string>, kind: Option<string>, now: int): (n: Note)
    ensures n.id == id && n.userId == uid && n.title == title && n.content == content && n.createdAt == now
    ensures n.isSecret == 0 || n.isSecret == 1
    ensures n.isSecret == 1 <==> isSecret
    ensures n.password.None? <==> password.None? || password == Some("")
    ensures n.password.Some? ==> n.password == password
    ensures n.kind == (if kind.Some? && kind.value != "" then kind.value else DefaultNoteType)
  {
    Note(id, uid, title, content, if isSecret then 1 else 0,
         if password == Some("") then None else password,
         if kind.None? || kind == Some("") then DefaultNoteType else kind.value,
         now)
  }

  predicate KeptByDelete(id: int, uid: int, n: Note) { !(n.id == id && n.userId == uid) }

  /** `DELETE FROM notes WHERE id = ? AND user_id = ?`. */
  function RemoveNote(notes: seq<Note>, id: int, uid: int): (r: seq<Note>)
    ensures forall n :: n in r <==> n in notes && !(n.id == id && n.userId == uid)
    ensures SubsequenceOf(r, notes)
  {
    FilterIsSubsequence(notes, n => KeptByDelete(id, uid, n));
    Filter(notes, n => KeptByDelete(id, uid, n))
  }

  /** Deleting a note the caller does not own, or that does not exist, changes nothing. */
  lemma RemoveNoteNoMatch(notes: seq<Note>, id: int, uid: int)
    requires forall n :: n in notes ==> !(n.id == id && n.userId == uid)
    ensures RemoveNote(notes, id, uid) == notes
  {
    FilterKeepsAll(notes, n => KeptByDelete(id, uid, n));
  }

  /** With distinct ids, a delete removes at most one row. */
  lemma {:induction false} RemoveNoteAtMostOne(notes: seq<Note>, id: int, uid: int)
    requires Pairwise(notes, NoteBefore)
    ensures |notes| - 1 <= |RemoveNote(notes, id, uid)| <= |notes|
  {
    if notes != [] {
      var rest := notes[1..];
      assert Pairwise(rest, NoteBefore) by {
        forall i, j | 0 <= i < j < |rest| ensures NoteBefore(rest[i], rest[j]) {
          assert rest[i] == notes[i + 1] && rest[j] == notes[j + 1];
        }
      }
      if notes[0].id == id && notes[0].userId == uid {
        assert forall n :: n in rest ==> n.id != id by {
          forall n | n in rest ensures n.id != id {
            var k :| 0 <= k < |rest| && rest[k] == n;
            assert NoteBefore(notes[0], notes[k + 1]);
          }
        }
        RemoveNoteNoMatch(rest, id, uid);
      } else {
        RemoveNoteAtMostOne(rest, id, uid);
      }
    }
  }

  // ---------------------------------------------------------------------------
  // usage

  /** `note.content?.length || 0`. */
  function ContentLength(n: Note): nat {
    match n.content
    case None => 0
    case Some(c) => |c|
  }

  /** `notes.reduce((acc, note) => acc + (note.content?.length || 0), 0)`. */
  function StorageUsed(notes: seq<Note>): nat
  {
    if notes == [] then 0 else StorageUsed(notes[..|notes| - 1]) + ContentLength(notes[|notes| - 1])
  }

  /** Storage adds up over concatenation, so each note contributes its own length. */
  lemma {:induction false} StorageUsedAppend(a: seq<Note>, b: seq<Note>)
    ensures StorageUsed(a + b) == StorageUsed(a) + StorageUsed(b)
    decreases |b|
  {
    if b != [] {
      var b' := b[..|b| - 1];
      assert (a + b)[..|a + b| - 1] == a + b';
      StorageUsedAppend(a, b');
    } else {
      assert a + b == a;
    }
  }

  /** The `limits` object: the AI limit (None is `Infinity`, which JSON sends as
      null) and the storage limit in bytes. */
  datatype Usage = Usage(plan: Option<string>, aiUsage: int, storageUsed: nat,
                         aiLimit: Option<nat>, storageLimit: nat)

  /** `GET /api/user/usage`. None when the caller has no row: reading `user.plan`
      of `undefined` throws, and the request fails. */
  function UsageOf(users: seq<User>, notes: seq<Note>, uid: int): (r: Option<Usage>)
    ensures r.None? <==> FindById(users, uid).None?
    ensures r.Some? ==> r.value.storageUsed == StorageUsed(NotesOf(notes, uid))
    ensures r.Some? ==> r.value.plan == FindById(users, uid).value.plan
    ensures r.Some? ==> r.value.aiUsage == FindById(users, uid).value.aiUsageCount
    ensures r.Some? && r.value.plan == Some(PlanFree) ==>
      r.value.aiLimit == Some(FreeAiLimit) && r.value.storageLimit == FreeStorageLimit
    ensures r.Some? && r.value.plan != Some(PlanFree) ==>
      r.value.aiLimit.None? && r.value.storageLimit == PaidStorageLimit
  {
    match FindById(users, uid)
    case None => None
    case Some(u) =>
      var free := u.plan == Some(PlanFree);
      Some(Usage(u.plan, u.aiUsageCount, StorageUsed(NotesOf(notes, uid)),
                 if free then Some(FreeAiLimit) else None,
                 if free then FreeStorageLimit else PaidStorageLimit))
  }

  /** Raising one user's counter: the row found for any id is the same row, with
      the counter one higher exactly when that id is the one raised. */
  lemma {:induction false} FindAfterBump(users: seq<User>, uid: int, other: int)
    ensures FindById(BumpUsage(users, uid), other).Some? <==> FindById(users, other).Some?
    ensures FindById(users, other).Some? ==>
      var u := FindById(users, other).value;
      FindById(BumpUsage(users, uid), other).value ==
        u.(aiUsageCount := u.aiUsageCount + (if other == uid then 1 else 0))
  {
    if users != [] {
      var b := BumpUsage(users, uid);
      assert b[0].(aiUsageCount := users[0].aiUsageCount) == users[0];
      assert b[1..] == BumpUsage(users[1..], uid);
      FindAfterBump(users[1..], uid, other);
    }
  }

  /** An `AI Chat` activity raises the caller's reported AI usage by exactly one
      and leaves every other user's report as it was. */
  lemma UsageAfterChat(users: seq<User>, notes: seq<Note>, uid: int, other: int)
    ensures UsageOf(BumpUsage(users, uid), notes, other).Some? <==> UsageOf(users, notes, other).Some?
    ensures UsageOf(users, notes, other).Some? ==>
      var before, after := UsageOf(users, notes, other).value, UsageOf(BumpUsage(users, uid), notes, other).value;
      after == before.(aiUsage := before.aiUsage + (if other == uid then 1 else 0))
  {
    FindAfterBump(users, uid, other);
  }

  /** Creating a note adds exactly its content length to its owner's storage and
      nothing to anyone else's. */
  lemma StorageAfterCreate(notes: seq<Note>, n: Note, uid: int)
    ensures StorageUsed(NotesOf(notes + [n], uid)) ==
            StorageUsed(NotesOf(notes, uid)) + (if n.userId == uid then ContentLength(n) else 0)
  {
    FilterAppend(notes, [n], m => OwnedBy(uid, m));
    var added := NotesOf([n], uid);
    assert added == if n.userId == uid then [n] else [] by {
      assert [n][1..] == [];
    }
    StorageUsedAppend(NotesOf(notes, uid), added);
    assert StorageUsed([n]) == ContentLength(n) by {
      assert [n][..0] == [];
    }
  }

  // ---------------------------------------------------------------------------
  // YouTube channel

  const ChannelMarker := "channel/"

  /** `channelId.split('channel/')[1].split('/')[0]`. */
  function ExtractChannelId(channel: string): (r: string)
    requires Contains(channel, ChannelMarker)
  {
    SplitSecond(channel, ChannelMarker);
    Split(Split(channel, ChannelMarker)[1], "/")[0]
  }

  /** The extracted id is the text right after the first `channel/`, up to (not
      including) the next `/` or the next `channel/`, whichever comes first, or to
      the end; no `channel/` starts inside it, even one that runs past its end. */
  lemma ExtractChannelIdSpec(channel: string)
    requires Contains(channel, ChannelMarker)
    ensures var i := IndexOf(channel, ChannelMarker).value + |ChannelMarker|;
      var r := ExtractChannelId(channel);
      i + |r| <= |channel| && channel[i..i + |r|] == r &&
      !Contains(r, "/") && !Contains(r, ChannelMarker) &&
      (forall j :: i <= j < i + |r| ==> !OccursAt(channel, ChannelMarker, j)) &&
      (i + |r| == |channel| || channel[i + |r|] == '/' || OccursAt(channel, ChannelMarker, i + |r|))
  {
    var i := IndexOf(channel, ChannelMarker).value + |ChannelMarker|;
    var rest := channel[i..];
    var r := ExtractChannelId(channel);
    ExtractFromRest(channel);
    CutAtSlashOrMarker(rest);
    LiftCut(channel, i, r);
  }

  /** What holds of a prefix of `channel[i..]` holds of `channel` at offset `i`. */
  lemma LiftCut(channel: string, i: nat, r: string)
    requires i <= |channel|
    requires |r| <= |channel[i..]| && channel[i..][..|r|] == r
    requires |r| == |channel[i..]| || channel[i..][|r|] == '/' || OccursAt(channel[i..], ChannelMarker, |r|)
    requires forall j: nat :: j < |r| ==> !OccursAt(channel[i..], ChannelMarker, j)
    ensures i + |r| <= |channel| && channel[i..i + |r|] == r
    ensures i + |r| == |channel| || channel[i + |r|] == '/' || OccursAt(channel, ChannelMarker, i + |r|)
    ensures forall j :: i <= j < i + |r| ==> !OccursAt(channel, ChannelMarker, j)
  {
    var rest := channel[i..];
    forall j | i <= j < i + |r| && OccursAt(channel, ChannelMarker, j) ensures false {
      assert rest[j - i..j - i + |ChannelMarker|] == channel[j..j + |ChannelMarker|];
      assert OccursAt(rest, ChannelMarker, j - i);
    }
    assert channel[i..i + |r|] == rest[..|r|];
    if OccursAt(rest, ChannelMarker, |r|) {
      OccursInSuffix(channel, i, ChannelMarker, |r|);
    } else if |r| < |rest| {
      assert channel[i + |r|] == rest[|r|];
    }
  }

  lemma ExtractFromRest(channel: string)
    requires Contains(channel, ChannelMarker)
    ensures var i := IndexOf(channel, ChannelMarker).value + |ChannelMarker|;
      ExtractChannelId(channel) == Split(Split(channel[i..], ChannelMarker)[0], "/")[0]
  {
    SplitSecond(channel, ChannelMarker);
  }

  /** The head of the head: the prefix of `rest` before the first `/` or `channel/`. */
  lemma CutAtSlashOrMarker(rest: string)
    ensures var r := Split(Split(rest, ChannelMarker)[0], "/")[0];
      |r| <= |rest| && rest[..|r|] == r && !Contains(r, "/") && !Contains(r, ChannelMarker) &&
      (|r| == |rest| || rest[|r|] == '/' || OccursAt(rest, ChannelMarker, |r|)) &&
      forall j: nat :: j < |r| ==> !OccursAt(rest, ChannelMarker, j)
  {
    var piece := Split(rest, ChannelMarker)[0];
    SplitHead(rest, ChannelMarker);
    SplitHead(piece, "/");
    var r := Split(piece, "/")[0];
    assert piece[..|r|] == r;
    assert rest[..|r|] == r;
    assert !Contains(r, ChannelMarker) by {
      forall j | OccursAt(r, ChannelMarker, j) ensures false {
        OccursInPrefix(piece, |r|, ChannelMarker, j);
      }
    }
    if |r| < |piece| {
      assert piece[|r|..|r| + 1] == "/";
      assert rest[|r|] == piece[|r|];
    }
  }

  /** Where the video list comes from: nothing when no channel is set, fixed mock
      videos when no API key is configured, otherwise a search on a channel id. */
  datatype VideoSource = NoChannel | MockVideos | ChannelSearch(channelId: string)

  /** The channel id searched for: the extracted id for a `channel/` link, the
      handle lookup's first hit for an `@` handle (the text itself when it finds
      nothing), and the text itself otherwise. */
  function ResolveChannel(channel: string, handleLookup: Option<string>): (id: string)
    ensures Contains(channel, ChannelMarker) ==> id == ExtractChannelId(channel)
    ensures !Contains(channel, ChannelMarker) && Contains(channel, "@") ==> id == handleLookup.GetOr(channel)
    ensures !Contains(channel, ChannelMarker) && !Contains(channel, "@") ==> id == channel
  {
    if Contains(channel, ChannelMarker) then ExtractChannelId(channel)
    else if Contains(channel, "@") then handleLookup.GetOr(channel)
    else channel
  }

  /** `GET /api/youtube/videos` up to the outbound request. */
  function VideoSourceFor(users: seq<User>, uid: int, apiKeySet: bool, handleLookup: Option<string>): (r: VideoSource)
    ensures r == NoChannel <==>
      FindById(users, uid).None? || FindById(users, uid).value.youtubeChannel.GetOr("") == ""
    ensures r == MockVideos ==> !apiKeySet
    ensures r.ChannelSearch? ==> apiKeySet
    ensures r.ChannelSearch? ==>
      r.channelId == ResolveChannel(FindById(users, uid).value.youtubeChannel.value, handleLookup)
  {
    match FindById(users, uid)
    case None => NoChannel
    case Some(u) =>
      var channel := u.youtubeChannel.GetOr("");
      if channel == "" then NoChannel
      else if !apiKeySet then MockVideos
      else ChannelSearch(ResolveChannel(channel, handleLookup))
  }
}
