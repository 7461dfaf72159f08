/** The chat page: the context line built from the fetched notes, and the send
    handler, split at its `await` into the part that runs before the assistant
    answers and the part that runs after. */
module ChatPage {
  import opened Base
  import opened Text
  import opened Schema
  import opened Queries

  const RoleUserMessage := "user"
  const RoleAssistant := "assistant"
  const RecentLimit := 5

  datatype Message = Message(role: string, text: string, time: string)

  /** A message as the history sent to the assistant holds it. */
  datatype Turn = Turn(role: string, text: string)

  /** The body of one `POST /api/activities` request. */
  datatype ActivityPost = ActivityPost(action: string, details: string)

  /** How the first half of a send ends: ignored, refused with the limit alert,
      or started with the text sent and the history given to the assistant. */
  datatype SendStart = Ignored | LimitAlert | Started(text: string, history: seq<Turn>)

  // ---------------------------------------------------------------------------
  // The context line

  /** The titles of at most the first five notes; a null title joins as empty text. */
  function RecentTitles(notes: seq<Note>): (r: seq<string>)
    ensures |r| == if |notes| < RecentLimit then |notes| else RecentLimit
    ensures forall i :: 0 <= i < |r| ==> r[i] == notes[i].title.GetOr("")
  {
    var k := if |notes| < RecentLimit then |notes| else RecentLimit;
    seq(k, i requires 0 <= i < k => notes[i].title.GetOr(""))
  }

  /** `User has ${notes.length} notes. Recent topics: ${titles.join(', ')}`. */
  function ContextLine(notes: seq<Note>): string {
    "User has " + NatToString(|notes|) + " notes. Recent topics: " + Join(RecentTitles(notes), ", ")
  }

  /** The line depends on the notes only through their number and the titles of
      the first five. */
  lemma ContextLineSeesFirstFive(a: seq<Note>, b: seq<Note>)
    requires |a| == |b|
    requires forall i :: 0 <= i < |a| && i < RecentLimit ==> a[i].title == b[i].title
    ensures ContextLine(a) == ContextLine(b)
  {
    assert RecentTitles(a) == RecentTitles(b);
  }

  /** The note count can be read back from the line. */
  lemma ContextLineCount(notes: seq<Note>)
    ensures var digits := NatToString(|notes|);
      ContextLine(notes)[|"User has "|..|"User has "| + |digits|] == digits &&
      ParseNat(digits) == |notes|
  {
    ParseNatToString(|notes|);
  }

  // ---------------------------------------------------------------------------
  // The rules the send handler applies

  /** `overrideInput || input`: an empty override counts as none. */
  function TextToSend(overrideInput: string, input: string): (t: string)
    ensures overrideInput != "" ==> t == overrideInput
    ensures overrideInput == "" ==> t == input
  {
    if overrideInput != "" then overrideInput else input
  }

  predicate IsFree(user: Option<Account>) {
    user.Some? && user.value.plan == Some(PlanFree)
  }

  /** `user?.plan === 'Free' && user?.ai_usage_count >= 10`; a missing count is
      never at the limit. */
  predicate OverFreeLimit(user: Option<Account>) {
    IsFree(user) && user.value.aiUsageCount.Some? && user.value.aiUsageCount.value >= FreeAiLimit
  }

  /** Only a Free user is ever refused on count, and only from ten messages on. */
  lemma OnlyFreeUsersLimited(user: Option<Account>)
    ensures OverFreeLimit(user) ==> user.value.plan == Some(PlanFree)
    ensures user.Some? && user.value.plan != Some(PlanFree) ==> !OverFreeLimit(user)
    ensures IsFree(user) && user.value.aiUsageCount.GetOr(0) < FreeAiLimit ==> !OverFreeLimit(user)
  {
  }

  /** `{ ...user, ai_usage_count: (user.ai_usage_count || 0) + 1 }`. */
  function Bumped(u: Account): (v: Account)
    ensures v.aiUsageCount == Some(u.aiUsageCount.GetOr(0) + 1)
    ensures v.(aiUsageCount := u.aiUsageCount) == u
  {
    u.(aiUsageCount := Some(u.aiUsageCount.GetOr(0) + 1))
  }

  /** `messages.map(m => ({ role: m.role, text: m.text }))`. */
  function History(messages: seq<Message>): (h: seq<Turn>)
    ensures |h| == |messages|
    ensures forall i :: 0 <= i < |h| ==> h[i] == Turn(messages[i].role, messages[i].text)
  {
    seq(|messages|, i requires 0 <= i < |messages| => Turn(messages[i].role, messages[i].text))
  }

  /** The chat page's state. `user` is the page's property, which the page
      never changes; `storedUser` is the `user` entry of local storage; `posted`
      lists the activity requests sent. */
  class ChatSession {
    var user: Option<Account>
    var messages: seq<Message>
    var input: string
    var loading: bool
    var context: string
    var storedUser: Option<Account>
    var posted: seq<ActivityPost>

    /** A fresh page: the greeting alone, an empty input box, nothing loading. */
    constructor (user: Option<Account>, storedUser: Option<Account>, greeting: string, time: string)
      ensures this.user == user && this.storedUser == storedUser
      ensures messages == [Message(RoleAssistant, greeting, time)]
      ensures input == "" && !loading && context == "" && posted == []
    {
      this.user := user;
      this.storedUser := storedUser;
      messages := [Message(RoleAssistant, greeting, time)];
      input, loading, context, posted := "", false, "", [];
    }

    /** The context effect, once the notes have arrived. */
    method LoadContext(notes: seq<Note>)
      modifies this
      ensures context == ContextLine(notes)
      ensures user == old(user) && messages == old(messages) && input == old(input)
      ensures loading == old(loading) && storedUser == old(storedUser) && posted == old(posted)
    {
      context := ContextLine(notes);
    }

    /** Typing into the input box. */
    method Type(text: string)
      modifies this
      ensures input == text
      ensures user == old(user) && messages == old(messages) && context == old(context)
      ensures loading == old(loading) && storedUser == old(storedUser) && posted == old(posted)
    {
      input := text;
    }

    /** `handleSend` up to the assistant call. Ignored when the text is blank or a
        send is in progress, refused when the page's user is over the Free limit;
        otherwise the user message is appended, the box cleared, and the history
        as it was before the new message goes to the assistant. */
    method BeginSend(overrideInput: string, time: string) returns (r: SendStart)
      modifies this
      ensures var text := TextToSend(overrideInput, old(input));
        r.Started? <==> Trim(text) != "" && !old(loading) && !OverFreeLimit(user)
      ensures r == Ignored <==> Trim(TextToSend(overrideInput, old(input))) == "" || old(loading)
      ensures !r.Started? ==> unchanged(this)
      ensures r.Started? ==>
        r.text == TextToSend(overrideInput, old(input)) && r.history == History(old(messages)) &&
        messages == old(messages) + [Message(RoleUserMessage, r.text, time)] &&
        input == "" && loading &&
        user == old(user) && context == old(context) && storedUser == old(storedUser) && posted == old(posted)
    {
      var text := TextToSend(overrideInput, input);
      if Trim(text) == "" || loading {
        return Ignored;
      }
      if OverFreeLimit(user) {
        return LimitAlert;
      }
      r := Started(text, History(messages));
      messages := messages + [Message(RoleUserMessage, text, time)];
      input := "";
      loading := true;
    }

    /** `handleSend` after the assistant answered, as written: the reply is
        appended, the stored user gets the raised count when the page's user is
        Free, the activity is posted, and loading ends. The page's `user`, which
        the limit check reads, keeps its old count. */
    method FinishSend(text: string, reply: string, time: string)
      requires loading
      modifies this
      ensures messages == old(messages) + [Message(RoleAssistant, reply, time)]
      ensures storedUser == if IsFree(old(user)) then Some(Bumped(old(user).value)) else old(storedUser)
      ensures posted == old(posted) + [ActivityPost(AiChatAction, text)]
      ensures !loading
      ensures user == old(user) && input == old(input) && context == old(context)
    {
      messages := messages + [Message(RoleAssistant, reply, time)];
      if IsFree(user) {
        storedUser := Some(Bumped(user.value));
      }
      posted := posted + [ActivityPost(AiChatAction, text)];
      loading := false;
    }

    /** `handleSend` when the activity request rejects. The assistant call
        cannot fail here: on an error it answers with an apology, which is then
        the `reply`. So the reply is appended and the stored count is raised as
        in `FinishSend`; the rejected request is lost, the error is swallowed,
        and loading ends. */
    method FinishSendUnposted(reply: string, time: string)
      requires loading
      modifies this
      ensures messages == old(messages) + [Message(RoleAssistant, reply, time)]
      ensures storedUser == if IsFree(old(user)) then Some(Bumped(old(user).value)) else old(storedUser)
      ensures posted == old(posted)
      ensures !loading
      ensures user == old(user) && input == old(input) && context == old(context)
    {
      messages := messages + [Message(RoleAssistant, reply, time)];
      if IsFree(user) {
        storedUser := Some(Bumped(user.value));
      }
      loading := false;
    }

    /** `handleSend` after the assistant answered, with the raised count also
        given to the page's user, so that the next limit check sees it. */
    method FinishSendCounted(text: string, reply: string, time: string)
      requires loading
      modifies this
      ensures messages == old(messages) + [Message(RoleAssistant, reply, time)]
      ensures user == if IsFree(old(user)) then Some(Bumped(old(user).value)) else old(user)
      ensures storedUser == if IsFree(old(user)) then user else old(storedUser)
      ensures posted == old(posted) + [ActivityPost(AiChatAction, text)]
      ensures !loading
      ensures input == old(input) && context == old(context)
    {
      messages := messages + [Message(RoleAssistant, reply, time)];
      if IsFree(user) {
        user := Some(Bumped(user.value));
        storedUser := user;
      }
      posted := posted + [ActivityPost(AiChatAction, text)];
      loading := false;
    }
  }

  /** One complete send as written, once the assistant has answered: accepted
      exactly when the page's user is not over the limit, and the page's user
      is left as it was either way. */
  method SendOnce(page: ChatSession, text: string, reply: string) returns (started: bool)
    requires !page.loading && Trim(text) != ""
    modifies page
    ensures !page.loading
    ensures started <==> !OverFreeLimit(old(page.user))
    ensures page.user == old(page.user)
  {
    var start := page.BeginSend(text, "");
    started := start.Started?;
    if started {
      page.FinishSend(start.text, reply, "");
    }
  }

  /** A complete send as written, repeated `n` times on one page by a Free user
      who starts at zero: every one is accepted, however large `n` is. */
  method SendRepeatedly(u: Account, text: string, n: nat) returns (accepted: nat)
    requires u.plan == Some(PlanFree) && u.aiUsageCount == Some(0)
    requires Trim(text) != ""
    ensures accepted == n
  {
    var page := new ChatSession(Some(u), Some(u), "", "");
    accepted := 0;
    var k := 0;
    while k < n
      invariant 0 <= k <= n && accepted == k
      invariant page.user == Some(u) && !page.loading
    {
      var started := SendOnce(page, text, "");
      if started {
        accepted := accepted + 1;
      }
      k := k + 1;
    }
  }

  /** A Free user who has sent `m` messages is refused exactly from ten on, and
      one more send raises the count to `m + 1`. */
  lemma FreeUserAt(u: Account, m: nat)
    requires u.plan == Some(PlanFree)
    ensures OverFreeLimit(Some(u.(aiUsageCount := Some(m)))) <==> m >= FreeAiLimit
    ensures IsFree(Some(u.(aiUsageCount := Some(m))))
    ensures Bumped(u.(aiUsageCount := Some(m))) == u.(aiUsageCount := Some(m + 1))
  {
  }

  /** How many of `k` sends the ten-message limit lets through for a Free user
      who has already sent `c`. */
  function Granted(c: nat, k: nat): (g: nat)
    ensures g <= k
    ensures g == k || c + g >= FreeAiLimit
    ensures c + g <= FreeAiLimit || g == 0
  {
    if c >= FreeAiLimit then 0 else if k < FreeAiLimit - c then k else FreeAiLimit - c
  }

  lemma GrantedStep(c: nat, k: nat)
    ensures Granted(c, k + 1) == Granted(c, k) + (if c + Granted(c, k) < FreeAiLimit then 1 else 0)
  {
  }

  /** One complete send with the count carried to the page's user, by a Free
      user, once the assistant has answered: accepted exactly below ten messages,
      and then the page's user has the count raised by one. */
  method SendOnceCounted(page: ChatSession, text: string, reply: string) returns (started: bool)
    requires !page.loading && Trim(text) != ""
    requires IsFree(page.user) && page.user.value.aiUsageCount.Some?
    modifies page
    ensures !page.loading
    ensures started <==> old(page.user.value.aiUsageCount.value) < FreeAiLimit
    ensures page.user == if started then Some(Bumped(old(page.user.value))) else old(page.user)
  {
    var start := page.BeginSend(text, "");
    started := start.Started?;
    if started {
      page.FinishSendCounted(start.text, reply, "");
    }
  }

  /** The same run with the count carried to the page's user: a Free user who
      has sent `c` messages gets exactly the remaining ones up to ten accepted,
      and a user already at ten gets none. */
  method SendRepeatedlyCounted(u: Account, text: string, c: nat, n: nat) returns (accepted: nat)
    requires u.plan == Some(PlanFree) && u.aiUsageCount == Some(c)
    requires Trim(text) != ""
    ensures accepted == Granted(c, n)
  {
    var page := new ChatSession(Some(u), Some(u), "", "");
    accepted := 0;
    var k := 0;
    var current := u;
    while k < n
      invariant 0 <= k <= n && accepted == Granted(c, k)
      invariant current.plan == Some(PlanFree) && current.aiUsageCount == Some(c + accepted)
      invariant page.user == Some(current) && !page.loading
    {
      GrantedStep(c, k);
      var started := SendOnceCounted(page, text, "");
      if started {
        current := Bumped(current);
        accepted := accepted + 1;
      }
      k := k + 1;
    }
  }
}
