/** The YouTube hub: fetching the channel's videos, saving the channel link,
    the subscribe link and the note a shared video becomes. */
module YouTubePage {
  import opened Base
  import opened Text
  import opened Schema
  import opened Queries

  datatype Video = Video(title: string, url: string)

  /** What the video request brings back: a JSON body with an optional `error`
      and optional `videos`, or a failure carrying its message. */
  datatype FetchResult =
    | Body(error: Option<string>, videos: Option<seq<Video>>)
    | Failed(message: string)

  const FetchFallback := "Failed to fetch videos"
  const ChannelUrlPrefix := "https://youtube.com/channel/"

  /** The body of the profile update the channel form sends: the current user's
      fields with the new channel. */
  datatype ProfileBody = ProfileBody(name: Option<string>, bio: Option<string>,
                                     photo: Option<string>, channel: Option<string>)

  /** `user?.youtube_channel` is a non-empty string. */
  predicate HasChannel(u: Account) {
    u.youtubeChannel.Some? && u.youtubeChannel.value != ""
  }

  /** The subscribe link: the channel text itself when it starts with `http`,
      otherwise the channel URL built on it. */
  function SubscribeLink(channel: string): (link: string)
    ensures StartsWith(channel, "http") ==> link == channel
    ensures !StartsWith(channel, "http") ==> link == ChannelUrlPrefix + channel
  {
    if StartsWith(channel, "http") then channel else ChannelUrlPrefix + channel
  }

  /** A bare channel id survives the round trip through the subscribe link and
      the server's extraction. */
  lemma SubscribeLinkRoundTrip(id: string)
    requires !StartsWith(id, "http") && !Contains(id, "/")
    ensures Contains(SubscribeLink(id), ChannelMarker)
    ensures ExtractChannelId(SubscribeLink(id)) == id
  {
    var link := ChannelUrlPrefix + id;
    var at := |"https://youtube.com/"|;
    PrefixMarkerPosition();
    assert link[..|ChannelUrlPrefix|] == ChannelUrlPrefix;
    assert OccursAt(link, ChannelMarker, at) by {
      assert link[at..at + |ChannelMarker|] == ChannelUrlPrefix[at..at + |ChannelMarker|];
    }
    forall j | 0 <= j < at ensures !OccursAt(link, ChannelMarker, j) {
      assert !OccursAt(ChannelUrlPrefix, ChannelMarker, j);
      assert link[j..j + |ChannelMarker|] == ChannelUrlPrefix[j..j + |ChannelMarker|];
    }
    assert IndexOf(link, ChannelMarker) == Some(at);
    ExtractChannelIdSpec(link);
    var r := ExtractChannelId(link);
    var i := at + |ChannelMarker|;
    assert link[i..] == id;
    if i + |r| < |link| {
      var k := if link[i + |r|] == '/' then |r| else |r| + 7;
      if link[i + |r|] != '/' {
        SlashEndsMarker(link, i + |r|);
      }
      assert link[i + k..i + k + 1] == id[k..k + 1] == "/";
      assert OccursAt(id, "/", k);
      assert false;
    }
  }

  lemma CharsOfMarker(s: string, k: nat)
    requires OccursAt(s, ChannelMarker, k)
    ensures s[k] == 'c' && s[k + 1] == 'h'
  {
    assert s[k..k + |ChannelMarker|][0] == ChannelMarker[0];
    assert s[k..k + |ChannelMarker|][1] == ChannelMarker[1];
  }

  lemma SlashEndsMarker(s: string, k: nat)
    requires OccursAt(s, ChannelMarker, k)
    ensures s[k + 7] == '/'
  {
    assert s[k..k + |ChannelMarker|][7] == ChannelMarker[7];
  }

  /** Where `channel/` sits in the channel URL prefix: right after the host, and
      nowhere before it. */
  lemma PrefixMarkerPosition()
    ensures var at := |"https://youtube.com/"|;
      at + |ChannelMarker| == |ChannelUrlPrefix| &&
      OccursAt(ChannelUrlPrefix, ChannelMarker, at) &&
      forall j :: 0 <= j < at ==> !OccursAt(ChannelUrlPrefix, ChannelMarker, j)
  {
    var at := |"https://youtube.com/"|;
    forall j | 0 <= j < at ensures !OccursAt(ChannelUrlPrefix, ChannelMarker, j) {
      if OccursAt(ChannelUrlPrefix, ChannelMarker, j) {
        CharsOfMarker(ChannelUrlPrefix, j);
        assert false;
      }
    }
  }

  /** The note a shared video becomes, as the server stores it: titled and
      worded after the video, of type `note`, not secret, without a password. */
  function SharedNote(v: Video, id: int, uid: int, now: int): (n: Note)
    ensures n.title == Some("Shared Video: " + v.title)
    ensures n.content == Some("Check out this video: " + v.url)
    ensures n.kind == "note" && n.isSecret == 0 && n.password.None?
    ensures n.userId == uid
  {
    NoteRow(id, uid, Some("Shared Video: " + v.title), Some("Check out this video: " + v.url),
            false, None, Some("note"), now)
  }

  /** The hub's state: the signed-in user (the page is only reachable with
      one), the local-storage copy, the channel text box, the video list and
      the error line. */
  class YouTubeView {
    var user: Account
    var storedUser: Option<Account>
    var channelLink: string
    var videos: seq<Video>
    var error: string
    var loading: bool
    var success: bool

    constructor (user: Account, storedUser: Option<Account>)
      ensures this.user == user && this.storedUser == storedUser
      ensures channelLink == user.youtubeChannel.GetOr("")
      ensures videos == [] && error == "" && !loading && !success
    {
      this.user := user;
      this.storedUser := storedUser;
      channelLink := user.youtubeChannel.GetOr("");
      videos, error, loading, success := [], "", false, false;
    }

    /** `fetchVideos`. Nothing at all without a channel. Otherwise a body with a
        non-empty `error` shows that error and keeps the old videos; any other
        body replaces the videos (none listed means an empty list); a failed
        request shows its message, or the fallback when it has none. */
    method FetchVideos(result: FetchResult)
      modifies this
      ensures !HasChannel(old(user)) ==> unchanged(this)
      ensures HasChannel(old(user)) ==> !loading
      ensures HasChannel(old(user)) ==> (
        match result
        case Body(err, vs) =>
          if err.Some? && err.value != "" then error == err.value && videos == old(videos)
          else error == "" && videos == vs.GetOr([])
        case Failed(message) =>
          videos == old(videos) && error == (if message != "" then message else FetchFallback))
      ensures user == old(user) && storedUser == old(storedUser) && channelLink == old(channelLink)
      ensures success == old(success)
    {
      if !HasChannel(user) {
        return;
      }
      loading := true;
      error := "";
      match result {
        case Body(err, vs) =>
          if err.Some? && err.value != "" {
            error := err.value;
          } else {
            videos := vs.GetOr([]);
          }
        case Failed(message) =>
          error := if message != "" then message else FetchFallback;
      }
      loading := false;
    }

    /** Typing into the channel box. */
    method EditChannel(text: string)
      modifies this
      ensures channelLink == text
      ensures user == old(user) && storedUser == old(storedUser) && videos == old(videos)
      ensures error == old(error) && loading == old(loading) && success == old(success)
    {
      channelLink := text;
    }

    /** `handleSaveChannel`: sends the user's profile fields with the new
        channel; on success the user record, here and in local storage, differs
        from the old one only in its channel. */
    method SaveChannel(ok: bool) returns (body: ProfileBody)
      modifies this
      ensures body == ProfileBody(old(user).name, old(user).bio, old(user).profilePhoto, Some(old(channelLink)))
      ensures ok ==> user == old(user).(youtubeChannel := Some(old(channelLink))) && storedUser == Some(user) && success
      ensures !ok ==> user == old(user) && storedUser == old(storedUser) && success == false
      ensures channelLink == old(channelLink) && videos == old(videos) && error == old(error)
      ensures loading == old(loading)
    {
      success := false;
      body := ProfileBody(user.name, user.bio, user.profilePhoto, Some(channelLink));
      if ok {
        user := user.(youtubeChannel := Some(channelLink));
        storedUser := Some(user);
        success := true;
      }
    }
  }

  /** The saved body, applied by the server's profile update, leaves every other
      column of the caller's row as it was before, when the page's user matched
      the row. */
  lemma SaveChannelKeepsProfile(users: seq<User>, uid: int, u: Account, link: string)
    requires forall i :: 0 <= i < |users| && users[i].id == uid ==>
      users[i].name == u.name && users[i].bio == u.bio && users[i].profilePhoto == u.profilePhoto
    ensures var r := SetProfile(users, uid, u.name, u.bio, u.profilePhoto, Some(link));
      forall i :: 0 <= i < |users| ==>
        r[i] == if users[i].id == uid then users[i].(youtubeChannel := Some(link)) else users[i]
  {
    var r := SetProfile(users, uid, u.name, u.bio, u.profilePhoto, Some(link));
    forall i | 0 <= i < |users| && users[i].id == uid
      ensures r[i] == users[i].(youtubeChannel := Some(link))
    {
      assert r[i].(name := users[i].name, bio := users[i].bio, profilePhoto := users[i].profilePhoto,
                   youtubeChannel := users[i].youtubeChannel) == users[i];
    }
  }
}
