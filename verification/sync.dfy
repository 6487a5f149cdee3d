/**
 * The watermark-driven sync pass of the Instagram relay bot, as functions on
 * values. The bot's in-place methods (module Bot) are proved to compute
 * exactly these functions; the properties of the pass are proved about them
 * (module SyncProps).
 *
 * The content provider is input data: the profiles that resolve, their posts
 * newest-first and their story groups, whether the session is logged in, and
 * the set of staged files whose upload raises.
 */
module Sync {
  import opened Wrappers

  type Account = string
  type Uid = string
  type Path = string

  /** A post or story time; the ISO-8601 text stored in STATE stands for it one to one. */
  type Time = int

  /** The record `{"post": ..., "story": ...}` kept in STATE per watched account. */
  datatype Watermark = Watermark(post: Option<Time>, story: Option<Time>)

  /** `STATE.get(username, {"post": None, "story": None})` */
  function Last(state: map<Account, Watermark>, account: Account): Watermark {
    if account in state then state[account] else Watermark(None, None)
  }

  /**
   * The test the loops apply before dispatching an item: an item passes when
   * there is no watermark yet or when it is strictly newer than the watermark.
   */
  predicate Newer(t: Time, mark: Option<Time>) {
    mark.None? || t > mark.value
  }

  /** Order on watermarks, with "never synchronised" below every time. */
  predicate AtMost(a: Option<Time>, b: Option<Time>) {
    a.None? || (b.Some? && a.value <= b.value)
  }

  /** A post or a story item with the files its download stages. */
  datatype Item = Item(time: Time, files: seq<Path>)

  /** What `Profile.from_username` resolves to: posts newest first, story groups. */
  datatype Profile = Profile(posts: seq<Item>, stories: seq<seq<Item>>)

  /**
   * The provider and the messaging endpoint during one pass: an account
   * missing from `profiles` does not resolve; `failing` holds the staged files
   * whose `send_document` raises.
   */
  datatype Provider = Provider(profiles: map<Account, Profile>, loggedIn: bool, failing: set<Path>)

  /** What the bot sends to a chat. */
  datatype Message =
    | Document(chat: Uid, path: Path)
    | FetchFailed(chat: Uid, account: Account)
    | Added(chat: Uid, account: Account)

  /** The bot's effects outside its maps: the staged files on disk and the messages sent. */
  datatype Io = Io(staged: set<Path>, outbox: seq<Message>)

  function Files(files: seq<Path>): set<Path> {
    set f | f in files
  }

  /** A download writes the item's files into the staging directory. */
  function Stage(io: Io, files: seq<Path>): Io {
    io.(staged := io.staged + Files(files))
  }

  /** The documents that sending `files` in order to `chat` produces. */
  function Docs(chat: Uid, files: seq<Path>): seq<Message> {
    if files == [] then [] else [Document(chat, files[0])] + Docs(chat, files[1..])
  }

  /** No path listed twice. */
  predicate Distinct(files: seq<Path>) {
    forall i, j :: 0 <= i < j < |files| ==> files[i] != files[j]
  }

  datatype Sent = Sent(io: Io, ok: bool)

  /**
   * `send_and_delete`: opening a file that is not staged raises, and so does
   * a send that fails; only after a send returns is the file removed.
   */
  function SendAndDelete(path: Path, chat: Uid, failing: set<Path>, io: Io): Sent {
    if path in io.staged && path !in failing
    then Sent(Io(io.staged - {path}, io.outbox + [Document(chat, path)]), true)
    else Sent(io, false)
  }

  /**
   * The inner `for f in ...: await send_and_delete(f, ...)` loop: files are
   * sent in order and the first exception ends it. Sent messages are never
   * taken back and nothing is staged by sending.
   */
  function SendFiles(files: seq<Path>, chat: Uid, failing: set<Path>, io: Io): (r: Sent)
    ensures io.outbox <= r.io.outbox
    ensures r.io.staged <= io.staged
    decreases |files|
  {
    if files == [] then Sent(io, true)
    else
      var s := SendAndDelete(files[0], chat, failing, io);
      if !s.ok then s
      else
        SendFiles(files[1..], chat, failing, s.io)
  }

  /**
   * The state a loop ends in: the watermark it leaves, the effects, whether an
   * exception left the loop, and the times of the items it dispatched, in
   * order (the item whose send raised included).
   */
  datatype Walk = Walk(mark: Option<Time>, io: Io, raised: bool, taken: seq<Time>)

  /**
   * The post loop: newest first, stop at the first post not strictly newer than
   * the watermark in force, which each dispatched post reassigns to its own time.
   * A failing send raises out of the loop before the watermark is reassigned.
   */
  function PostLoop(posts: seq<Item>, mark: Option<Time>, chat: Uid, failing: set<Path>, io: Io): Walk
    decreases |posts|
  {
    if posts == [] || !Newer(posts[0].time, mark) then Walk(mark, io, false, [])
    else
      var s := SendFiles(posts[0].files, chat, failing, Stage(io, posts[0].files));
      if !s.ok then Walk(mark, s.io, true, [posts[0].time])
      else
        var rest := PostLoop(posts[1..], Some(posts[0].time), chat, failing, s.io);
        rest.(taken := [posts[0].time] + rest.taken)
  }

  /**
   * The story loop over every item of every story group: items not strictly
   * newer than the watermark in force are skipped, not a stop; a failing send
   * raises out of the loop before the watermark is reassigned.
   */
  function StoryLoop(items: seq<Item>, mark: Option<Time>, chat: Uid, failing: set<Path>, io: Io): Walk
    decreases |items|
  {
    if items == [] then Walk(mark, io, false, [])
    else if !Newer(items[0].time, mark) then StoryLoop(items[1..], mark, chat, failing, io)
    else
      var s := SendFiles(items[0].files, chat, failing, Stage(io, items[0].files));
      if !s.ok then Walk(mark, s.io, true, [items[0].time])
      else
        var rest := StoryLoop(items[1..], Some(items[0].time), chat, failing, s.io);
        rest.(taken := [items[0].time] + rest.taken)
  }

  /** The items of all story groups, group by group. */
  function Flatten(groups: seq<seq<Item>>): seq<Item> {
    if groups == [] then [] else groups[0] + Flatten(groups[1..])
  }

  /** How `fetch_instagram` ends. */
  datatype Outcome =
    | Unresolved  // the profile did not resolve: one error message, nothing else
    | Committed   // the record was written back to STATE and saved
    | Raised      // a send in the post loop raised out of the call

  datatype PassResult = PassResult(state: map<Account, Watermark>, io: Io, outcome: Outcome)

  /** The story part of a pass: skipped when not logged in, its exception swallowed. */
  function StoryPart(profile: Profile, mark: Option<Time>, chat: Uid, p: Provider, io: Io): Walk {
    if p.loggedIn then StoryLoop(Flatten(profile.stories), mark, chat, p.failing, io)
    else Walk(mark, io, false, [])
  }

  /**
   * One `fetch_instagram(username, chat_id, ...)` call on the in-memory STATE.
   * When the account is already in STATE the record being updated is the
   * stored one, so an exception out of the post loop leaves the advanced post
   * watermark in STATE (unsaved); a fresh record is lost with the exception.
   */
  function SyncPass(state: map<Account, Watermark>, username: Account, chat: Uid, p: Provider, io: Io): PassResult {
    if username !in p.profiles then
      PassResult(state, io.(outbox := io.outbox + [FetchFailed(chat, username)]), Unresolved)
    else
      var profile := p.profiles[username];
      var last := Last(state, username);
      var posts := PostLoop(profile.posts, last.post, chat, p.failing, io);
      if posts.raised then
        PassResult(if username in state then state[username := last.(post := posts.mark)] else state, posts.io, Raised)
      else
        var stories := StoryPart(profile, last.story, chat, p, posts.io);
        PassResult(state[username := Watermark(posts.mark, stories.mark)], stories.io, Committed)
  }

  /** The two JSON documents `save()` writes. */
  datatype Persisted = Persisted(users: map<Uid, seq<Account>>, state: map<Account, Watermark>)

  /** `USERS.get(uid, [])` */
  function AccountsOf(users: map<Uid, seq<Account>>, uid: Uid): seq<Account> {
    if uid in users then users[uid] else []
  }

  datatype Run = Run(state: map<Account, Watermark>, saved: Persisted, io: Io, completed: bool)

  /**
   * The "fetch" button: a pass per account, in list order, each committed pass
   * saving; an exception out of a pass ends the handler, so later accounts are
   * not visited.
   */
  function FetchEach(accounts: seq<Account>, users: map<Uid, seq<Account>>, state: map<Account, Watermark>,
                     saved: Persisted, chat: Uid, p: Provider, io: Io): Run
    decreases |accounts|
  {
    if accounts == [] then Run(state, saved, io, true)
    else
      var pass := SyncPass(state, accounts[0], chat, p, io);
      if pass.outcome == Raised then Run(pass.state, saved, pass.io, false)
      else
        var saved' := if pass.outcome == Committed then Persisted(users, pass.state) else saved;
        FetchEach(accounts[1..], users, pass.state, saved', chat, p, pass.io)
  }
}
