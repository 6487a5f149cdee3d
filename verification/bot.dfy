/**
 * The bot's module-level state and its handlers, as a class whose methods
 * update that state in place: `USERS`, `STATE`, the per-user "awaiting" flag,
 * the two saved JSON documents, the staging directory and the messages sent.
 * Each method's ensures give its whole new state; for the loop methods
 * (`DispatchFiles`, `RunPosts`, `RunStories`, `FetchInstagram`, `MenuFetch`)
 * it is the state the functions of module Sync describe.
 */
module Bot {
  import opened Wrappers
  import opened Sync
  import Username

  class InstaBot {
    var users: map<Uid, seq<Account>>
    var state: map<Account, Watermark>
    var awaiting: set<Uid>
    var saved: Persisted
    var staged: set<Path>
    var outbox: seq<Message>

    function World(): Io
      reads this
    {
      Io(staged, outbox)
    }

    /** Start-up: `USERS` and `STATE` are loaded from the saved documents (empty when absent). */
    constructor (disk: Persisted, leftovers: set<Path>)
      ensures users == disk.users && state == disk.state && saved == disk
      ensures awaiting == {} && staged == leftovers && outbox == []
    {
      users, state, saved := disk.users, disk.state, disk;
      awaiting, staged, outbox := {}, leftovers, [];
    }

    /** `save()`: both maps are written out whole. */
    method Save()
      modifies this`saved
      ensures saved == Persisted(users, state)
    {
      saved := Persisted(users, state);
    }

    /** `send_and_delete`: send the staged file, and only once that returns, remove it. */
    method SendAndDelete(path: Path, chat: Uid, failing: set<Path>) returns (ok: bool)
      modifies this`staged, this`outbox
      ensures Sent(World(), ok) == Sync.SendAndDelete(path, chat, failing, old(World()))
    {
      if path !in staged || path in failing {
        // open() or send_document raised: the file, if any, stays where it is
        return false;
      }
      outbox := outbox + [Document(chat, path)];
      staged := staged - {path};
      ok := true;
    }

    /** A download writes the item's files into the staging directory. */
    method Download(files: seq<Path>)
      modifies this`staged
      ensures World() == Stage(old(World()), files)
    {
      staged := staged + Files(files);
    }

    /** `for f in ...: await send_and_delete(f, chat_id, context)`, left by the first exception. */
    method DispatchFiles(files: seq<Path>, chat: Uid, failing: set<Path>) returns (ok: bool)
      modifies this`staged, this`outbox
      ensures Sent(World(), ok) == SendFiles(files, chat, failing, old(World()))
    {
      var i := 0;
      while i < |files|
        invariant 0 <= i <= |files|
        invariant SendFiles(files[i..], chat, failing, World()) == SendFiles(files, chat, failing, old(World()))
      {
        assert files[i..][1..] == files[i + 1..];
        ok := SendAndDelete(files[i], chat, failing);
        if !ok {
          return;
        }
        i := i + 1;
      }
      ok := true;
    }

    /**
     * `fetch_instagram(username, chat_id, context)`. `last` is the stored
     * record when the account is already in STATE, so each reassignment of
     * one of its fields is also a change of STATE.
     */
    method FetchInstagram(username: Account, chat: Uid, p: Provider) returns (outcome: Outcome)
      modifies this`state, this`staged, this`outbox, this`saved
      ensures var r := SyncPass(old(state), username, chat, p, old(World()));
              outcome == r.outcome && state == r.state && World() == r.io
      ensures saved == if outcome == Committed then Persisted(users, state) else old(saved)
    {
      var stored := username in state;
      var last := Last(state, username);
      if username !in p.profiles {
        outbox := outbox + [FetchFailed(chat, username)];
        return Unresolved;
      }
      var profile := p.profiles[username];

      var raised;
      last, raised := RunPosts(username, stored, last, profile.posts, chat, p.failing);
      if raised {
        return Raised;
      }
      if p.loggedIn {
        last := RunStories(username, stored, last, profile.stories, chat, p.failing);
      }
      state := state[username := last];
      Save();
      outcome := Committed;
    }

    /**
     * The post loop of `fetch_instagram` (its `for post in profile.get_posts()`),
     * on the record `last`; an exception raised by a send leaves it.
     */
    method RunPosts(username: Account, stored: bool, last0: Watermark, posts: seq<Item>, chat: Uid, failing: set<Path>)
      returns (last: Watermark, raised: bool)
      requires stored ==> username in state && state[username] == last0
      modifies this`staged, this`outbox, this`state
      ensures var w := PostLoop(posts, last0.post, chat, failing, old(World()));
              last == last0.(post := w.mark) && raised == w.raised && World() == w.io
      ensures state == if stored then old(state)[username := last] else old(state)
    {
      ghost var walk := PostLoop(posts, last0.post, chat, failing, World());
      last := last0;
      var i := 0;
      while i < |posts|
        invariant 0 <= i <= |posts|
        invariant var w := PostLoop(posts[i..], last.post, chat, failing, World());
                  w.mark == walk.mark && w.io == walk.io && w.raised == walk.raised
        invariant last.story == last0.story
        invariant state == if stored then old(state)[username := last] else old(state)
      {
        var post := posts[i];
        assert posts[i..][0] == post && posts[i..][1..] == posts[i + 1..];
        if !Newer(post.time, last.post) {
          break;
        }
        Download(post.files);
        var ok := DispatchFiles(post.files, chat, failing);
        if !ok {
          return last, true;
        }
        last := last.(post := Some(post.time));
        if stored {
          state := state[username := last];
        }
        i := i + 1;
      }
      assert i == |posts| ==> posts[i..] == [];
      raised := false;
    }

    /**
     * The story loops of `fetch_instagram`, run only when logged in: every
     * item of every story group; an exception raised by a send leaves both
     * loops and is swallowed.
     */
    method RunStories(username: Account, stored: bool, last0: Watermark, groups: seq<seq<Item>>, chat: Uid, failing: set<Path>)
      returns (last: Watermark)
      requires stored ==> username in state && state[username] == last0
      modifies this`staged, this`outbox, this`state
      ensures var w := StoryLoop(Flatten(groups), last0.story, chat, failing, old(World()));
              last == last0.(story := w.mark) && World() == w.io
      ensures state == if stored then old(state)[username := last] else old(state)
    {
      ghost var walk := StoryLoop(Flatten(groups), last0.story, chat, failing, World());
      last := last0;
      var g := 0;
      label storyLoop:
      while g < |groups|
        invariant 0 <= g <= |groups|
        invariant var w := StoryLoop(Flatten(groups[g..]), last.story, chat, failing, World());
                  w.mark == walk.mark && w.io == walk.io
        invariant last.post == last0.post
        invariant state == if stored then old(state)[username := last] else old(state)
      {
        assert Flatten(groups[g..]) == groups[g] + Flatten(groups[g + 1..]) by {
          assert groups[g..][0] == groups[g] && groups[g..][1..] == groups[g + 1..];
        }
        var items := groups[g];
        var j := 0;
        while j < |items|
          invariant 0 <= j <= |items|
          invariant var w := StoryLoop(items[j..] + Flatten(groups[g + 1..]), last.story, chat, failing, World());
                    w.mark == walk.mark && w.io == walk.io
          invariant last.post == last0.post
          invariant state == if stored then old(state)[username := last] else old(state)
        {
          var item := items[j];
          var rest := items[j..] + Flatten(groups[g + 1..]);
          assert rest[0] == item && rest[1..] == items[j + 1..] + Flatten(groups[g + 1..]);
          if !Newer(item.time, last.story) {
            j := j + 1;
            continue;
          }
          Download(item.files);
          var ok := DispatchFiles(item.files, chat, failing);
          if !ok {
            // swallowed by the `except: pass` around the loops
            break storyLoop;
          }
          last := last.(story := Some(item.time));
          if stored {
            state := state[username := last];
          }
          j := j + 1;
        }
        assert items[j..] + Flatten(groups[g + 1..]) == Flatten(groups[g + 1..]);
        g := g + 1;
      }
      assert g == |groups| ==> groups[g..] == [];
    }

    /** `start`: register the subscriber with an empty list unless already known, then save. */
    method Start(uid: Uid)
      modifies this`users, this`saved
      ensures users == if uid in old(users) then old(users) else old(users)[uid := []]
      ensures AccountsOf(users, uid) == AccountsOf(old(users), uid)
      ensures saved == Persisted(users, state)
    {
      if uid !in users {
        users := users[uid := []];
      }
      Save();
    }

    /** The menu's "add" button: the next text from this subscriber is an account name. */
    method MenuAdd(uid: Uid)
      modifies this`awaiting
      ensures awaiting == old(awaiting) + {uid}
    {
      awaiting := awaiting + {uid};
    }

    /** The menu's "list" button: the subscriber's accounts, in the order added. */
    method MenuList(uid: Uid) returns (accounts: seq<Account>)
      ensures accounts == AccountsOf(users, uid)
      ensures uid !in users ==> accounts == []
    {
      accounts := AccountsOf(users, uid);
    }

    /**
     * `add_account`: only while the subscriber is awaiting, append the
     * normalised name to their list (duplicates kept), save, clear the flag,
     * and confirm.
     */
    method AddAccount(uid: Uid, text: string)
      modifies this`users, this`saved, this`awaiting, this`outbox
      ensures uid !in old(awaiting) ==>
                users == old(users) && awaiting == old(awaiting) && saved == old(saved) && outbox == old(outbox)
      ensures uid in old(awaiting) ==>
                && users == old(users)[uid := AccountsOf(old(users), uid) + [Username.Normalize(text)]]
                && awaiting == old(awaiting) - {uid}
                && saved == Persisted(users, state)
                && outbox == old(outbox) + [Added(uid, Username.Normalize(text))]
    {
      if uid !in awaiting {
        return;
      }
      var name := Username.Normalize(text);
      var accounts := AccountsOf(users, uid);
      users := users[uid := accounts + [name]];
      Save();
      awaiting := awaiting - {uid};
      outbox := outbox + [Added(uid, name)];
    }

    /**
     * The menu's "fetch" button: a pass per account of the subscriber, in
     * list order, sending to the subscriber's chat. An exception out of a
     * pass ends the handler before the "done" edit.
     */
    method MenuFetch(uid: Uid, p: Provider) returns (completed: bool)
      modifies this`state, this`staged, this`outbox, this`saved
      ensures var r := FetchEach(AccountsOf(old(users), uid), old(users), old(state), old(saved), uid, p, old(World()));
              state == r.state && saved == r.saved && World() == r.io && completed == r.completed
    {
      var accounts := AccountsOf(users, uid);
      ghost var run := FetchEach(accounts, users, state, saved, uid, p, World());
      var i := 0;
      while i < |accounts|
        invariant 0 <= i <= |accounts|
        invariant FetchEach(accounts[i..], users, state, saved, uid, p, World()) == run
      {
        assert accounts[i..][0] == accounts[i] && accounts[i..][1..] == accounts[i + 1..];
        var outcome := FetchInstagram(accounts[i], uid, p);
        if outcome == Raised {
          return false;
        }
        i := i + 1;
      }
      completed := true;
    }
  }
}
