# Instagram relay bot: the watermark-driven sync pass, in Dafny

The Telegram bot in `telegram_instabot.py` watches Instagram accounts for its
subscribers. Each subscriber keeps a list of account names. Pressing "fetch"
runs `fetch_instagram` once per account, in list order. That function reads the
account's watermark record `{post, story}` from `STATE`. It then walks the
account's posts newest first, downloads each new one into a staging directory,
sends every staged file to the subscriber and deletes the file
(`send_and_delete`). When the session is logged in, it does the same for every
story item. Finally it writes the record back to `STATE` and saves both JSON
documents.

This project models that core:

- `wrappers.dfy` (module `Wrappers`): `Option`, which stands for Python's `None`.
- `username.dfy` (module `Username`): `text.strip().replace("@", "")` as pure
  functions, with Python's whitespace set.
- `sync.dfy` (module `Sync`): the pass as functions on values.
  - `SendFiles` is the inner send loop.
  - `PostLoop` and `StoryLoop` are the two loops. Each returns the watermark
    it leaves, the effects, whether an exception left it, and the times of the
    items it dispatched.
  - `SyncPass` is one `fetch_instagram` call. `FetchEach` is the menu's
    "fetch" loop.
- `sync_props.dfy` (module `SyncProps`): what is proved about those functions.
- `bot.dfy` (module `Bot`): the class `InstaBot`. Its fields are `USERS`,
  `STATE`, the per-user "awaiting" flag, the saved snapshot, the staging
  directory and the messages sent. Its methods run the source's loops in place.
  Each method's ensures give its whole new state. For the loop methods
  (`DispatchFiles`, `RunPosts`, `RunStories`, `FetchInstagram`, `MenuFetch`)
  that state is the one the `Sync` functions describe.

Modelling choices:

- The provider is input data (`Sync.Provider`):
  - the profiles that resolve (an account missing from the map makes
    `Profile.from_username` raise);
  - each profile's posts (newest first) and story groups, each item with a
    time and the files its download stages;
  - whether the session is logged in;
  - the set of staged files whose `send_document` raises.
- Timestamps are integers. The ISO-8601 text written by `isoformat` and read
  back by `fromisoformat` stands for the time one to one, so comparing texts
  read back is comparing times.
- `STATE.get` at line 117 returns the stored dict when the account is known.
  So every reassignment of `last["post"]` or `last["story"]` is also a change of
  `STATE`. The model writes each such change through to `state`. As a result,
  after an exception in the post loop the in-memory record of an account
  already in `STATE` holds the time of the last post whose files were all
  sent. The pass itself saves nothing, so the saved watermark does not move
  then. The next `save()` by any handler (`start` at line 66, `add_account` at
  line 109, a later committed pass at line 154) writes the whole of `STATE`
  and so persists that record (`PostFailureRaises`, `FailedLaterPostScenario`).
  For an account not yet in `STATE`, the fresh record is lost with the
  exception.
- Opening a file that is no longer staged raises, just as a failing send does.
  So a file listed twice in one item is sent once, and its second open ends
  the loop.

Consequences of the code as written:

- The post watermark is reassigned inside the loop and tested again on the
  next post. With posts strictly newest first, a pass therefore dispatches at
  most one post (`NewestFirstDispatchesAtMostOne`). With a post watermark of 1
  and posts at 3, 2, 1, only the post at 3 goes out, not the posts at 3 and 2,
  and the watermark becomes 3 (`NewestFirstScenario`).
- A failing send in the post loop is not caught. It raises out of
  `fetch_instagram` and out of the menu handler. The pass commits and saves
  nothing, and later accounts are not visited (`FailedNewestScenario`,
  `PostFailureRaises`, `FetchEach`). For an account already in `STATE` the
  in-memory record has still advanced to the last post fully sent, as above.
- The staged file of a failing send is not deleted, because the removal
  follows the send (`SendFailureKeepsFile`).
- The story loop skips stale items instead of stopping, and it compares each
  item with the watermark in force. So it sends exactly the items newer than
  the starting watermark and than every item before them
  (`StoryLoopDispatchesRecords`). With no story watermark and items at 5, 3, 7,
  the items at 5 and 7 go out (`StoryRecordsScenario`).

## Model

| member | source | states |
|---|---|---|
| `Username.Strip` | telegram_instabot.py:107 | `strip()` returns a slice `text[i..j]` with only whitespace outside it and none at either end of the result |
| `Username.RemoveAll` | telegram_instabot.py:107 | `replace("@", "")` leaves no `@`, keeps every other character as often as it occurs, and is the identity on text without `@` |
| `Username.RemoveAllAppend` | telegram_instabot.py:107 | `replace("@", "")` keeps the order of what it keeps: the result for a concatenation is the concatenation of the results |
| `Username.Normalize` | telegram_instabot.py:107 | the stored name has no `@`, uses only characters of the text, and equals the text when that is already a bare, unpadded name |
| `Username.NormalizeDropsAt` | telegram_instabot.py:107 | `" @al "` is stored as `al` |
| `Username.NormalizeKeepsInnerSpace` | telegram_instabot.py:107 | `"@ b"` is stored as `" b"`: stripping happens before the `@` goes, so inner blanks survive |
| `Sync.SendFiles` | telegram_instabot.py:131-132 | sending a file list never takes back a sent message and never stages a file |
| `SyncProps.DeletedOnlyAfterSend` | telegram_instabot.py:56-59 | every file removed from staging had its document sent first |
| `SyncProps.SendFilesDelivers` | telegram_instabot.py:56-59 | when no send fails, each file is sent once, in order, and removed |
| `SyncProps.SendFailureKeepsFile` | telegram_instabot.py:56-59 | the loop stops at the first failing file, after every earlier file was sent and removed, and the failing file stays staged |
| `SyncProps.PostsTakenAreNewer` | telegram_instabot.py:126-134 | the dispatched posts are the leading posts, each strictly newer than the post watermark in force when tested |
| `SyncProps.PostMarkIsLastDispatched` | telegram_instabot.py:126-134 | the loop breaks at the first post not strictly newer; the watermark is the time of the last fully sent post, or unchanged if none |
| `SyncProps.NewestFirstDispatchesAtMostOne` | telegram_instabot.py:126-134 | with strictly newest-first posts at most one post is dispatched per pass |
| `SyncProps.PostLoopStopsAtStale` | telegram_instabot.py:127-128 | a post not newer than the starting watermark is a stop: nothing after it is dispatched |
| `SyncProps.StoryTakenAreNewer` | telegram_instabot.py:139-149 | each dispatched story item is strictly newer than the story watermark in force |
| `SyncProps.StoryLoopDispatchesRecords` | telegram_instabot.py:139-149 | the story loop dispatches exactly the items newer than the starting watermark and than every earlier item, in order; one left by an exception dispatched a prefix of them |
| `SyncProps.StoryMarkIsLastDispatched` | telegram_instabot.py:139-151 | the story watermark is the time of the last fully sent item; an exception keeps the advances made before it |
| `SyncProps.StoryMarkIsMax` | telegram_instabot.py:139-149 | a completed story loop leaves the maximum of the starting watermark and every item time seen |
| `SyncProps.StoryLoopSkipsStale` | telegram_instabot.py:141-142 | a story item not newer than the starting watermark is skipped (`continue`) wherever it stands; nothing else changes |
| `SyncProps.StoryLoopIdle` | telegram_instabot.py:141-142 | items all at or below the watermark: nothing sent, nothing staged, watermark unchanged |
| `SyncProps.PostMarkRises` | telegram_instabot.py:126-134 | the post loop never moves its watermark back |
| `SyncProps.StoryMarkRises` | telegram_instabot.py:139-149 | the story loop never moves its watermark back |
| `SyncProps.NothingAtOrBelowMark` | telegram_instabot.py:127-141 | no dispatched post or story item is at or below the watermark the pass began with |
| `SyncProps.PostsDelivered` | telegram_instabot.py:126-134 | when no send fails, the post loop does not raise, nothing new stays staged, and it sends exactly the files of the posts it dispatched, in order |
| `SyncProps.StoriesDelivered` | telegram_instabot.py:138-149 | when no send fails, the story loop does not raise, nothing new stays staged, and it sends exactly the files of the records among the items, in order |
| `SyncProps.PostLoopSettles` | telegram_instabot.py:126-134 | when no send fails, the post loop run again from the watermark it left dispatches nothing |
| `SyncProps.StoryLoopSettles` | telegram_instabot.py:139-149 | when no send fails, the story loop run again from the watermark it left dispatches nothing |
| `SyncProps.ResyncIsIdle` | telegram_instabot.py:116-154 | a second pass over unchanged content, with no failing send, sends nothing and leaves STATE and staging as the first left them |
| `SyncProps.PassNeverLowersWatermark` | telegram_instabot.py:116-154 | however a pass ends, neither watermark of the account goes down |
| `SyncProps.PassKeepsOtherAccounts` | telegram_instabot.py:116-154 | a pass changes no other account's watermark and adds no other key to STATE |
| `SyncProps.FetchKeepsOtherAccounts` | telegram_instabot.py:95-99 | running the passes of a subscriber's list changes no watermark of an account outside the list |
| `SyncProps.UnresolvedChangesNothing` | telegram_instabot.py:119-123 | a profile that does not resolve yields one error message and leaves STATE and staging unchanged |
| `SyncProps.LoggedOutSkipsStories` | telegram_instabot.py:137 | not logged in: no story is fetched and the story watermark is untouched |
| `SyncProps.StoryFailureStillCommits` | telegram_instabot.py:138-154 | a send failing in the story loop is swallowed; the pass commits with the story advances made before it |
| `SyncProps.PostFailureRaises` | telegram_instabot.py:117-134 | a send failing in the post loop raises: nothing committed; a stored record already holds the post advance |
| `SyncProps.NeverSyncedSendsNewestPost` | telegram_instabot.py:117-134 | an account missing from STATE starts from `{None, None}`, so its newest post goes out and its post watermark reaches that post's time |
| `SyncProps.NewestFirstScenario` | telegram_instabot.py:116-154 | watermark 1 and posts 3, 2, 1: only the post at 3 is sent, and the watermark becomes 3 |
| `SyncProps.StoryRecordsScenario` | telegram_instabot.py:139-149 | no story watermark and items 5, 3, 7: the items at 5 and 7 are sent, the one at 3 skipped, and the watermark becomes 7 |
| `SyncProps.FailedLaterPostScenario` | telegram_instabot.py:117-134 | watermark 1 and posts 2, 3 with the send of the post at 3 failing: the pass raises, the post at 2 was sent, and the stored record already holds 2 |
| `SyncProps.FailedNewestScenario` | telegram_instabot.py:116-154 | the same posts with a failing send of the newest post: nothing sent, its file stays staged, STATE unchanged |
| `Bot.InstaBot.constructor` | telegram_instabot.py:33-34 | `USERS` and `STATE` start as the saved documents |
| `Bot.InstaBot.Save` | telegram_instabot.py:51-53 | the saved snapshot becomes `USERS` and `STATE` as they are |
| `Bot.InstaBot.SendAndDelete` | telegram_instabot.py:56-59 | the document is sent and the file removed only when it is staged and its send succeeds; otherwise nothing changes |
| `Bot.InstaBot.Download` | telegram_instabot.py:130 | a download adds the item's files to the staging directory |
| `Bot.InstaBot.DispatchFiles` | telegram_instabot.py:131-132 | the file loop leaves staging and messages as `SendFiles` says |
| `Bot.InstaBot.RunPosts` | telegram_instabot.py:126-134 | the in-place post loop ends as `PostLoop`, writing each advance through to a stored record |
| `Bot.InstaBot.RunStories` | telegram_instabot.py:137-151 | the in-place story loops end as `StoryLoop` over all groups, the exception swallowed |
| `Bot.InstaBot.FetchInstagram` | telegram_instabot.py:116-154 | STATE, staging, messages and outcome are those of `SyncPass`; saved only when committed |
| `Bot.InstaBot.Start` | telegram_instabot.py:63-66 | `setdefault` adds an empty list for a new subscriber, never replaces an existing one, then saves |
| `Bot.InstaBot.MenuAdd` | telegram_instabot.py:85-87 | the subscriber becomes awaiting an account name |
| `Bot.InstaBot.MenuList` | telegram_instabot.py:89-93 | the subscriber's list, or empty when unknown |
| `Bot.InstaBot.AddAccount` | telegram_instabot.py:102-112 | nothing happens unless awaiting; otherwise the normalised name is appended (duplicates kept), saved, the flag cleared, and a confirmation sent |
| `Bot.InstaBot.MenuFetch` | telegram_instabot.py:95-99 | passes run over the subscriber's list in order, stopping at the first that raises, as `FetchEach` says |

## Left out

- Telegram transport and UI: keyboards, the texts of messages and edits, and `run_polling` with asyncio (telegram_instabot.py:68-77, 82, 87, 91-93, 96, 99, 158-171). Handlers run one at a time and to completion. The error message of line 122 and the confirmation of line 112 are kept as abstract messages, and both are assumed to be delivered.
- instaloader itself: building the loader, loading the session, the lazy pagination of `get_posts`, `get_stories` and the downloads (telegram_instabot.py:37-48, 120, 130, 139-140, 145). These become input data. An exception raised by a download or by the pagination is not modelled; in the post loop it would end the pass like a failing send, and in the story loop it would be swallowed.
- Filesystem enumeration: `glob` and `iterdir` (telegram_instabot.py:131, 146) are replaced by each item's own list of staged files, in a fixed order. `iterdir` on the stories directory would also return files left there by a failing send in an earlier pass; those files are not re-sent in the model.
- JSON encoding: `save` is a copy of `USERS` and `STATE` into the saved snapshot. The ISO-8601 conversions are identities on integer times.
- The `backend/` JavaScript service (routing, database schema, login, backups, VPN downloads): it has no part in the sync pass.

