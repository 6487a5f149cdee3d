/**
 * Properties of the sync pass: which posts and story items get dispatched,
 * where the watermarks end, what a failing send leaves behind, and that a
 * second pass over unchanged content sends nothing.
 */
module SyncProps {
  import opened Wrappers
  import opened Sync

  /** The watermark in force when the `i`-th dispatched item was tested. */
  function InForce(mark: Option<Time>, taken: seq<Time>, i: nat): Option<Time>
    requires i <= |taken|
  {
    if i == 0 then mark else Some(taken[i - 1])
  }

  /** Each time in `taken` is strictly newer than the watermark in force when it was tested. */
  predicate EachNewer(mark: Option<Time>, taken: seq<Time>) {
    forall i :: 0 <= i < |taken| ==> Newer(taken[i], InForce(mark, taken, i))
  }

  /** Every send of every item succeeds: no failing file, no path listed twice. */
  predicate Deliverable(items: seq<Item>, failing: set<Path>) {
    forall i :: 0 <= i < |items| ==> Distinct(items[i].files) && Files(items[i].files) !! failing
  }

  /** The documents for all files of `items`, item by item. */
  function DocsOf(chat: Uid, items: seq<Item>): seq<Message> {
    if items == [] then [] else Docs(chat, items[0].files) + DocsOf(chat, items[1..])
  }

  predicate NewestFirst(items: seq<Item>) {
    forall i, j :: 0 <= i < j < |items| ==> items[i].time > items[j].time
  }

  // ---------------------------------------------------------------- dispatch

  /**
   * Send first, delete after: every file the loop removes from the staging
   * directory had its document sent to the chat during the loop.
   */
  lemma {:induction false} DeletedOnlyAfterSend(files: seq<Path>, chat: Uid, failing: set<Path>, io: Io)
    ensures var r := SendFiles(files, chat, failing, io);
            forall f :: f in io.staged && f !in r.io.staged ==> Document(chat, f) in r.io.outbox[|io.outbox|..]
  {
    if files != [] {
      var s := SendAndDelete(files[0], chat, failing, io);
      if s.ok {
        DeletedOnlyAfterSend(files[1..], chat, failing, s.io);
        var r := SendFiles(files[1..], chat, failing, s.io);
        assert r.io.outbox[|io.outbox|..] == [Document(chat, files[0])] + r.io.outbox[|s.io.outbox|..];
      }
    }
  }

  /** When every send succeeds, each file is sent once, in order, and none stays staged. */
  lemma {:induction false} SendFilesDelivers(files: seq<Path>, chat: Uid, failing: set<Path>, io: Io)
    requires Distinct(files) && Files(files) <= io.staged && Files(files) !! failing
    ensures SendFiles(files, chat, failing, io)
         == Sent(Io(io.staged - Files(files), io.outbox + Docs(chat, files)), true)
  {
    if files != [] {
      var io' := Io(io.staged - {files[0]}, io.outbox + [Document(chat, files[0])]);
      FilesCons(files);
      DistinctTail(files);
      SendFilesDelivers(files[1..], chat, failing, io');
      assert io'.staged - Files(files[1..]) == io.staged - Files(files);
    }
  }

  /** The position of the first file in `failing`, or the length when there is none. */
  function FirstFailing(files: seq<Path>, failing: set<Path>): (k: nat)
    ensures k <= |files|
    ensures forall i :: 0 <= i < k ==> files[i] !in failing
    ensures k < |files| ==> files[k] in failing
  {
    if files == [] || files[0] in failing then 0 else 1 + FirstFailing(files[1..], failing)
  }

  /**
   * A send that raises stops the loop at the first failing file, with every
   * earlier file sent and removed, and leaves the failing file staged.
   */
  lemma {:induction false} SendFailureKeepsFile(files: seq<Path>, chat: Uid, failing: set<Path>, io: Io)
    requires Distinct(files) && Files(files) <= io.staged
    requires Files(files) * failing != {}
    ensures var r := SendFiles(files, chat, failing, io);
            var k := FirstFailing(files, failing);
            && k < |files| && !r.ok && files[k] in r.io.staged
            && r.io.outbox == io.outbox + Docs(chat, files[..k])
            && r.io.staged == io.staged - Files(files[..k])
  {
    FilesCons(files);
    if files[0] in failing {
      assert files[..0] == [] && Files([]) == {};
    } else {
      var s := SendAndDelete(files[0], chat, failing, io);
      assert s.io == Io(io.staged - {files[0]}, io.outbox + [Document(chat, files[0])]);
      DistinctTail(files);
      assert Files(files[1..]) * failing != {};
      SendFailureKeepsFile(files[1..], chat, failing, s.io);
      var k := FirstFailing(files[1..], failing);
      DocsPrefix(chat, files, k);
      FilesPrefix(files, k);
    }
  }

  lemma FilesPrefix(files: seq<Path>, k: nat)
    requires k < |files|
    ensures Files(files[..k + 1]) == {files[0]} + Files(files[1..][..k])
  {
    FilesCons(files[..k + 1]);
    assert files[..k + 1][1..] == files[1..][..k];
  }

  lemma DocsPrefix(chat: Uid, files: seq<Path>, k: nat)
    requires k < |files|
    ensures Docs(chat, files[..k + 1]) == [Document(chat, files[0])] + Docs(chat, files[1..][..k])
  {
    assert files[..k + 1][1..] == files[1..][..k];
  }

  lemma FilesCons(files: seq<Path>)
    requires files != []
    ensures Files(files) == {files[0]} + Files(files[1..])
  {
    assert forall f :: f in files <==> f == files[0] || f in files[1..];
  }

  lemma DistinctTail(files: seq<Path>)
    requires Distinct(files) && files != []
    ensures Distinct(files[1..]) && files[0] !in Files(files[1..])
  {
    forall k | 0 <= k < |files[1..]| ensures files[1..][k] != files[0] {
      assert files[1..][k] == files[k + 1];
    }
  }

  /** A dispatch newer than the watermark, followed by a run each newer than the last. */
  lemma EachNewerCons(mark: Option<Time>, t: Time, rest: seq<Time>)
    requires Newer(t, mark) && EachNewer(Some(t), rest)
    ensures EachNewer(mark, [t] + rest)
  {
    var taken := [t] + rest;
    forall i | 0 < i < |taken| ensures Newer(taken[i], InForce(mark, taken, i)) {
      assert taken[i] == rest[i - 1];
      assert InForce(mark, taken, i) == InForce(Some(t), rest, i - 1);
    }
  }

  // ---------------------------------------------------------------- post loop

  /**
   * The posts the loop dispatches are its leading posts, each strictly newer
   * than the post watermark in force when it was tested.
   */
  lemma {:induction false} PostsTakenAreNewer(posts: seq<Item>, mark: Option<Time>, chat: Uid, failing: set<Path>, io: Io)
    ensures var r := PostLoop(posts, mark, chat, failing, io);
            && |r.taken| <= |posts|
            && (forall i :: 0 <= i < |r.taken| ==> r.taken[i] == posts[i].time)
            && EachNewer(mark, r.taken)
  {
    if posts != [] && Newer(posts[0].time, mark) {
      var s := SendFiles(posts[0].files, chat, failing, Stage(io, posts[0].files));
      if s.ok {
        var m := Some(posts[0].time);
        PostsTakenAreNewer(posts[1..], m, chat, failing, s.io);
        var rest := PostLoop(posts[1..], m, chat, failing, s.io);
        var r := PostLoop(posts, mark, chat, failing, io);
        assert r.taken == [posts[0].time] + rest.taken;
        EachNewerCons(mark, posts[0].time, rest.taken);
        forall i | 0 < i < |r.taken| ensures r.taken[i] == posts[i].time {
          assert r.taken[i] == rest.taken[i - 1];
        }
      }
    }
  }

  /**
   * The post loop stops at the first post not strictly newer than the
   * watermark in force; the watermark it leaves is the time of the last post
   * whose files were all sent, or the one it began with if there is none.
   */
  lemma {:induction false} PostMarkIsLastDispatched(posts: seq<Item>, mark: Option<Time>, chat: Uid, failing: set<Path>, io: Io)
    ensures var r := PostLoop(posts, mark, chat, failing, io);
            && (r.raised ==> r.taken != [] && r.mark == InForce(mark, r.taken, |r.taken| - 1))
            && (!r.raised ==> r.mark == InForce(mark, r.taken, |r.taken|))
            && (!r.raised && |r.taken| < |posts| ==> !Newer(posts[|r.taken|].time, r.mark))
  {
    if posts != [] && Newer(posts[0].time, mark) {
      var s := SendFiles(posts[0].files, chat, failing, Stage(io, posts[0].files));
      if s.ok {
        var m := Some(posts[0].time);
        PostMarkIsLastDispatched(posts[1..], m, chat, failing, s.io);
        var rest := PostLoop(posts[1..], m, chat, failing, s.io);
        var r := PostLoop(posts, mark, chat, failing, io);
        assert r.taken == [posts[0].time] + rest.taken;
        assert r.raised ==> InForce(mark, r.taken, |r.taken| - 1) == InForce(m, rest.taken, |rest.taken| - 1);
        assert !r.raised ==> InForce(mark, r.taken, |r.taken|) == InForce(m, rest.taken, |rest.taken|);
        assert |r.taken| < |posts| ==> posts[|r.taken|] == posts[1..][|rest.taken|];
      }
    }
  }

  /**
   * Consequence of reassigning the watermark inside the loop: when the posts
   * come strictly newest first, a pass dispatches at most one post.
   */
  lemma {:induction false} NewestFirstDispatchesAtMostOne(posts: seq<Item>, mark: Option<Time>, chat: Uid, failing: set<Path>, io: Io)
    requires NewestFirst(posts)
    ensures |PostLoop(posts, mark, chat, failing, io).taken| <= 1
  {
    PostsTakenAreNewer(posts, mark, chat, failing, io);
  }

  /**
   * A post not newer than the watermark the pass began with ends the loop
   * wherever it stands: nothing after it is dispatched.
   */
  lemma {:induction false} PostLoopStopsAtStale(posts: seq<Item>, k: nat, stale: Item, mark: Option<Time>,
                                                chat: Uid, failing: set<Path>, io: Io)
    requires k <= |posts| && mark.Some? && stale.time <= mark.value
    ensures PostLoop(posts[..k] + [stale] + posts[k..], mark, chat, failing, io)
         == PostLoop(posts[..k], mark, chat, failing, io)
  {
    var all := posts[..k] + [stale] + posts[k..];
    if k == 0 {
      assert all[0] == stale && posts[..k] == [];
    } else {
      assert all[0] == posts[..k][0] == posts[0];
      if Newer(posts[0].time, mark) {
        var s := SendFiles(posts[0].files, chat, failing, Stage(io, posts[0].files));
        if s.ok {
          assert all[1..] == posts[1..][..k - 1] + [stale] + posts[1..][k - 1..];
          assert posts[..k][1..] == posts[1..][..k - 1];
          PostLoopStopsAtStale(posts[1..], k - 1, stale, Some(posts[0].time), chat, failing, s.io);
        }
      }
    }
  }

  // ---------------------------------------------------------------- story loop

  /** Every story item dispatched is strictly newer than the story watermark in force. */
  lemma {:induction false} StoryTakenAreNewer(items: seq<Item>, mark: Option<Time>, chat: Uid, failing: set<Path>, io: Io)
    ensures var r := StoryLoop(items, mark, chat, failing, io);
            EachNewer(mark, r.taken)
  {
    if items != [] {
      if !Newer(items[0].time, mark) {
        StoryTakenAreNewer(items[1..], mark, chat, failing, io);
        assert StoryLoop(items, mark, chat, failing, io) == StoryLoop(items[1..], mark, chat, failing, io);
      } else {
        var s := SendFiles(items[0].files, chat, failing, Stage(io, items[0].files));
        if s.ok {
          var m := Some(items[0].time);
          StoryTakenAreNewer(items[1..], m, chat, failing, s.io);
          var rest := StoryLoop(items[1..], m, chat, failing, s.io);
          assert StoryLoop(items, mark, chat, failing, io).taken == [items[0].time] + rest.taken;
          EachNewerCons(mark, items[0].time, rest.taken);
        }
      }
    }
  }

  /**
   * The story watermark the loop leaves is the time of the last item whose
   * files were all sent, or the one the loop began with; an exception keeps
   * the advances made before it.
   */
  lemma {:induction false} StoryMarkIsLastDispatched(items: seq<Item>, mark: Option<Time>, chat: Uid, failing: set<Path>, io: Io)
    ensures var r := StoryLoop(items, mark, chat, failing, io);
            && (r.raised ==> r.taken != [] && r.mark == InForce(mark, r.taken, |r.taken| - 1))
            && (!r.raised ==> r.mark == InForce(mark, r.taken, |r.taken|))
  {
    if items != [] {
      if !Newer(items[0].time, mark) {
        StoryMarkIsLastDispatched(items[1..], mark, chat, failing, io);
      } else {
        var s := SendFiles(items[0].files, chat, failing, Stage(io, items[0].files));
        if s.ok {
          var m := Some(items[0].time);
          StoryMarkIsLastDispatched(items[1..], m, chat, failing, s.io);
          var rest := StoryLoop(items[1..], m, chat, failing, s.io);
          var r := StoryLoop(items, mark, chat, failing, io);
          assert r.taken == [items[0].time] + rest.taken;
          assert r.raised ==> InForce(mark, r.taken, |r.taken| - 1) == InForce(m, rest.taken, |rest.taken| - 1);
          assert !r.raised ==> InForce(mark, r.taken, |r.taken|) == InForce(m, rest.taken, |rest.taken|);
        }
      }
    }
  }

  /**
   * A completed story loop leaves as story watermark the maximum of the one
   * it began with and the times of all story items it saw.
   */
  lemma {:induction false} StoryMarkIsMax(items: seq<Item>, mark: Option<Time>, chat: Uid, failing: set<Path>, io: Io)
    ensures var r := StoryLoop(items, mark, chat, failing, io);
            !r.raised ==>
              && AtMost(mark, r.mark)
              && (forall i :: 0 <= i < |items| ==> AtMost(Some(items[i].time), r.mark))
              && (r.mark == mark || exists i :: 0 <= i < |items| && r.mark == Some(items[i].time))
  {
    if items != [] {
      var r := StoryLoop(items, mark, chat, failing, io);
      if !Newer(items[0].time, mark) {
        StoryMarkIsMax(items[1..], mark, chat, failing, io);
        if !r.raised {
          assert forall i :: 0 < i < |items| ==> items[i] == items[1..][i - 1];
          if r.mark != mark {
            var i :| 0 <= i < |items[1..]| && r.mark == Some(items[1..][i].time);
            assert r.mark == Some(items[i + 1].time);
          }
        }
      } else {
        var s := SendFiles(items[0].files, chat, failing, Stage(io, items[0].files));
        if s.ok {
          var m := Some(items[0].time);
          StoryMarkIsMax(items[1..], m, chat, failing, s.io);
          if !r.raised {
            assert forall i :: 0 < i < |items| ==> items[i] == items[1..][i - 1];
            if r.mark != m {
              var i :| 0 <= i < |items[1..]| && r.mark == Some(items[1..][i].time);
              assert r.mark == Some(items[i + 1].time);
            }
          }
        }
      }
    }
  }

  /**
   * A story item not newer than the watermark the pass began with is skipped
   * wherever it stands, and the loop goes on: inserting it changes nothing.
   */
  lemma {:induction false} StoryLoopSkipsStale(items: seq<Item>, k: nat, stale: Item, mark: Option<Time>,
                                               chat: Uid, failing: set<Path>, io: Io)
    requires k <= |items| && mark.Some? && stale.time <= mark.value
    ensures StoryLoop(items[..k] + [stale] + items[k..], mark, chat, failing, io)
         == StoryLoop(items, mark, chat, failing, io)
  {
    var all := items[..k] + [stale] + items[k..];
    if k == 0 {
      assert all[0] == stale && all[1..] == items;
    } else {
      assert all[0] == items[..k][0] == items[0];
      assert all[1..] == items[1..][..k - 1] + [stale] + items[1..][k - 1..];
      if !Newer(items[0].time, mark) {
        StoryLoopSkipsStale(items[1..], k - 1, stale, mark, chat, failing, io);
      } else {
        var s := SendFiles(items[0].files, chat, failing, Stage(io, items[0].files));
        if s.ok {
          StoryLoopSkipsStale(items[1..], k - 1, stale, Some(items[0].time), chat, failing, s.io);
        }
      }
    }
  }

  /**
   * Item `i` is a record: strictly newer than the starting watermark and
   * strictly newer than every item before it.
   */
  predicate IsRecord(items: seq<Item>, mark: Option<Time>, i: nat)
    requires i < |items|
  {
    Newer(items[i].time, mark) && forall j :: 0 <= j < i ==> items[j].time < items[i].time
  }

  /** The records among `items[i..]`, in order. */
  function RecordsFrom(items: seq<Item>, mark: Option<Time>, i: nat): seq<Item>
    requires i <= |items|
    decreases |items| - i
  {
    if i == |items| then []
    else (if IsRecord(items, mark, i) then [items[i]] else []) + RecordsFrom(items, mark, i + 1)
  }

  /** The records among all of `items`, in order. */
  function Records(items: seq<Item>, mark: Option<Time>): seq<Item> {
    RecordsFrom(items, mark, 0)
  }

  function Times(items: seq<Item>): seq<Time> {
    if items == [] then [] else [items[0].time] + Times(items[1..])
  }

  /** The watermark in force after the story loop tested, and fully sent, an item at `t`. */
  function After(t: Time, mark: Option<Time>): Option<Time> {
    if Newer(t, mark) then Some(t) else mark
  }

  /** Dropping the first item: a later item is a record exactly when it is one of the rest, against the advanced watermark. */
  lemma RecordShiftAt(items: seq<Item>, mark: Option<Time>, i: nat)
    requires i + 1 < |items|
    ensures IsRecord(items, mark, i + 1) <==> IsRecord(items[1..], After(items[0].time, mark), i)
  {
    var t0, t := items[0].time, items[i + 1].time;
    assert items[1..][i] == items[i + 1];
    assert forall j :: 0 <= j < i ==> items[1..][j] == items[j + 1];
    if IsRecord(items[1..], After(t0, mark), i) {
      assert t0 < t && Newer(t, mark);
      forall j | 0 <= j < i + 1 ensures items[j].time < t {
        if j > 0 { assert items[j] == items[1..][j - 1]; }
      }
    }
  }

  lemma {:induction false} RecordsShift(items: seq<Item>, mark: Option<Time>, i: nat)
    requires i < |items|
    ensures RecordsFrom(items, mark, i + 1) == RecordsFrom(items[1..], After(items[0].time, mark), i)
    decreases |items| - i
  {
    if i + 1 < |items| {
      RecordShiftAt(items, mark, i);
      assert items[1..][i] == items[i + 1];
      RecordsShift(items, mark, i + 1);
    }
  }

  /** The records of `items` are its first item when that one is newer, then the records of the rest against the advanced watermark. */
  lemma RecordsCons(items: seq<Item>, mark: Option<Time>)
    requires items != []
    ensures Records(items, mark)
         == (if Newer(items[0].time, mark) then [items[0]] else []) + Records(items[1..], After(items[0].time, mark))
  {
    RecordsShift(items, mark, 0);
  }

  lemma TimesCons(x: Item, rest: seq<Item>)
    ensures Times([x] + rest) == [x.time] + Times(rest)
  {
    assert ([x] + rest)[1..] == rest;
  }

  lemma DocsOfCons(chat: Uid, x: Item, rest: seq<Item>)
    ensures DocsOf(chat, [x] + rest) == Docs(chat, x.files) + DocsOf(chat, rest)
  {
    assert ([x] + rest)[1..] == rest;
  }

  /**
   * The story loop dispatches exactly the records among the items, in order:
   * an item goes out when it is newer than the starting watermark and than
   * every item before it. A loop left by an exception has dispatched a prefix
   * of them, the item whose send raised last.
   */
  lemma {:induction false} StoryLoopDispatchesRecords(items: seq<Item>, mark: Option<Time>, chat: Uid, failing: set<Path>, io: Io)
    ensures var r := StoryLoop(items, mark, chat, failing, io);
            && r.taken <= Times(Records(items, mark))
            && (!r.raised ==> r.taken == Times(Records(items, mark)))
  {
    if items != [] {
      var t0 := items[0].time;
      RecordsCons(items, mark);
      if !Newer(t0, mark) {
        assert Records(items, mark) == Records(items[1..], mark);
        StoryLoopDispatchesRecords(items[1..], mark, chat, failing, io);
      } else {
        TimesCons(items[0], Records(items[1..], Some(t0)));
        var s := SendFiles(items[0].files, chat, failing, Stage(io, items[0].files));
        if s.ok {
          StoryLoopDispatchesRecords(items[1..], Some(t0), chat, failing, s.io);
        }
      }
    }
  }

  // ---------------------------------------------------------------- watermarks

  /** Along a run of dispatches each newer than the last, times only rise. */
  lemma {:induction false} ChainRises(mark: Option<Time>, taken: seq<Time>, j: nat)
    requires EachNewer(mark, taken) && j < |taken|
    ensures taken[0] <= taken[j] && AtMost(mark, Some(taken[j]))
    ensures mark.Some? ==> mark.value < taken[j]
    decreases j
  {
    assert Newer(taken[j], InForce(mark, taken, j));
    if j > 0 {
      ChainRises(mark, taken, j - 1);
    }
  }

  /** The post loop never moves its watermark back. */
  lemma {:induction false} PostMarkRises(posts: seq<Item>, mark: Option<Time>, chat: Uid, failing: set<Path>, io: Io)
    ensures AtMost(mark, PostLoop(posts, mark, chat, failing, io).mark)
  {
    PostsTakenAreNewer(posts, mark, chat, failing, io);
    PostMarkIsLastDispatched(posts, mark, chat, failing, io);
    var w := PostLoop(posts, mark, chat, failing, io);
    var k := if w.raised then |w.taken| - 1 else |w.taken|;
    if k > 0 { ChainRises(mark, w.taken, k - 1); }
  }

  /** The story loop never moves its watermark back. */
  lemma {:induction false} StoryMarkRises(items: seq<Item>, mark: Option<Time>, chat: Uid, failing: set<Path>, io: Io)
    ensures AtMost(mark, StoryLoop(items, mark, chat, failing, io).mark)
  {
    StoryTakenAreNewer(items, mark, chat, failing, io);
    StoryMarkIsLastDispatched(items, mark, chat, failing, io);
    var w := StoryLoop(items, mark, chat, failing, io);
    var k := if w.raised then |w.taken| - 1 else |w.taken|;
    if k > 0 { ChainRises(mark, w.taken, k - 1); }
  }

  /** No redundant redelivery: nothing a loop dispatches is at or below the watermark it began with. */
  lemma {:induction false} NothingAtOrBelowMark(items: seq<Item>, mark: Option<Time>, chat: Uid, failing: set<Path>, io: Io)
    requires mark.Some?
    ensures forall t :: t in PostLoop(items, mark, chat, failing, io).taken ==> t > mark.value
    ensures forall t :: t in StoryLoop(items, mark, chat, failing, io).taken ==> t > mark.value
  {
    PostsTakenAreNewer(items, mark, chat, failing, io);
    StoryTakenAreNewer(items, mark, chat, failing, io);
    var p := PostLoop(items, mark, chat, failing, io).taken;
    var q := StoryLoop(items, mark, chat, failing, io).taken;
    forall j | 0 <= j < |p| ensures p[j] > mark.value { ChainRises(mark, p, j); }
    forall j | 0 <= j < |q| ensures q[j] > mark.value { ChainRises(mark, q, j); }
  }

  // ---------------------------------------------------------------- clean passes

  lemma DeliverableTail(items: seq<Item>, failing: set<Path>)
    requires Deliverable(items, failing) && items != []
    ensures Deliverable(items[1..], failing)
  {
    forall i | 0 <= i < |items[1..]| ensures Distinct(items[1..][i].files) && Files(items[1..][i].files) !! failing {
      assert items[1..][i] == items[i + 1];
    }
  }

  /**
   * When every send succeeds the post loop does not raise, leaves nothing
   * staged that was not staged before, and sends exactly the files of the
   * posts it dispatched, in order.
   */
  lemma {:induction false} PostsDelivered(items: seq<Item>, mark: Option<Time>, chat: Uid, failing: set<Path>, io: Io)
    requires Deliverable(items, failing)
    ensures var r := PostLoop(items, mark, chat, failing, io);
            && !r.raised && r.io.staged <= io.staged && |r.taken| <= |items|
            && r.io.outbox == io.outbox + DocsOf(chat, items[..|r.taken|])
  {
    if items != [] && Newer(items[0].time, mark) {
      var staged := Stage(io, items[0].files);
      SendFilesDelivers(items[0].files, chat, failing, staged);
      var s := SendFiles(items[0].files, chat, failing, staged);
      DeliverableTail(items, failing);
      PostsDelivered(items[1..], Some(items[0].time), chat, failing, s.io);
      var r := PostLoop(items, mark, chat, failing, io);
      var rest := PostLoop(items[1..], Some(items[0].time), chat, failing, s.io);
      assert items[..|r.taken|][1..] == items[1..][..|rest.taken|];
      assert DocsOf(chat, items[..|r.taken|]) == Docs(chat, items[0].files) + DocsOf(chat, items[1..][..|rest.taken|]);
    } else {
      assert items[..0] == [];
    }
  }

  /**
   * When every send succeeds the story loop does not raise, leaves nothing
   * new staged, and sends exactly the files of the records among the items,
   * in order.
   */
  lemma {:induction false} StoriesDelivered(items: seq<Item>, mark: Option<Time>, chat: Uid, failing: set<Path>, io: Io)
    requires Deliverable(items, failing)
    ensures var r := StoryLoop(items, mark, chat, failing, io);
            && !r.raised && r.io.staged <= io.staged
            && r.io.outbox == io.outbox + DocsOf(chat, Records(items, mark))
  {
    if items != [] {
      DeliverableTail(items, failing);
      RecordsCons(items, mark);
      if !Newer(items[0].time, mark) {
        assert Records(items, mark) == Records(items[1..], mark);
        StoriesDelivered(items[1..], mark, chat, failing, io);
      } else {
        var staged := Stage(io, items[0].files);
        SendFilesDelivers(items[0].files, chat, failing, staged);
        var s := SendFiles(items[0].files, chat, failing, staged);
        StoriesDelivered(items[1..], Some(items[0].time), chat, failing, s.io);
        DocsOfCons(chat, items[0], Records(items[1..], Some(items[0].time)));
      }
    }
  }

  /** A loop whose every item is at or below its watermark sends nothing and changes nothing. */
  lemma {:induction false} StoryLoopIdle(items: seq<Item>, mark: Option<Time>, chat: Uid, failing: set<Path>, io: Io)
    requires forall i :: 0 <= i < |items| ==> AtMost(Some(items[i].time), mark)
    ensures StoryLoop(items, mark, chat, failing, io) == Walk(mark, io, false, [])
  {
    if items != [] {
      assert AtMost(Some(items[0].time), mark);
      StoryLoopIdle(items[1..], mark, chat, failing, io);
    }
  }

  /**
   * Running the post loop again from the watermark it left, when every send
   * succeeds, dispatches nothing: the first post is at or below that watermark.
   */
  lemma PostLoopSettles(posts: seq<Item>, mark: Option<Time>, chat: Uid, failing: set<Path>, io: Io, io': Io)
    requires Deliverable(posts, failing)
    ensures var m := PostLoop(posts, mark, chat, failing, io).mark;
            PostLoop(posts, m, chat, failing, io') == Walk(m, io', false, [])
  {
    var w := PostLoop(posts, mark, chat, failing, io);
    PostsDelivered(posts, mark, chat, failing, io);
    PostsTakenAreNewer(posts, mark, chat, failing, io);
    PostMarkIsLastDispatched(posts, mark, chat, failing, io);
    if posts != [] {
      // the first post was dispatched, so the watermark is at least its time; or the loop broke on it
      if w.taken != [] { ChainRises(mark, w.taken, |w.taken| - 1); }
      assert !Newer(posts[0].time, w.mark);
    }
  }

  /**
   * Running the story loop again from the watermark it left, when every send
   * succeeds, dispatches nothing: every item is at or below that watermark.
   */
  lemma StoryLoopSettles(items: seq<Item>, mark: Option<Time>, chat: Uid, failing: set<Path>, io: Io, io': Io)
    requires Deliverable(items, failing)
    ensures var m := StoryLoop(items, mark, chat, failing, io).mark;
            StoryLoop(items, m, chat, failing, io') == Walk(m, io', false, [])
  {
    StoriesDelivered(items, mark, chat, failing, io);
    StoryMarkIsMax(items, mark, chat, failing, io);
    StoryLoopIdle(items, StoryLoop(items, mark, chat, failing, io).mark, chat, failing, io');
  }

  /**
   * Running the pass again over unchanged content, when every send succeeds,
   * sends nothing, stages nothing and leaves STATE as the first pass left it.
   */
  lemma ResyncIsIdle(state: map<Account, Watermark>, username: Account, chat: Uid, p: Provider, io: Io)
    requires username in p.profiles
    requires Deliverable(p.profiles[username].posts, p.failing)
    requires Deliverable(Flatten(p.profiles[username].stories), p.failing)
    ensures var first := SyncPass(state, username, chat, p, io);
            first.outcome == Committed && SyncPass(first.state, username, chat, p, first.io) == first
  {
    var profile := p.profiles[username];
    var last := Last(state, username);
    var first := SyncPass(state, username, chat, p, io);
    var posts := PostLoop(profile.posts, last.post, chat, p.failing, io);
    PostsDelivered(profile.posts, last.post, chat, p.failing, io);
    PostLoopSettles(profile.posts, last.post, chat, p.failing, io, first.io);
    var stories := StoryPart(profile, last.story, chat, p, posts.io);
    if p.loggedIn {
      var items := Flatten(profile.stories);
      StoriesDelivered(items, last.story, chat, p.failing, posts.io);
      StoryLoopSettles(items, last.story, chat, p.failing, posts.io, first.io);
    }
    assert first.state[username] == Watermark(posts.mark, stories.mark);
    assert first.state[username := Watermark(posts.mark, stories.mark)] == first.state;
  }

  /** A pass never lowers either watermark of the account it syncs, whatever way it ends. */
  lemma PassNeverLowersWatermark(state: map<Account, Watermark>, username: Account, chat: Uid, p: Provider, io: Io)
    ensures var r := SyncPass(state, username, chat, p, io);
            && AtMost(Last(state, username).post, Last(r.state, username).post)
            && AtMost(Last(state, username).story, Last(r.state, username).story)
  {
    if username in p.profiles {
      var profile := p.profiles[username];
      var last := Last(state, username);
      PostMarkRises(profile.posts, last.post, chat, p.failing, io);
      var posts := PostLoop(profile.posts, last.post, chat, p.failing, io);
      StoryMarkRises(Flatten(profile.stories), last.story, chat, p.failing, posts.io);
    }
  }

  // ---------------------------------------------------------------- other accounts

  /** A pass changes no other account's watermark and adds no other key to STATE. */
  lemma PassKeepsOtherAccounts(state: map<Account, Watermark>, username: Account, chat: Uid, p: Provider, io: Io)
    ensures var r := SyncPass(state, username, chat, p, io);
            forall a :: a != username ==> (a in r.state <==> a in state) && (a in state ==> r.state[a] == state[a])
  {
  }

  /** The passes of a subscriber's list change no watermark of an account outside the list. */
  lemma {:induction false} FetchKeepsOtherAccounts(accounts: seq<Account>, users: map<Uid, seq<Account>>,
                                                   state: map<Account, Watermark>, saved: Persisted,
                                                   chat: Uid, p: Provider, io: Io)
    ensures var r := FetchEach(accounts, users, state, saved, chat, p, io);
            forall a :: a !in accounts ==> (a in r.state <==> a in state) && (a in state ==> r.state[a] == state[a])
    decreases |accounts|
  {
    if accounts != [] {
      var pass := SyncPass(state, accounts[0], chat, p, io);
      PassKeepsOtherAccounts(state, accounts[0], chat, p, io);
      if pass.outcome != Raised {
        var saved' := if pass.outcome == Committed then Persisted(users, pass.state) else saved;
        FetchKeepsOtherAccounts(accounts[1..], users, pass.state, saved', chat, p, pass.io);
        assert forall a :: a !in accounts ==> a != accounts[0] && a !in accounts[1..];
      }
    }
  }

  // ---------------------------------------------------------------- how a pass ends

  /** A profile that does not resolve: one error message, STATE and the staging directory untouched. */
  lemma UnresolvedChangesNothing(state: map<Account, Watermark>, username: Account, chat: Uid, p: Provider, io: Io)
    requires username !in p.profiles
    ensures var r := SyncPass(state, username, chat, p, io);
            && r.outcome == Unresolved && r.state == state && r.io.staged == io.staged
            && r.io.outbox == io.outbox + [FetchFailed(chat, username)]
  {
  }

  /** Not logged in: no story is fetched, the story watermark is untouched. */
  lemma LoggedOutSkipsStories(state: map<Account, Watermark>, username: Account, chat: Uid, p: Provider, io: Io)
    requires username in p.profiles && !p.loggedIn
    ensures var r := SyncPass(state, username, chat, p, io);
            var posts := PostLoop(p.profiles[username].posts, Last(state, username).post, chat, p.failing, io);
            && r.io == posts.io
            && Last(r.state, username).story == Last(state, username).story
  {
  }

  /**
   * A send failing inside the story loop is swallowed: the pass still commits,
   * keeping the story watermark of the last item sent before the failure.
   */
  lemma StoryFailureStillCommits(state: map<Account, Watermark>, username: Account, chat: Uid, p: Provider, io: Io)
    requires username in p.profiles && p.loggedIn
    ensures var last := Last(state, username);
            var posts := PostLoop(p.profiles[username].posts, last.post, chat, p.failing, io);
            var stories := StoryLoop(Flatten(p.profiles[username].stories), last.story, chat, p.failing, posts.io);
            var r := SyncPass(state, username, chat, p, io);
            !posts.raised && stories.raised ==>
              && r.outcome == Committed
              && r.state[username] == Watermark(posts.mark, stories.mark)
              && stories.taken != []
              && stories.mark == InForce(last.story, stories.taken, |stories.taken| - 1)
  {
    var last := Last(state, username);
    var posts := PostLoop(p.profiles[username].posts, last.post, chat, p.failing, io);
    StoryMarkIsLastDispatched(Flatten(p.profiles[username].stories), last.story, chat, p.failing, posts.io);
  }

  /**
   * A send failing inside the post loop raises out of the pass: nothing is
   * committed; if the account was in STATE its stored record already carries
   * the post watermark of the last post sent before the failure.
   */
  lemma PostFailureRaises(state: map<Account, Watermark>, username: Account, chat: Uid, p: Provider, io: Io)
    requires username in p.profiles
    ensures var last := Last(state, username);
            var posts := PostLoop(p.profiles[username].posts, last.post, chat, p.failing, io);
            var r := SyncPass(state, username, chat, p, io);
            posts.raised ==>
              && r.outcome == Raised && posts.taken != []
              && (username in state ==> r.state == state[username := Watermark(InForce(last.post, posts.taken, |posts.taken| - 1), last.story)])
              && (username !in state ==> r.state == state)
  {
    var last := Last(state, username);
    PostMarkIsLastDispatched(p.profiles[username].posts, last.post, chat, p.failing, io);
  }

  /**
   * An account never synchronised starts from an empty record, which lets its
   * newest post through; when every send succeeds the pass commits a post
   * watermark at least that post's time.
   */
  lemma NeverSyncedSendsNewestPost(state: map<Account, Watermark>, username: Account, chat: Uid, p: Provider, io: Io)
    requires username !in state && username in p.profiles
    requires p.profiles[username].posts != [] && Deliverable(p.profiles[username].posts, p.failing)
    ensures var posts := p.profiles[username].posts;
            var r := SyncPass(state, username, chat, p, io);
            && r.outcome == Committed
            && PostLoop(posts, None, chat, p.failing, io).taken[..1] == [posts[0].time]
            && AtMost(Some(posts[0].time), r.state[username].post)
  {
    var posts := p.profiles[username].posts;
    var t := posts[0].time;
    var staged := Stage(io, posts[0].files);
    assert Distinct(posts[0].files) && Files(posts[0].files) !! p.failing;
    SendFilesDelivers(posts[0].files, chat, p.failing, staged);
    var s := SendFiles(posts[0].files, chat, p.failing, staged);
    PostMarkRises(posts[1..], Some(t), chat, p.failing, s.io);
    PostsDelivered(posts, None, chat, p.failing, io);
    var rest := PostLoop(posts[1..], Some(t), chat, p.failing, s.io);
    var w := PostLoop(posts, None, chat, p.failing, io);
    assert w.taken == [t] + rest.taken && w.mark == rest.mark;
    assert w.taken[..1] == [t];
  }

  // ---------------------------------------------------------------- scenarios

  /**
   * Posts at times 3, 2, 1, newest first, against a post watermark of 1: the
   * loop sends the post at 3, reassigns the watermark to 3, and then breaks on
   * the post at 2. Only one post goes out; the watermark ends at 3.
   */
  lemma NewestFirstScenario(chat: Uid)
    ensures var posts := [Item(3, ["c"]), Item(2, ["b"]), Item(1, ["a"])];
            var p := Provider(map["alice" := Profile(posts, [])], false, {});
            var r := SyncPass(map["alice" := Watermark(Some(1), None)], "alice", chat, p, Io({}, []));
            r == PassResult(map["alice" := Watermark(Some(3), None)], Io({}, [Document(chat, "c")]), Committed)
  {
    var posts := [Item(3, ["c"]), Item(2, ["b"]), Item(1, ["a"])];
    var staged := Stage(Io({}, []), ["c"]);
    assert staged == Io({"c"}, []);
    assert SendFiles(["c"], chat, {}, staged) == Sent(Io({}, [Document(chat, "c")]), true);
    assert posts[1..] == [Item(2, ["b"]), Item(1, ["a"])];
    assert PostLoop(posts[1..], Some(3), chat, {}, Io({}, [Document(chat, "c")]))
        == Walk(Some(3), Io({}, [Document(chat, "c")]), false, []);
  }

  /**
   * Story items at 5, 3, 7 and no story watermark yet: the item at 5 goes out,
   * the item at 3 is skipped against the new watermark 5, and the item at 7
   * goes out; the watermark ends at 7.
   */
  lemma StoryRecordsScenario(chat: Uid)
    ensures StoryLoop([Item(5, ["e"]), Item(3, ["c"]), Item(7, ["g"])], None, chat, {}, Io({}, []))
         == Walk(Some(7), Io({}, [Document(chat, "e"), Document(chat, "g")]), false, [5, 7])
  {
    var items := [Item(5, ["e"]), Item(3, ["c"]), Item(7, ["g"])];
    var e := Io({}, [Document(chat, "e")]);
    var eg := Io({}, [Document(chat, "e"), Document(chat, "g")]);
    assert Stage(Io({}, []), ["e"]) == Io({"e"}, []);
    assert SendFiles(["e"], chat, {}, Io({"e"}, [])) == Sent(e, true);
    assert Stage(e, ["g"]) == Io({"g"}, [Document(chat, "e")]);
    assert SendFiles(["g"], chat, {}, Io({"g"}, [Document(chat, "e")])) == Sent(eg, true);
    assert items[1..] == [Item(3, ["c"]), Item(7, ["g"])] && items[1..][1..] == [Item(7, ["g"])];
    assert StoryLoop([Item(7, ["g"])], Some(5), chat, {}, e) == Walk(Some(7), eg, false, [7]);
    assert StoryLoop(items[1..], Some(5), chat, {}, e) == Walk(Some(7), eg, false, [7]);
  }

  /**
   * Posts at 2 and then 3 against a stored post watermark of 1, and the send
   * of the post at 3 fails: the post at 2 is sent, the exception leaves the
   * pass, and the stored record, being the one the loop updated, already
   * holds 2 in STATE.
   */
  lemma FailedLaterPostScenario(chat: Uid)
    ensures var p := Provider(map["alice" := Profile([Item(2, ["b"]), Item(3, ["c"])], [])], false, {"c"});
            var r := SyncPass(map["alice" := Watermark(Some(1), None)], "alice", chat, p, Io({}, []));
            r == PassResult(map["alice" := Watermark(Some(2), None)], Io({"c"}, [Document(chat, "b")]), Raised)
  {
    var posts := [Item(2, ["b"]), Item(3, ["c"])];
    var b := Io({}, [Document(chat, "b")]);
    assert Stage(Io({}, []), ["b"]) == Io({"b"}, []);
    assert SendFiles(["b"], chat, {"c"}, Io({"b"}, [])) == Sent(b, true);
    assert Stage(b, ["c"]) == Io({"c"}, [Document(chat, "b")]);
    assert SendFiles(["c"], chat, {"c"}, Io({"c"}, [Document(chat, "b")])) == Sent(Io({"c"}, [Document(chat, "b")]), false);
    assert posts[1..] == [Item(3, ["c"])];
    assert PostLoop(posts[1..], Some(2), chat, {"c"}, b) == Walk(Some(2), Io({"c"}, [Document(chat, "b")]), true, [3]);
  }

  /**
   * The same posts, but the send of the newest post's file fails: the
   * exception leaves the pass, nothing is sent, the file stays staged and the
   * watermark stays at 1.
   */
  lemma FailedNewestScenario(chat: Uid)
    ensures var posts := [Item(3, ["c"]), Item(2, ["b"]), Item(1, ["a"])];
            var p := Provider(map["alice" := Profile(posts, [])], false, {"c"});
            var state := map["alice" := Watermark(Some(1), None)];
            var r := SyncPass(state, "alice", chat, p, Io({}, []));
            r == PassResult(state, Io({"c"}, []), Raised)
  {
    var staged := Stage(Io({}, []), ["c"]);
    assert staged == Io({"c"}, []);
    assert SendFiles(["c"], chat, {"c"}, staged) == Sent(staged, false);
    var state := map["alice" := Watermark(Some(1), None)];
    assert state["alice" := Watermark(Some(1), None)] == state;
  }
}
