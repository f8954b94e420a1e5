/**
 * communication/forum.go: the discussion forum, a table of threads keyed by
 * thread ID, each holding its replies in the order they were added. The
 * message UUIDs and the clock readings are parameters. The source hands out
 * pointers to the stored threads; the model stores thread values, so a caller
 * that mutates a returned pointer is not modelled.
 */
module Forum {
  import opened Wrappers

  datatype ForumMessage = ForumMessage(id: string, sender: string, content: string, timestamp: int)

  datatype ForumThread = ForumThread(
    threadID: string,
    title: string,
    creator: string,
    createdAt: int,
    messages: seq<ForumMessage>)

  /** The thread after one reply: the message appended at the end, nothing else changed. */
  function WithReply(thread: ForumThread, reply: ForumMessage): (after: ForumThread)
    ensures |after.messages| == |thread.messages| + 1
    ensures after.messages[..|thread.messages|] == thread.messages && after.messages[|thread.messages|] == reply
    ensures after.(messages := thread.messages) == thread
  {
    thread.(messages := thread.messages + [reply])
  }

  /** The thread after a series of replies, in call order. */
  function WithReplies(thread: ForumThread, replies: seq<ForumMessage>): ForumThread {
    if replies == [] then thread
    else WithReply(WithReplies(thread, replies[..|replies| - 1]), replies[|replies| - 1])
  }

  /** Every thread is stored under its own ID. */
  predicate KeyedByThreadID(threads: map<string, ForumThread>) {
    forall id :: id in threads ==> threads[id].threadID == id
  }

  class Board {
    var threads: map<string, ForumThread>

    constructor ()
      ensures threads == map[]
    {
      threads := map[];
    }

    /** CreateThread: a thread without messages, stored under its ID in place of any earlier one. */
    method CreateThread(threadID: string, title: string, creator: string, now: int) returns (thread: ForumThread)
      modifies this
      ensures thread == ForumThread(threadID, title, creator, now, [])
      ensures threads == old(threads)[threadID := thread]
    {
      thread := ForumThread(threadID, title, creator, now, []);
      threads := threads[threadID := thread];
    }

    /** AddReply: appends a message to an existing thread; a missing thread is an error and changes nothing. */
    method AddReply(threadID: string, sender: string, content: string, id: string, now: int) returns (err: Option<string>)
      modifies this
      ensures threadID !in old(threads) ==>
                err == Some("thread with id " + threadID + " does not exist") && threads == old(threads)
      ensures threadID in old(threads) ==>
                err.None? && threads == old(threads)[threadID := WithReply(old(threads)[threadID], ForumMessage(id, sender, content, now))]
    {
      if threadID !in threads {
        return Some("thread with id " + threadID + " does not exist");
      }
      var thread := threads[threadID];
      var reply := ForumMessage(id, sender, content, now);
      threads := threads[threadID := thread.(messages := thread.messages + [reply])];
      err := None;
    }

    /** GetThread: the stored thread, or the not-found error. */
    function GetThread(threadID: string): (r: Result<ForumThread, string>)
      reads this
      ensures r.Success? <==> threadID in threads
      ensures r.Success? ==> r.value == threads[threadID]
      ensures r.Failure? ==> r.error == "thread with id " + threadID + " not found"
    {
      if threadID in threads then Success(threads[threadID]) else Failure("thread with id " + threadID + " not found")
    }

    /** GetAllThreads: one entry per stored thread, in the map's visiting order. */
    method GetAllThreads() returns (list: seq<ForumThread>)
      ensures |list| == |threads|
      ensures forall t :: t in list <==> t in threads.Values
      ensures KeyedByThreadID(threads) ==> forall i, j :: 0 <= i < j < |list| ==> list[i] != list[j]
    {
      list := [];
      var remaining := threads.Keys;
      ghost var visited: seq<string> := [];
      while remaining != {}
        invariant remaining <= threads.Keys
        invariant |visited| == |list| && (forall k :: 0 <= k < |list| ==> visited[k] in threads && list[k] == threads[visited[k]])
        invariant forall k :: 0 <= k < |visited| ==> visited[k] !in remaining
        invariant forall i, j :: 0 <= i < j < |visited| ==> visited[i] != visited[j]
        invariant forall id :: id in threads && id !in remaining ==> id in visited
        invariant |list| + |remaining| == |threads|
        decreases |remaining|
      {
        var id :| id in remaining;
        list := list + [threads[id]];
        visited := visited + [id];
        remaining := remaining - {id};
      }
      forall t | t in threads.Values ensures t in list {
        var id :| id in threads && threads[id] == t;
        var k :| 0 <= k < |visited| && visited[k] == id;
        assert list[k] == t;
      }
    }
  }

  // ---------------------------------------------------------- properties

  /** Replies land in call order after the messages already there, and nothing else of the thread changes. */
  lemma {:induction false} RepliesInOrder(thread: ForumThread, replies: seq<ForumMessage>)
    ensures WithReplies(thread, replies).messages == thread.messages + replies
    ensures WithReplies(thread, replies).(messages := thread.messages) == thread
  {
    if replies != [] {
      var init := replies[..|replies| - 1];
      RepliesInOrder(thread, init);
      assert replies == init + [replies[|replies| - 1]];
    }
  }

  /** After k replies to a freshly created thread it holds exactly those k messages, in order. */
  lemma FreshThreadReplies(threadID: string, title: string, creator: string, now: int, replies: seq<ForumMessage>)
    ensures WithReplies(ForumThread(threadID, title, creator, now, []), replies).messages == replies
  {
    RepliesInOrder(ForumThread(threadID, title, creator, now, []), replies);
  }

  /** Creating and replying keep every thread under its own ID. */
  lemma KeyedByThreadIDPreserved(threads: map<string, ForumThread>, id: string, t: ForumThread, reply: ForumMessage)
    requires KeyedByThreadID(threads)
    ensures t.threadID == id ==> KeyedByThreadID(threads[id := t])
    ensures id in threads ==> KeyedByThreadID(threads[id := WithReply(threads[id], reply)])
  {
  }
}
