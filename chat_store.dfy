/**
 * The persisted cortex chat store (`CortexChatStore`): a table of chat
 * messages, one row per saved message, that `save_message` appends to and
 * `load_history` reads back for one thread.
 */
module ChatStore {
  import opened Wrappers

  /**
   * One persisted cortex chat message (`CortexChatMessage`). The row's
   * creation time is not kept: rows are ordered by the order they were saved.
   */
  datatype ChatMessage = ChatMessage(
    id: string,
    threadId: string,
    role: string,
    content: string,
    channelContext: Option<string>)

  /** The rows of thread `threadId`, in the order they were saved. */
  function ThreadOf(rows: seq<ChatMessage>, threadId: string): (r: seq<ChatMessage>)
    ensures |r| <= |rows|
    ensures forall k :: 0 <= k < |r| ==> r[k].threadId == threadId
  {
    if rows == [] then []
    else
      var last := rows[|rows| - 1];
      ThreadOf(rows[..|rows| - 1], threadId) + (if last.threadId == threadId then [last] else [])
  }

  /** Every row of thread `threadId` is kept by the selection. */
  lemma {:induction false} ThreadOfComplete(rows: seq<ChatMessage>, threadId: string)
    ensures forall j :: 0 <= j < |rows| && rows[j].threadId == threadId ==> rows[j] in ThreadOf(rows, threadId)
  {
    if rows != [] {
      var init := rows[..|rows| - 1];
      ThreadOfComplete(init, threadId);
      forall j | 0 <= j < |rows| && rows[j].threadId == threadId
        ensures rows[j] in ThreadOf(rows, threadId)
      {
        if j < |init| {
          assert rows[j] == init[j];
        }
      }
    }
  }

  /** Selecting one thread distributes over concatenation of the table. */
  lemma {:induction false} ThreadOfConcat(a: seq<ChatMessage>, b: seq<ChatMessage>, threadId: string)
    ensures ThreadOf(a + b, threadId) == ThreadOf(a, threadId) + ThreadOf(b, threadId)
  {
    if b == [] {
      assert a + b == a;
    } else {
      var b' := b[..|b| - 1];
      assert (a + b)[..|a + b| - 1] == a + b';
      ThreadOfConcat(a, b', threadId);
    }
  }

  /**
   * Saving messages of one thread adds them to the end of that thread and
   * leaves every other thread as it was.
   */
  lemma AppendToThread(rows: seq<ChatMessage>, added: seq<ChatMessage>, threadId: string)
    requires forall k :: 0 <= k < |added| ==> added[k].threadId == threadId
    ensures ThreadOf(rows + added, threadId) == ThreadOf(rows, threadId) + added
    ensures forall t :: t != threadId ==> ThreadOf(rows + added, t) == ThreadOf(rows, t)
  {
    ThreadOfConcat(rows, added, threadId);
    ThreadOfOnly(added, threadId);
    forall t | t != threadId
      ensures ThreadOf(rows + added, t) == ThreadOf(rows, t)
    {
      ThreadOfConcat(rows, added, t);
      ThreadOfNone(added, t);
    }
  }

  /** A table whose rows all belong to `threadId` is that thread. */
  lemma {:induction false} ThreadOfOnly(rows: seq<ChatMessage>, threadId: string)
    requires forall k :: 0 <= k < |rows| ==> rows[k].threadId == threadId
    ensures ThreadOf(rows, threadId) == rows
  {
    if rows != [] {
      ThreadOfOnly(rows[..|rows| - 1], threadId);
    }
  }

  /** A table with no row of thread `t` has an empty thread `t`. */
  lemma {:induction false} ThreadOfNone(rows: seq<ChatMessage>, t: string)
    requires forall k :: 0 <= k < |rows| ==> rows[k].threadId != t
    ensures ThreadOf(rows, t) == []
  {
    if rows != [] {
      ThreadOfNone(rows[..|rows| - 1], t);
    }
  }

  /** `s` in reverse order: position `i` holds position `|s| - 1 - i` of `s`. */
  function Reverse<T>(s: seq<T>): seq<T>
  {
    seq(|s|, i requires 0 <= i < |s| => s[|s| - 1 - i])
  }

  /** Reversing `init + [last]` puts `last` first. */
  lemma ReverseSnoc<T>(init: seq<T>, last: T)
    ensures Reverse(init + [last]) == [last] + Reverse(init)
  {
    var s := init + [last];
    forall i | 1 <= i < |s|
      ensures Reverse(s)[i] == Reverse(init)[i - 1]
    {
      assert s[|s| - 1 - i] == init[|init| - 1 - (i - 1)];
    }
  }

  /** Reversal changes the order only: the multiset of elements is unchanged. */
  lemma {:induction false} ReverseMultiset<T>(s: seq<T>)
    ensures multiset(Reverse(s)) == multiset(s)
  {
    if s != [] {
      var init := s[..|s| - 1];
      ReverseMultiset(init);
      assert s == init + [s[|s| - 1]];
      ReverseSnoc(init, s[|s| - 1]);
    }
  }

  /** Reversing twice gives back the original sequence. */
  lemma ReverseReverse<T>(s: seq<T>)
    ensures Reverse(Reverse(s)) == s
  {
    var r := Reverse(s);
    forall i | 0 <= i < |s|
      ensures Reverse(r)[i] == s[i]
    {
      assert Reverse(r)[i] == r[|s| - 1 - i];
    }
  }

  /** The number of rows SQLite's `LIMIT limit` lets through out of `available`: a negative limit puts no bound. */
  function RowLimit(limit: int, available: nat): (k: nat)
    ensures k <= available && (limit >= 0 ==> k <= limit)
    ensures k == available || k == limit
  {
    if limit < 0 || available <= limit then available else limit
  }

  /** The last `k` elements of `s` (all of `s` when it is shorter), oldest first. */
  function Latest<T>(s: seq<T>, k: nat): seq<T>
  {
    if k < |s| then s[|s| - k..] else s
  }

  /**
   * The rows the history query returns: the rows of thread `threadId`,
   * newest first, at most `limit` of them (`ORDER BY created_at DESC LIMIT ?`).
   */
  function NewestFirst(rows: seq<ChatMessage>, threadId: string, limit: int): (r: seq<ChatMessage>)
    ensures |r| == RowLimit(limit, |ThreadOf(rows, threadId)|)
    ensures forall k :: 0 <= k < |r| ==>
      r[k].threadId == threadId && r[k] == ThreadOf(rows, threadId)[|ThreadOf(rows, threadId)| - 1 - k]
  {
    var thread := ThreadOf(rows, threadId);
    Reverse(thread)[..RowLimit(limit, |thread|)]
  }

  /** The first `k` elements of the reversal, reversed again, are the last `k` elements, oldest first. */
  lemma ReversedPrefix<T>(s: seq<T>, k: nat)
    requires k <= |s|
    ensures Reverse(Reverse(s)[..k]) == Latest(s, k)
  {
    var p := Reverse(s)[..k];
    var latest := Latest(s, k);
    assert latest == s[|s| - k..];
    forall i | 0 <= i < k
      ensures Reverse(p)[i] == latest[i]
    {
      assert Reverse(p)[i] == p[k - 1 - i] == Reverse(s)[k - 1 - i];
    }
  }

  /** Putting the newest-first rows back in order gives the latest rows of the thread, oldest first. */
  lemma NewestFirstReversed(rows: seq<ChatMessage>, threadId: string, limit: int)
    ensures Reverse(NewestFirst(rows, threadId, limit))
         == Latest(ThreadOf(rows, threadId), RowLimit(limit, |ThreadOf(rows, threadId)|))
  {
    var thread := ThreadOf(rows, threadId);
    ReversedPrefix(thread, RowLimit(limit, |thread|));
  }

  /** Reverses the array `a` in place, as `Vec::reverse`. */
  method ReverseInPlace<T>(a: array<T>)
    modifies a
    ensures a[..] == Reverse(old(a[..]))
    ensures multiset(a[..]) == multiset(old(a[..]))
  {
    var n := a.Length;
    ghost var before := a[..];
    var lo, hi := 0, n;
    while lo + 1 < hi
      invariant 0 <= lo <= hi <= n && lo + hi == n
      invariant forall k :: 0 <= k < lo || hi <= k < n ==> a[k] == before[n - 1 - k]
      invariant forall k :: lo <= k < hi ==> a[k] == before[k]
    {
      var x, y := a[lo], a[hi - 1];
      a[lo] := y;
      a[hi - 1] := x;
      lo, hi := lo + 1, hi - 1;
    }
    assert forall k :: 0 <= k < n ==> a[k] == before[n - 1 - k];
    assert a[..] == Reverse(before);
    ReverseMultiset(before);
  }

  /** The cortex chat message table. */
  class CortexChatStore {
    /** Every saved row, of every thread, oldest first. */
    var rows: seq<ChatMessage>

    /** A store over a table that already holds `rows` (`CortexChatStore::new` on an open pool). */
    constructor (rows: seq<ChatMessage>)
      ensures this.rows == rows
    {
      this.rows := rows;
    }

    /**
     * Saves one message to a thread and returns its id. The generated id is
     * the parameter `id`; `fault` is the database error, if the insert fails.
     */
    method SaveMessage(id: string, threadId: string, role: string, content: string,
                       channelContext: Option<string>, fault: Option<string>)
      returns (r: Result<string, string>)
      modifies this
      ensures fault.None? ==> r == Success(id)
      ensures fault.None? ==> rows == old(rows) + [ChatMessage(id, threadId, role, content, channelContext)]
      ensures fault.Some? ==> r == Failure(fault.value) && rows == old(rows)
    {
      if fault.Some? {
        return Failure(fault.value);
      }
      rows := rows + [ChatMessage(id, threadId, role, content, channelContext)];
      r := Success(id);
    }

    /**
     * Loads the history of a thread: the query gives the latest `limit` rows
     * newest first, which are then reversed in place into chronological
     * order. `fault` is the database error, if the query fails.
     */
    method LoadHistory(threadId: string, limit: int, fault: Option<string>)
      returns (r: Result<seq<ChatMessage>, string>)
      ensures fault.Some? ==> r == Failure(fault.value)
      ensures fault.None? ==> r.Success?
      ensures fault.None? ==>
        r.value == Latest(ThreadOf(rows, threadId), RowLimit(limit, |ThreadOf(rows, threadId)|))
    {
      if fault.Some? {
        return Failure(fault.value);
      }
      var newest := NewestFirst(rows, threadId, limit);
      var messages := new ChatMessage[|newest|](i requires 0 <= i < |newest| => newest[i]);
      assert messages[..] == newest;
      ReverseInPlace(messages);
      NewestFirstReversed(rows, threadId, limit);
      r := Success(messages[..]);
    }
  }
}
