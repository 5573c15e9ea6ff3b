/**
 * The channel transcript that the cortex chat injects into its system
 * prompt when it is opened on a channel page (`load_channel_transcript`).
 */
module Transcript {
  import opened Wrappers

  /**
   * One entry of a channel's timeline, reduced to the fields the transcript
   * uses: a chat message, a branch run with its conclusion once it has one,
   * or a worker run with its result once it has one.
   */
  datatype TimelineItem =
    | Message(role: string, content: string, senderName: Option<string>)
    | BranchRun(description: string, conclusion: Option<string>)
    | WorkerRun(task: string, result: Option<string>)

  /** True when the item adds text to the transcript: every message, and a run only once it has an outcome. */
  predicate Contributes(item: TimelineItem)
  {
    match item
    case Message(_, _, _) => true
    case BranchRun(_, conclusion) => conclusion.Some?
    case WorkerRun(_, result) => result.Some?
  }

  /** The text one timeline item adds to the transcript. */
  function Fragment(item: TimelineItem): string
  {
    match item
    case Message(role, content, senderName) =>
      "**" + senderName.GetOr(role) + "**: " + content + "\n\n"
    case BranchRun(description, conclusion) =>
      if conclusion.Some? then "*[Branch: " + description + "]*: " + conclusion.value + "\n\n" else ""
    case WorkerRun(task, result) =>
      if result.Some? then "*[Worker: " + task + "]*: " + result.value + "\n\n" else ""
  }

  /**
   * An item adds text exactly when it contributes; what it adds then ends in
   * a blank line and starts with the header of its kind: the shown name in
   * bold for a message, the bracketed description or task for a run. So the
   * kind of every entry can be told from the transcript.
   */
  lemma FragmentShape(item: TimelineItem)
    ensures Contributes(item) <==> Fragment(item) != ""
    ensures Contributes(item) ==> |Fragment(item)| >= 2 && Fragment(item)[|Fragment(item)| - 2..] == "\n\n"
    ensures item.Message? ==> "**" + item.senderName.GetOr(item.role) + "**: " <= Fragment(item)
    ensures item.BranchRun? && item.conclusion.Some? ==> "*[Branch: " + item.description + "]*: " <= Fragment(item)
    ensures item.WorkerRun? && item.result.Some? ==> "*[Worker: " + item.task + "]*: " <= Fragment(item)
    ensures Contributes(item) ==> Fragment(item)[..2] == (if item.Message? then "**" else "*[")
  {
    var f := Fragment(item);
    match item
    case Message(role, content, senderName) =>
      var name := senderName.GetOr(role);
      assert f == "**" + (name + "**: " + content + "\n\n");
      assert f == ("**" + name + "**: " + content) + "\n\n";
    case BranchRun(description, conclusion) =>
      if conclusion.Some? {
        assert f == "*[" + ("Branch: " + description + "]*: " + conclusion.value + "\n\n");
        assert f == ("*[Branch: " + description + "]*: " + conclusion.value) + "\n\n";
      }
    case WorkerRun(task, result) =>
      if result.Some? {
        assert f == "*[" + ("Worker: " + task + "]*: " + result.value + "\n\n");
        assert f == ("*[Worker: " + task + "]*: " + result.value) + "\n\n";
      }
  }

  /** The transcript of a timeline: the fragments of its items, concatenated in timeline order. */
  function Render(items: seq<TimelineItem>): string
  {
    if items == [] then "" else Fragment(items[0]) + Render(items[1..])
  }

  /** Rendering distributes over concatenation of timelines. */
  lemma {:induction false} RenderConcat(a: seq<TimelineItem>, b: seq<TimelineItem>)
    ensures Render(a + b) == Render(a) + Render(b)
  {
    if a == [] {
      assert a + b == b;
    } else {
      assert (a + b)[1..] == a[1..] + b;
      RenderConcat(a[1..], b);
    }
  }

  /** Item `i` adds its fragment after the transcript of the items before it and before that of the items after it. */
  lemma RenderAround(items: seq<TimelineItem>, i: nat)
    requires i < |items|
    ensures Render(items) == Render(items[..i]) + Fragment(items[i]) + Render(items[i + 1..])
  {
    assert items == items[..i] + ([items[i]] + items[i + 1..]);
    RenderConcat(items[..i], [items[i]] + items[i + 1..]);
    assert ([items[i]] + items[i + 1..])[1..] == items[i + 1..];
  }

  /** The items of `items` that add text, in timeline order. */
  function Contributing(items: seq<TimelineItem>): (r: seq<TimelineItem>)
    ensures |r| <= |items|
    ensures forall k :: 0 <= k < |r| ==> Contributes(r[k]) && r[k] in items
  {
    if items == [] then []
    else (if Contributes(items[0]) then [items[0]] else []) + Contributing(items[1..])
  }

  /** Runs without an outcome leave no trace: the transcript is that of the contributing items alone. */
  lemma {:induction false} RenderContributing(items: seq<TimelineItem>)
    ensures Render(items) == Render(Contributing(items))
  {
    if items != [] {
      RenderContributing(items[1..]);
      FragmentShape(items[0]);
      var rest := Contributing(items[1..]);
      if Contributes(items[0]) {
        assert ([items[0]] + rest)[1..] == rest;
      } else {
        assert [] + rest == rest;
      }
    }
  }

  /** The transcript is empty exactly when no item contributes. */
  lemma {:induction false} RenderEmptyIff(items: seq<TimelineItem>)
    ensures Render(items) == "" <==> forall k :: 0 <= k < |items| ==> !Contributes(items[k])
  {
    if items != [] {
      RenderEmptyIff(items[1..]);
      FragmentShape(items[0]);
      forall k | 1 <= k < |items|
        ensures items[k] == items[1..][k - 1]
      {
      }
    }
  }

  /**
   * Formats a loaded timeline as the transcript (`load_channel_transcript`).
   * `timeline` is the outcome of loading the channel's last 50 timeline
   * items: a load error or an empty timeline gives no transcript, and any
   * other timeline gives its rendering, even when that is empty.
   */
  method LoadChannelTranscript(timeline: Result<seq<TimelineItem>, string>) returns (transcript: Option<string>)
    ensures timeline.Failure? ==> transcript == None
    ensures timeline.Success? ==> (transcript.Some? <==> timeline.value != [])
    ensures transcript.Some? ==> transcript.value == Render(timeline.value)
  {
    match timeline
    case Failure(_) =>
      transcript := None;
    case Success(items) =>
      if items == [] {
        return None;
      }
      var text := "";
      for i := 0 to |items|
        invariant text == Render(items[..i])
      {
        var item := items[i];
        match item {
          case Message(role, content, senderName) =>
            var name := senderName.GetOr(role);
            text := text + ("**" + name + "**: " + content + "\n\n");
          case BranchRun(description, conclusion) =>
            if conclusion.Some? {
              text := text + ("*[Branch: " + description + "]*: " + conclusion.value + "\n\n");
            }
          case WorkerRun(task, result) =>
            if result.Some? {
              text := text + ("*[Worker: " + task + "]*: " + result.value + "\n\n");
            }
        }
        assert items[..i + 1] == items[..i] + [item];
        RenderConcat(items[..i], [item]);
      }
      assert items[..|items|] == items;
      transcript := Some(text);
  }
}
