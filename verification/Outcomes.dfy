/** What becomes of a client's request when its channel is read. */
module Outcomes {
  import opened Common
  import opened Collector
  import R = Requests
  import RS = RequestSafety

  /** The status of an agent may have two million bytes; nothing else is limited. */
  function LimitOf(task: R.Task): Option<nat> { if task.kind == R.ForStatus then Some(2_000_000) else None }

  /** A status, and the metadata of a download, are collected; all else is streamed. */
  predicate IsCollected(task: R.Task) { task.kind == R.ForStatus || (task.kind == R.ForDownload && !task.second) }

  /** Where the task is may change, and what it has collected; nothing else about it. */
  ghost predicate SameRequest(x: R.Task, y: R.Task) { y == x.(pc := y.pc, acc := y.acc) }

  ghost predicate HasChannel(r: R.Requests, t: TaskId) {
    t in r.tasks && r.tasks[t].rx.Some? && r.tasks[t].rx.value in r.channels
  }

  ghost function ChannelOf(r: R.Requests, t: TaskId): R.Channel
    requires HasChannel(r, t)
  {
    r.channels[r.tasks[t].rx.value]
  }

  /** Reading the end of the channel: everything that has come is now the answer. */
  ghost predicate EndLeads(task: R.Task, items: seq<Item>, now: R.Task) {
    match task.pc
    case Waiting => now.pc == R.Failing(404)
    case Collecting =>
      if task.kind == R.ForStatus then
        now.pc == R.Exited(Body(Concat(items))) && IsVerdict(items, LimitOf(task), Body(Concat(items)))
      else now.pc == R.Parsing && now.acc == Concat(items) && IsVerdict(items, None, Body(Concat(items)))
    case _ => now.pc == R.Ended
  }

  /** Reading one more item `x`, after `items`. */
  ghost predicate ItemLeads(task: R.Task, items: seq<Item>, x: Item, now: R.Task) {
    match task.pc
    case Waiting =>
      if x.Broken? then now.pc == R.Failing(408)
      else if IsCollected(task) then now.pc == R.Collecting && now.acc == Concat([x])
      else now.pc == R.Streaming
    case Collecting =>
      if x.Broken? then now.pc == R.Exited(Status(500)) && IsVerdict(items + [x], LimitOf(task), Status(500))
      else if Acceptable(items + [x], LimitOf(task)) then now.pc == R.Collecting && now.acc == Concat(items + [x])
      else now.pc == R.TooLarge && IsVerdict(items + [x], LimitOf(task), Status(413))
    case _ => now.pc == R.Streaming
  }

  lemma ReceiveLeads(r: R.Requests, t: TaskId)
    requires RS.Sound(r) && R.CanReceive(r, t)
    ensures HasChannel(r, t) && HasChannel(R.AfterReceive(r, t), t)
    ensures var b, c, d := R.AfterReceive(r, t), ChannelOf(r, t), ChannelOf(R.AfterReceive(r, t), t);
      && SameRequest(r.tasks[t], b.tasks[t]) && d.sender == c.sender && b.responders == r.responders
      && (c.queue == [] ==>
            d.queue == [] && d.delivered == c.delivered && EndLeads(r.tasks[t], c.delivered, b.tasks[t]))
      && (c.queue != [] ==>
            && d.queue == c.queue[1..] && d.delivered == c.delivered + [c.queue[0]]
            && ItemLeads(r.tasks[t], c.delivered, c.queue[0], b.tasks[t]))
  {
    assert RS.TaskOk(r, t);
    hide RS.Sound;
    var task, c := r.tasks[t], r.channels[r.tasks[t].rx.value];
    if c.queue == [] {
      EndOutcome(task, c.delivered);
    } else {
      ItemOutcome(task, c.delivered, c.queue[0]);
    }
    hide R.OnItem, R.OnClose, EndLeads, ItemLeads, RS.Received, RS.TaskOk;
  }

  /** What is known of the items while a task reads. */
  ghost predicate SoFar(task: R.Task, items: seq<Item>) {
    && (task.pc == R.Waiting ==> items == [])
    && (task.pc == R.Collecting ==>
          RS.Begun(items) && Acceptable(items, LimitOf(task)) && task.acc == Concat(items) && IsCollected(task))
    && (task.pc == R.Streaming ==> RS.Begun(items) && !IsCollected(task))
  }

  ghost predicate Reads(pc: R.TaskPc) { pc == R.Waiting || pc == R.Collecting || pc == R.Streaming }

  lemma EndOutcome(task: R.Task, items: seq<Item>)
    requires Reads(task.pc) && SoFar(task, items)
    ensures EndLeads(task, items, task.(pc := R.OnClose(task)))
  {
    hide Acceptable, Concat;
  }

  lemma ItemOutcome(task: R.Task, items: seq<Item>, x: Item)
    requires Reads(task.pc) && SoFar(task, items)
    ensures var (pc, acc) := R.OnItem(task, x); ItemLeads(task, items, x, task.(pc := pc, acc := acc))
  {
    if task.pc == R.Waiting {
      ConcatOne([], x);
      assert [] + [x] == [x] && Concat([]) == [];
      hide Acceptable, IsVerdict, Concat;
    } else if task.pc == R.Collecting {
      CollectedItem(task, items, x);
    }
  }

  lemma CollectedItem(task: R.Task, items: seq<Item>, x: Item)
    requires task.pc == R.Collecting && SoFar(task, items)
    ensures var (pc, acc) := R.OnItem(task, x); ItemLeads(task, items, x, task.(pc := pc, acc := acc))
  {
    TakeOne(items, x, LimitOf(task));
    assert items != [];
    hide Acceptable, IsVerdict, Concat, RS.Begun;
    if Acceptable(items + [x], LimitOf(task)) {
      NoComplaint(items + [x], LimitOf(task), x);
    }
  }

  lemma NoComplaint(items: seq<Item>, limit: Option<nat>, x: Item)
    requires Acceptable(items, limit)
    ensures !IsVerdict(items, limit, Complaint(x))
  {}

  // ---------------------------------------------------------------------------------------------
  // Reading to the end
  // ---------------------------------------------------------------------------------------------

  /** The task reads as long as it can. */
  ghost function ReadToEnd(r: R.Requests, t: TaskId): R.Requests
    decreases if t in r.tasks && Reads(r.tasks[t].pc) && HasChannel(r, t) then 1 + |ChannelOf(r, t).queue| else 0
  {
    if R.CanReceive(r, t) then
      ReceiveShrinks(r, t);
      ReadToEnd(R.AfterReceive(r, t), t)
    else r
  }

  lemma ReceiveShrinks(r: R.Requests, t: TaskId)
    requires R.CanReceive(r, t)
    ensures HasChannel(r, t) && HasChannel(R.AfterReceive(r, t), t)
    ensures var b := R.AfterReceive(r, t);
      !Reads(b.tasks[t].pc) || |ChannelOf(b, t).queue| < |ChannelOf(r, t).queue|
  {
    hide R.OnItem;
  }

  /** The answer for all that has come and is still to come: the closed form, if something is
      collected, and otherwise the end of the stream. */
  ghost predicate Answered(task: R.Task, all: seq<Item>, now: R.Task) {
    if all == [] then now.pc == R.Failing(404)
    else if all[0].Broken? then now.pc == R.Failing(408)
    else if !IsCollected(task) then now.pc == R.Ended
    else if now.pc == R.TooLarge then IsVerdict(all, LimitOf(task), Status(413))
    else if now.pc == R.Parsing then task.kind == R.ForDownload && IsVerdict(all, None, Body(now.acc))
    else
      && (now.pc == R.Exited(Status(500)) || (task.kind == R.ForStatus && now.pc.Exited? && now.pc.outcome.Body?))
      && IsVerdict(all, LimitOf(task), now.pc.outcome)
  }

  lemma EndAnswers(task: R.Task, items: seq<Item>, now: R.Task)
    requires Reads(task.pc) && SoFar(task, items) && EndLeads(task, items, now)
    ensures Answered(task, items, now)
  {
    hide Acceptable, Concat, IsVerdict;
  }

  lemma ItemAnswers(task: R.Task, items: seq<Item>, x: Item, rest: seq<Item>, now: R.Task)
    requires Reads(task.pc) && SoFar(task, items) && ItemLeads(task, items, x, now) && !Reads(now.pc)
    ensures Answered(task, items + [x] + rest, now)
  {
    var all := items + [x] + rest;
    assert task.pc == R.Waiting ==> all[0] == x;
    assert task.pc == R.Collecting ==> all[0] == items[0];
    hide Acceptable, Concat, IsVerdict;
    if task.pc == R.Collecting {
      ComplaintIsFinal(items + [x], rest, LimitOf(task), if x.Broken? then 500 else 413);
    }
  }

  lemma KnownSoFar(r: R.Requests, t: TaskId)
    requires RS.TaskOk(r, t) && HasChannel(r, t) && Reads(r.tasks[t].pc)
    ensures SoFar(r.tasks[t], ChannelOf(r, t).delivered)
  {
    hide RS.Drained, Acceptable, Concat, IsVerdict;
  }

  lemma AnsweredFor(x: R.Task, y: R.Task, all: seq<Item>, now: R.Task)
    requires SameRequest(x, y) && Answered(y, all, now)
    ensures Answered(x, all, now)
  {
    hide IsVerdict;
  }

  lemma StillDead(r: R.Requests, t: TaskId)
    requires RS.Sound(r) && R.CanReceive(r, t) && !R.SenderAlive(r, r.tasks[t].rx.value)
    ensures var b := R.AfterReceive(r, t);
      HasChannel(b, t) && b.tasks[t].rx == r.tasks[t].rx && !R.SenderAlive(b, b.tasks[t].rx.value)
  {
    ReceiveLeads(r, t);
    hide R.AfterReceive, RS.Sound;
  }

  /** Once the sender is gone, a task that reads on gets the answer for everything that was sent:
      whatever has come already and whatever is still queued. */
  lemma {:induction false} ReadsTheAnswer(r: R.Requests, t: TaskId)
    requires RS.Sound(r) && HasChannel(r, t) && Reads(r.tasks[t].pc)
    requires !R.SenderAlive(r, r.tasks[t].rx.value)
    ensures var c, b := ChannelOf(r, t), ReadToEnd(r, t);
      t in b.tasks && Answered(r.tasks[t], c.delivered + c.queue, b.tasks[t])
    decreases |ChannelOf(r, t).queue|
  {
    hide RS.Sound, ReadToEnd, R.AfterReceive, Answered, SameRequest;
    var b := AfterOne(r, t);
    if Reads(b.tasks[t].pc) {
      ReadsTheAnswer(b, t);
      assert ChannelOf(b, t).delivered + ChannelOf(b, t).queue == ChannelOf(r, t).delivered + ChannelOf(r, t).queue;
      AnsweredFor(r.tasks[t], b.tasks[t], ChannelOf(r, t).delivered + ChannelOf(r, t).queue, ReadToEnd(b, t).tasks[t]);
    } else {
      NoMore(b, t);
    }
  }

  /** One reading, after which there is less to read or the answer has been given. */
  lemma AfterOne(r: R.Requests, t: TaskId) returns (b: R.Requests)
    requires RS.Sound(r) && HasChannel(r, t) && Reads(r.tasks[t].pc)
    requires !R.SenderAlive(r, r.tasks[t].rx.value)
    ensures RS.Sound(b) && HasChannel(b, t) && !R.SenderAlive(b, b.tasks[t].rx.value)
    ensures ReadToEnd(r, t) == ReadToEnd(b, t) && SameRequest(r.tasks[t], b.tasks[t])
    ensures var c, d := ChannelOf(r, t), ChannelOf(b, t);
      if Reads(b.tasks[t].pc) then
        && |d.queue| < |c.queue| && d.delivered == c.delivered + [c.queue[0]] && d.queue == c.queue[1..]
      else Answered(r.tasks[t], c.delivered + c.queue, b.tasks[t])
  {
    b := R.AfterReceive(r, t);
    assert RS.TaskOk(r, t);
    KnownSoFar(r, t);
    ReadOn(r, t);
    hide RS.Sound, RS.TaskOk, ReadToEnd, Answered, EndLeads, ItemLeads, SoFar, SameRequest;
    hide R.AfterReceive, R.SenderAlive;
    ReceiveLeads(r, t);
    ReceiveShrinks(r, t);
    StillDead(r, t);
    RS.SoundReceive(r, t);
    var c := ChannelOf(r, t);
    if !Reads(b.tasks[t].pc) {
      Answers(r.tasks[t], c.delivered, c.queue, b.tasks[t]);
    }
  }

  lemma Answers(task: R.Task, items: seq<Item>, queue: seq<Item>, now: R.Task)
    requires Reads(task.pc) && SoFar(task, items) && !Reads(now.pc)
    requires if queue == [] then EndLeads(task, items, now) else ItemLeads(task, items, queue[0], now)
    ensures Answered(task, items + queue, now)
  {
    hide SoFar, EndLeads, ItemLeads, Answered;
    if queue == [] {
      assert items + queue == items;
      EndAnswers(task, items, now);
    } else {
      assert items + queue == items + [queue[0]] + queue[1..];
      ItemAnswers(task, items, queue[0], queue[1..], now);
    }
  }

  lemma ReadOn(r: R.Requests, t: TaskId)
    requires R.CanReceive(r, t)
    ensures ReadToEnd(r, t) == ReadToEnd(R.AfterReceive(r, t), t)
  {
    hide R.AfterReceive;
  }

  lemma NoMore(r: R.Requests, t: TaskId)
    requires t in r.tasks && !Reads(r.tasks[t].pc)
    ensures ReadToEnd(r, t) == r
  {}
}
