/** The downlink half of a carrier: cursor, unacknowledged batch and the one parked poll. */
module Poll {
  import opened Outcomes
  import opened Frames
  import opened Queue

  /** A poll request being served: its `mine` channel and the cursor it came with. */
  datatype PollId = PollId(token: nat, cursor: nat)

  /**
   * pendingFrames, unacked, unackedBase, downCursor, and the poll that owns `superseded` (None when
   * downActive is false).
   */
  datatype Down = Down(queue: seq<Frame>, unacked: seq<Frame>, base: nat, cursor: nat, waiter: Option<PollId>)

  const NEW_DOWN := Down([], [], 0, 0, None)

  datatype Answer =
    | Batch(frames: seq<Frame>, next: nat)
    | Empty
    | Parked
    | Refused
    | Ended
    | LaneClosed
    | Cancelled

  datatype Wake = ContextDone | DisplacedByNewer | Deadline | Notified | SessionDone

  /** What a poll finds at the top of its loop with the lock held. */
  function Loop(d: Down, poll: PollId, batchBytes: int, closed: bool, laneClosed: bool): (r: (Down, Answer))
  {
    if d.waiter != Some(poll) then (d, Empty)
    else if d.queue != [] then
      var n := TakeCount(d.queue, batchBytes);
      (Down(d.queue[n..], d.queue[..n], poll.cursor, d.cursor + 1, None), Batch(d.queue[..n], d.cursor + 1))
    else if closed then (d.(waiter := None), Ended)
    else if laneClosed then (d.(waiter := None), LaneClosed)
    else (d, Parked)
  }

  /** A poll arriving at an open session: replay, refuse, or acknowledge and take over. */
  function Enter(d: Down, poll: PollId, batchBytes: int, laneClosed: bool): (r: (Down, Answer))
  {
    if d.unacked != [] && poll.cursor == d.base then (d, Batch(d.unacked, d.cursor))
    else if poll.cursor != d.cursor then (d, Refused)
    else Loop(d.(unacked := [], waiter := Some(poll)), poll, batchBytes, false, laneClosed)
  }

  /** The frames an arriving poll acknowledges, whose charge is released. */
  function Acknowledged(d: Down, cursor: nat): seq<Frame> {
    if d.unacked != [] && cursor != d.base && cursor == d.cursor then d.unacked else []
  }

  /** A parked poll waking up. */
  function Resume(d: Down, poll: PollId, why: Wake, batchBytes: int, closed: bool,
                  laneClosed: bool): (r: (Down, Answer))
  {
    var mine := d.waiter == Some(poll);
    match why
    case ContextDone => (if mine then d.(waiter := None) else d, Cancelled)
    case DisplacedByNewer => (d, Empty)
    case SessionDone => (if mine then d.(waiter := None) else d, Ended)
    case Deadline =>
      if !mine then (d, Empty)
      else if d.queue != [] then Loop(d, poll, batchBytes, closed, laneClosed)
      else (d.(waiter := None), Empty)
    case Notified => Loop(d, poll, batchBytes, closed, laneClosed)
  }

  /**
   * The hand-over invariant at every release of the lock: an unacknowledged batch sits exactly one
   * cursor back with nobody parked behind it, and the parked poll carries the current cursor.
   */
  predicate HandedOver(d: Down) {
    && (d.unacked != [] ==> d.cursor == d.base + 1)
    && (d.waiter.Some? ==> d.unacked == [] && d.waiter.value.cursor == d.cursor)
  }

  lemma EnterKeepsHandOver(d: Down, poll: PollId, batchBytes: int, laneClosed: bool)
    requires HandedOver(d)
    ensures HandedOver(Enter(d, poll, batchBytes, laneClosed).0)
  {
  }

  lemma ResumeKeepsHandOver(d: Down, poll: PollId, why: Wake, batchBytes: int, closed: bool, laneClosed: bool)
    requires HandedOver(d)
    ensures HandedOver(Resume(d, poll, why, batchBytes, closed, laneClosed).0)
  {
  }

  /** The slot's owner takes the longest front of the queue that makes a batch, and gives up the slot. */
  predicate Takes(d: Down, d': Down, a: Answer, cursor: nat, batchBytes: int) {
    && a.Batch? && IsTake(d.queue, batchBytes, |a.frames|) && d.queue != []
    && a == Batch(d.queue[..|a.frames|], d.cursor + 1)
    && d' == Down(d.queue[|a.frames|..], a.frames, cursor, d.cursor + 1, None)
  }

  /**
   * What a cursor can be answered on arrival. The old cursor replays the whole batch unchanged; the
   * current one is accepted, makes this poll the only owner, and takes a batch if there are frames; every
   * other cursor is refused.
   */
  lemma EnterMeaning(d: Down, poll: PollId, batchBytes: int, laneClosed: bool)
    requires HandedOver(d)
    ensures var (d', a) := Enter(d, poll, batchBytes, laneClosed);
      var cursor := poll.cursor;
      && (a.Refused? <==> cursor != d.cursor && !(d.unacked != [] && cursor == d.base))
      && (a.Refused? ==> d' == d)
      && (d.unacked != [] && cursor == d.base ==> d' == d && a == Batch(d.unacked, cursor + 1))
      && (a.Parked? <==> cursor == d.cursor && d.queue == [] && !laneClosed)
      && (a.Parked? ==> d' == d.(unacked := [], waiter := Some(poll)))
      && (a.LaneClosed? <==> cursor == d.cursor && d.queue == [] && laneClosed)
      && (a.LaneClosed? ==> d' == d.(unacked := [], waiter := None))
      && (cursor == d.cursor && d.queue != [] ==> Takes(d, d', a, cursor, batchBytes))
  {
    TakeIsTake(d.queue, batchBytes);
  }

  /**
   * What wakes the slot's owner and what it then answers. Notified, it looks again: frames make a batch, and
   * without any the session's end, the lane's end or neither decide. At its deadline it takes what is there
   * and leaves either way; its context or the session done, it gives up the slot.
   */
  lemma ResumeMeaning(d: Down, poll: PollId, why: Wake, batchBytes: int, closed: bool, laneClosed: bool)
    requires d.waiter == Some(poll)
    ensures var (d', a) := Resume(d, poll, why, batchBytes, closed, laneClosed);
      match why
      case Notified =>
        && (d.queue != [] ==> Takes(d, d', a, poll.cursor, batchBytes))
        && (d.queue == [] && closed ==> a == Ended && d' == d.(waiter := None))
        && (d.queue == [] && !closed && laneClosed ==> a == LaneClosed && d' == d.(waiter := None))
        && (d.queue == [] && !closed && !laneClosed ==> a == Parked && d' == d)
      case Deadline =>
        && (d.queue != [] ==> Takes(d, d', a, poll.cursor, batchBytes))
        && (d.queue == [] ==> a == Empty && d' == d.(waiter := None))
      case ContextDone => a == Cancelled && d' == d.(waiter := None)
      case SessionDone => a == Ended && d' == d.(waiter := None)
      case DisplacedByNewer => a == Empty && d' == d
  {
    TakeIsTake(d.queue, batchBytes);
  }

  function LeavingAnswer(why: Wake): Answer {
    match why
    case ContextDone => Cancelled
    case SessionDone => Ended
    case _ => Empty
  }

  /** Only the owner of the slot can take a batch; a displaced poll leaves empty and changes nothing. */
  lemma DisplacedPollIsHarmless(d: Down, poll: PollId, why: Wake, batchBytes: int, closed: bool, laneClosed: bool)
    ensures var (d', a) := Resume(d, poll, why, batchBytes, closed, laneClosed);
      && (d.waiter != Some(poll) ==> d' == d && a == LeavingAnswer(why))
      && (a.Batch? ==>
            && d.waiter == Some(poll) && d'.waiter == None
            && a.frames != [] && a.frames + d'.queue == d.queue && d'.unacked == a.frames)
      && (!a.Batch? ==> d'.queue == d.queue && d'.unacked == d.unacked && d'.cursor == d.cursor)
  {
    TakeIsTake(d.queue, batchBytes);
  }
}
