/** The write pump of a web-socket connection: it numbers the events it writes, and when the channel it
    reads from fills up it passes inbox messages over. */
module ConnPump {
  import opened HubState

  const SEND_SLOW_WARN := SEND_QUEUE_SIZE * 50 / 100

  // A message received, and how many were still waiting behind it.
  datatype Received = Received(msg: Message, waiting: nat)

  datatype Frame = Numbered(msg: Message, number: nat) | Unnumbered(msg: Message)

  predicate PassedOver(r: Received) { r.waiting >= SEND_SLOW_WARN && r.msg.Event? && r.msg.inbox }

  function Kept(rs: seq<Received>): seq<Message> {
    if rs == [] then []
    else Kept(rs[..|rs| - 1]) + (if PassedOver(rs[|rs| - 1]) then [] else [rs[|rs| - 1].msg])
  }

  function Messages(frames: seq<Frame>): (ms: seq<Message>)
    ensures |ms| == |frames|
  {
    if frames == [] then [] else Messages(frames[..|frames| - 1]) + [frames[|frames| - 1].msg]
  }

  function Events(frames: seq<Frame>): nat {
    if frames == [] then 0 else Events(frames[..|frames| - 1]) + (if frames[|frames| - 1].msg.Event? then 1 else 0)
  }

  // Each event is numbered by how many came before it on the wire.
  ghost predicate InSequence(frames: seq<Frame>, from: nat) {
    forall i :: 0 <= i < |frames| ==>
      if frames[i].msg.Event? then frames[i] == Numbered(frames[i].msg, from + Events(frames[..i]))
      else frames[i].Unnumbered?
  }

  // What the pump meets in turn: a message, and whether its write fails; the closed channel; the end of the
  // read pump; or the tick of the session check, and whether there is a session token.
  datatype Meeting =
    | Message(received: Received, fails: bool)
    | ChannelClosed
    | ReadEnded
    | Tick(token: bool)

  // The messages of a run that the pump writes, up to where it ends. Its ticker is stopped by the first
  // check, so that a later tick is none.
  function Written(ms: seq<Meeting>, ticking: bool): seq<HubState.Message> {
    if ms == [] then []
    else match ms[0]
      case Message(r, fails) =>
        if PassedOver(r) then Written(ms[1..], ticking)
        else if fails then []
        else [r.msg] + Written(ms[1..], ticking)
      case ChannelClosed => []
      case ReadEnded => []
      case Tick(token) => if ticking && !token then [] else Written(ms[1..], false)
  }

  function ReceivedOf(ms: seq<Meeting>): seq<Received> {
    if ms == [] then [] else (if ms[0].Message? then [ms[0].received] else []) + ReceivedOf(ms[1..])
  }

  class Pump {
    var sequence: nat

    constructor ()
      ensures sequence == 0
    {
      sequence := 0;
    }

    method Run(ms: seq<Meeting>) returns (wire: seq<Frame>)
      modifies this
      ensures Messages(wire) == Written(ms, true) && InSequence(wire, old(sequence))
      ensures old(sequence) + Events(wire) <= sequence
    {
      hide Messages, Events, InSequence;
      wire := [];
      var ticking := true;
      NothingWritten(sequence);
      assert ms[0..] == ms;
      for i := 0 to |ms|
        invariant Messages(wire) + Written(ms[i..], ticking) == Written(ms, true) && InSequence(wire, old(sequence))
        invariant sequence == old(sequence) + Events(wire)
      {
        assert ms[i..][0] == ms[i] && ms[i..][1..] == ms[i + 1..];
        match ms[i]
        case ChannelClosed => return;
        case ReadEnded => return;
        case Tick(token) =>
          if ticking && !token { return; }
          ticking := false;
        case Message(r, fails) =>
          var skipSend := false;
          if r.waiting >= SEND_SLOW_WARN {
            if r.msg.Event? && r.msg.inbox { skipSend := true; }
          }
          if !skipSend {
            var frame := if r.msg.Event? then Numbered(r.msg, sequence) else Unnumbered(r.msg);
            OneMore(wire, frame, old(sequence));
            if r.msg.Event? { sequence := sequence + 1; }
            if fails { return; }
            wire := wire + [frame];
          }
      }
    }
  }

  // Until it ends the pump writes, in order, what it receives but for the messages passed over.
  lemma {:induction false} WrittenIsKept(ms: seq<Meeting>, ticking: bool)
    ensures Written(ms, ticking) <= Kept(ReceivedOf(ms))
    ensures RunsOn(ms, ticking) ==> Written(ms, ticking) == Kept(ReceivedOf(ms))
  {
    hide Kept;
    NothingKept();
    if ms != [] {
      match ms[0]
      case Message(r, fails) =>
        WrittenIsKept(ms[1..], ticking);
        KeptJoin([r], ReceivedOf(ms[1..]));
        KeptOne(r);
      case Tick(token) =>
        WrittenIsKept(ms[1..], false);
        assert [] + ReceivedOf(ms[1..]) == ReceivedOf(ms[1..]);
      case _ =>
    }
  }

  // Whether the pump is still there after these.
  predicate RunsOn(ms: seq<Meeting>, ticking: bool) {
    ms == [] || match ms[0]
      case Message(r, fails) => (PassedOver(r) || !fails) && RunsOn(ms[1..], ticking)
      case ChannelClosed => false
      case ReadEnded => false
      case Tick(token) => (!ticking || token) && RunsOn(ms[1..], false)
  }

  lemma {:induction false} WrittenJoin(pre: seq<Meeting>, rest: seq<Meeting>, ticking: bool)
    ensures Written(pre + rest, ticking) == Written(pre, ticking) +
      if RunsOn(pre, ticking) then Written(rest, ticking && Tick(true) !in pre) else []
  {
    if pre == [] {
      assert pre + rest == rest;
    } else {
      assert (pre + rest)[1..] == pre[1..] + rest && pre == [pre[0]] + pre[1..];
      match pre[0]
      case Message(r, fails) => WrittenJoin(pre[1..], rest, ticking);
      case Tick(token) => WrittenJoin(pre[1..], rest, false);
      case _ =>
    }
  }

  /** A pump that is still there writes on, except that a tick after the loss of the session token ends it:
      exactly when it is the first tick, since an earlier one has stopped the ticker. */
  lemma SessionCheck(pre: seq<Meeting>, r: Received)
    requires RunsOn(pre, true) && !PassedOver(r)
    ensures Written(pre + [Tick(false), Message(r, false)], true) ==
      Written(pre, true) + if Tick(true) in pre then [r.msg] else []
    ensures Written(pre + [Tick(false), Message(r, false)], true) == Written(pre, true) <==> Tick(true) !in pre
  {
    var rest := [Tick(false), Message(r, false)];
    WrittenJoin(pre, rest, true);
    assert rest[0] == Tick(false) && rest[1..] == [Message(r, false)] && rest[1..][1..] == [];
    assert Written(rest[1..], false) == [r.msg];
  }

  /** The token is lost between two ticks, and the pump writes on. */
  lemma LateCheckPasses(r: Received)
    requires !PassedOver(r)
    ensures Written([Tick(true)] + [Tick(false), Message(r, false)], true) == [r.msg]
  {
    assert [Tick(true)][1..] == [];
    SessionCheck([Tick(true)], r);
  }

  lemma NothingKept()
    ensures Kept([]) == []
  {
  }

  // Inbox messages alone are passed over, and only while 128 or more messages wait.
  lemma KeptOne(r: Received)
    ensures Kept([r]) == if r.waiting >= 128 && r.msg.Event? && r.msg.inbox then [] else [r.msg]
  {
    assert [r][..0] == [];
  }

  lemma {:induction false} KeptJoin(a: seq<Received>, b: seq<Received>)
    ensures Kept(a + b) == Kept(a) + Kept(b)
  {
    if b == [] {
      assert a + b == a;
    } else {
      var front := b[..|b| - 1];
      assert (a + b)[..|a + b| - 1] == a + front;
      KeptJoin(a, front);
    }
  }

  lemma NothingWritten(from: nat)
    ensures Messages([]) == [] && Events([]) == 0 && InSequence([], from)
  {
  }

  lemma OneMore(wire: seq<Frame>, frame: Frame, from: nat)
    requires InSequence(wire, from)
    requires frame == if frame.msg.Event? then Numbered(frame.msg, from + Events(wire)) else Unnumbered(frame.msg)
    ensures InSequence(wire + [frame], from)
    ensures Messages(wire + [frame]) == Messages(wire) + [frame.msg]
    ensures Events(wire + [frame]) == Events(wire) + (if frame.msg.Event? then 1 else 0)
  {
    var more := wire + [frame];
    assert more[..|wire|] == wire;
    forall i | 0 <= i < |more|
      ensures
        if more[i].msg.Event? then more[i] == Numbered(more[i].msg, from + Events(more[..i])) else more[i].Unnumbered?
    {
      assert more[..i] == if i < |wire| then wire[..i] else wire;
    }
  }

  // The numbers of the events on the wire run on without a gap, so that what was passed over leaves none.
  lemma NumbersHaveNoGap(wire: seq<Frame>, from: nat, i: nat, j: nat)
    requires InSequence(wire, from) && i < j < |wire| && wire[i].msg.Event? && wire[j].msg.Event?
    requires forall k :: i < k < j ==> !wire[k].msg.Event?
    ensures wire[j].number == wire[i].number + 1
  {
    NoEventsBetween(wire, i + 1, j);
    assert wire[..i + 1][..i] == wire[..i];
  }

  lemma {:induction false} NoEventsBetween(wire: seq<Frame>, i: nat, j: nat)
    requires i <= j <= |wire| && forall k :: i <= k < j ==> !wire[k].msg.Event?
    ensures Events(wire[..i]) == Events(wire[..j])
    decreases j - i
  {
    if i < j {
      NoEventsBetween(wire, i, j - 1);
      assert wire[..j][..j - 1] == wire[..j - 1];
    }
  }

  // While the channel stays less than half full nothing is passed over.
  lemma {:induction false} NothingPassedOver(rs: seq<Received>)
    requires forall r :: r in rs ==> r.waiting < SEND_SLOW_WARN || !r.msg.Event? || !r.msg.inbox
    ensures |Kept(rs)| == |rs| && forall i :: 0 <= i < |rs| ==> Kept(rs)[i] == rs[i].msg
  {
    if rs != [] {
      assert rs[|rs| - 1] in rs;
      NothingPassedOver(rs[..|rs| - 1]);
    }
  }
}
