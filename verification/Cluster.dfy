/** Events and session-cache invalidations spread over the servers of a cluster through publish/subscribe
    channels. Every interleaving of publishing, broker delivery and handling is a run of steps. */
module Cluster {
  type UserId = nat
  const NOBODY: UserId := 0

  datatype Event = Event(id: nat, userId: UserId)

  datatype Action = Broadcast(event: Event) | ClearCache(user: UserId)

  datatype Message = Message(omit: nat, action: Action)

  // How many hubs each server runs, and each server's own hash of user ids.
  datatype Config = Config(hubs: seq<nat>, hash: (nat, UserId) -> nat) {
    ghost predicate Valid() { forall s :: 0 <= s < |hubs| ==> hubs[s] > 0 }

    function HubFor(s: nat, u: UserId): (h: nat)
      requires Valid() && s < |hubs|
      ensures h < hubs[s]
    {
      hash(s, u) % hubs[s]
    }
  }

  // Messages on their way to the broker, messages at each subscriber, the events handed to each hub of
  // each server, and the users whose sessions each server dropped.
  datatype Net = Net(sending: seq<Message>, inbox: seq<seq<Message>>, hubs: seq<seq<seq<Event>>>,
                     cleared: seq<seq<UserId>>)

  ghost predicate Sized(cfg: Config, net: Net) {
    && cfg.Valid() && |net.inbox| == |net.hubs| == |net.cleared| == |cfg.hubs|
    && forall s :: 0 <= s < |cfg.hubs| ==> |net.hubs[s]| == cfg.hubs[s]
  }

  function Silence(cfg: Config): Net {
    Net([], seq(|cfg.hubs|, s => []), seq(|cfg.hubs|, s requires 0 <= s < |cfg.hubs| => seq(cfg.hubs[s], h => [])),
        seq(|cfg.hubs|, s => []))
  }

  // An action carried out on one server alone; the cluster handlers do no more than this.
  function Locally(cfg: Config, net: Net, s: nat, a: Action): (r: Net)
    requires Sized(cfg, net) && s < |cfg.hubs|
    ensures Sized(cfg, r) && r.sending == net.sending && r.inbox == net.inbox
  {
    match a
    case Broadcast(e) =>
      if e.userId != NOBODY then
        var h := cfg.HubFor(s, e.userId);
        net.(hubs := net.hubs[s := net.hubs[s][h := net.hubs[s][h] + [e]]])
      else
        net.(hubs := net.hubs[s := seq(cfg.hubs[s], h requires 0 <= h < cfg.hubs[s] => net.hubs[s][h] + [e])])
    case ClearCache(u) =>
      net.(cleared := net.cleared[s := net.cleared[s] + [u]])
  }

  function Without<T>(q: seq<T>, i: nat): seq<T>
    requires i < |q|
  {
    q[..i] + q[i + 1..]
  }

  // The sends run beside each other and so may reach the broker in any order; each subscriber is
  // handed every message once.
  datatype Step = Publish(origin: nat, action: Action) | Flush(i: nat) | Deliver(s: nat, i: nat)

  predicate Enabled(cfg: Config, net: Net, step: Step) {
    match step
    case Publish(origin, _) => origin < |cfg.hubs|
    case Flush(i) => i < |net.sending|
    case Deliver(s, i) => s < |net.inbox| && i < |net.inbox[s]|
  }

  function Next(cfg: Config, net: Net, step: Step): (r: Net)
    requires Sized(cfg, net) && Enabled(cfg, net, step)
    ensures Sized(cfg, r)
  {
    match step
    case Publish(origin, a) =>
      var acted := Locally(cfg, net, origin, a);
      acted.(sending := acted.sending + [Message(origin, a)])
    case Flush(i) =>
      net.(sending := Without(net.sending, i),
           inbox := seq(|net.inbox|, s requires 0 <= s < |net.inbox| => net.inbox[s] + [net.sending[i]]))
    case Deliver(s, i) =>
      var m := net.inbox[s][i];
      var rest := net.(inbox := net.inbox[s := Without(net.inbox[s], i)]);
      if m.omit == s then rest else Locally(cfg, rest, s, m.action)
  }

  ghost predicate Possible(cfg: Config, net: Net, steps: seq<Step>)
    decreases |steps|
  {
    Sized(cfg, net) &&
    (steps != [] ==> Enabled(cfg, net, steps[0]) && Possible(cfg, Next(cfg, net, steps[0]), steps[1..]))
  }

  ghost function Run(cfg: Config, net: Net, steps: seq<Step>): Net
    requires Possible(cfg, net, steps)
    decreases |steps|
  {
    if steps == [] then net else Run(cfg, Next(cfg, net, steps[0]), steps[1..])
  }

  // ---- Counting ----

  function Times<T(==)>(q: seq<T>, x: T): nat {
    if q == [] then 0 else (if q[0] == x then 1 else 0) + Times(q[1..], x)
  }

  lemma {:induction false} TimesJoin<T>(p: seq<T>, q: seq<T>, x: T)
    ensures Times(p + q, x) == Times(p, x) + Times(q, x)
  {
    if p == [] {
      assert p + q == q;
    } else {
      assert (p + q)[1..] == p[1..] + q;
      TimesJoin(p[1..], q, x);
    }
  }

  // The messages of q that server s will act on, by doing a.
  function Owed(q: seq<Message>, s: nat, a: Action): nat {
    if q == [] then 0 else (if q[0].action == a && q[0].omit != s then 1 else 0) + Owed(q[1..], s, a)
  }

  lemma {:induction false} OwedJoin(p: seq<Message>, q: seq<Message>, s: nat, a: Action)
    ensures Owed(p + q, s, a) == Owed(p, s, a) + Owed(q, s, a)
  {
    if p == [] {
      assert p + q == q;
    } else {
      assert (p + q)[1..] == p[1..] + q;
      OwedJoin(p[1..], q, s, a);
    }
  }

  lemma OwedWithout(q: seq<Message>, i: nat, s: nat, a: Action)
    requires i < |q|
    ensures Owed(q, s, a) == Owed(Without(q, i), s, a) + Owed([q[i]], s, a)
  {
    assert q == q[..i] + ([q[i]] + q[i + 1..]);
    OwedJoin(q[..i], [q[i]] + q[i + 1..], s, a);
    OwedJoin([q[i]], q[i + 1..], s, a);
    OwedJoin(q[..i], q[i + 1..], s, a);
  }

  // Whether a is meant for hub h of server s, and how often it got there.
  predicate Aims(cfg: Config, s: nat, h: nat, a: Action)
    requires cfg.Valid() && s < |cfg.hubs|
  {
    a.ClearCache? || a.event.userId == NOBODY || cfg.HubFor(s, a.event.userId) == h
  }

  function Landed(cfg: Config, net: Net, s: nat, h: nat, a: Action): nat
    requires Sized(cfg, net) && s < |cfg.hubs| && h < cfg.hubs[s]
  {
    match a
    case Broadcast(e) => Times(net.hubs[s][h], e)
    case ClearCache(u) => Times(net.cleared[s], u)
  }

  function Awaited(cfg: Config, net: Net, s: nat, a: Action): nat
    requires Sized(cfg, net) && s < |cfg.hubs|
  {
    Owed(net.sending, s, a) + Owed(net.inbox[s], s, a)
  }

  function Published(steps: seq<Step>, a: Action): nat {
    if steps == [] then 0 else (if steps[0].Publish? && steps[0].action == a then 1 else 0) + Published(steps[1..], a)
  }

  lemma LocallyLands(cfg: Config, net: Net, s: nat, b: Action, s': nat, h: nat, a: Action)
    requires Sized(cfg, net) && s < |cfg.hubs| && s' < |cfg.hubs| && h < cfg.hubs[s']
    ensures Landed(cfg, Locally(cfg, net, s, b), s', h, a) ==
      Landed(cfg, net, s', h, a) + (if s == s' && a == b && Aims(cfg, s', h, a) then 1 else 0)
  {
    match b
    case Broadcast(e) =>
      if a.Broadcast? { TimesJoin(net.hubs[s'][h], [e], a.event); }
    case ClearCache(u) =>
      if a.ClearCache? { TimesJoin(net.cleared[s'], [u], a.user); }
  }

  // One step adds to what has landed exactly what it takes from what is awaited, or what it publishes.
  lemma StepBalances(cfg: Config, net: Net, step: Step, s: nat, h: nat, a: Action)
    requires Sized(cfg, net) && Enabled(cfg, net, step) && s < |cfg.hubs| && h < cfg.hubs[s]
    ensures var r := Next(cfg, net, step);
      && (Aims(cfg, s, h, a) ==>
            Landed(cfg, r, s, h, a) + Awaited(cfg, r, s, a) ==
            Landed(cfg, net, s, h, a) + Awaited(cfg, net, s, a) + Published([step], a))
      && (!Aims(cfg, s, h, a) ==> Landed(cfg, r, s, h, a) == Landed(cfg, net, s, h, a))
  {
    match step
    case Publish(origin, b) =>
      LocallyLands(cfg, net, origin, b, s, h, a);
      OwedJoin(net.sending, [Message(origin, b)], s, a);
    case Flush(i) =>
      OwedWithout(net.sending, i, s, a);
      OwedJoin(net.inbox[s], [net.sending[i]], s, a);
    case Deliver(t, i) =>
      var m := net.inbox[t][i];
      OwedWithout(net.inbox[t], i, s, a);
      if m.omit != t {
        LocallyLands(cfg, net.(inbox := net.inbox[t := Without(net.inbox[t], i)]), t, m.action, s, h, a);
      }
  }

  // Over any run, every hub an action is meant for has it as often as it was published, but for the
  // copies still on their way, and no other hub ever gets it.
  lemma {:induction false} RunBalances(cfg: Config, net: Net, steps: seq<Step>, s: nat, h: nat, a: Action)
    requires Possible(cfg, net, steps) && s < |cfg.hubs| && h < cfg.hubs[s]
    ensures var r := Run(cfg, net, steps);
      && Sized(cfg, r)
      && (Aims(cfg, s, h, a) ==>
            Landed(cfg, r, s, h, a) + Awaited(cfg, r, s, a) ==
            Landed(cfg, net, s, h, a) + Awaited(cfg, net, s, a) + Published(steps, a))
      && (!Aims(cfg, s, h, a) ==> Landed(cfg, r, s, h, a) == Landed(cfg, net, s, h, a))
    decreases |steps|
  {
    if steps != [] {
      StepBalances(cfg, net, steps[0], s, h, a);
      RunBalances(cfg, Next(cfg, net, steps[0]), steps[1..], s, h, a);
    }
  }

  predicate Quiet(net: Net) { net.sending == [] && forall s :: 0 <= s < |net.inbox| ==> net.inbox[s] == [] }

  // Once nothing is on its way: on every server, an event for a user is at the hub where that user's
  // connections register as often as it was published anywhere, and at no other hub; an event for all
  // is at every hub; and sessions were dropped everywhere.
  lemma FanOutOnce(cfg: Config, steps: seq<Step>, s: nat, h: nat, a: Action)
    requires cfg.Valid() && Possible(cfg, Silence(cfg), steps) && Quiet(Run(cfg, Silence(cfg), steps))
    requires s < |cfg.hubs| && h < cfg.hubs[s]
    ensures Sized(cfg, Run(cfg, Silence(cfg), steps))
    ensures Landed(cfg, Run(cfg, Silence(cfg), steps), s, h, a) == if Aims(cfg, s, h, a) then Published(steps, a) else 0
  {
    RunBalances(cfg, Silence(cfg), steps, s, h, a);
  }

  // ---- The spreading ends: handlers never publish again ----

  function Pending(inbox: seq<seq<Message>>): nat {
    if inbox == [] then 0 else |inbox[0]| + Pending(inbox[1..])
  }

  lemma {:induction false} PendingAdds(was: seq<seq<Message>>, now: seq<seq<Message>>)
    requires |was| == |now| && forall s :: 0 <= s < |was| ==> |now[s]| == |was[s]| + 1
    ensures Pending(now) == Pending(was) + |was|
  {
    if was != [] { PendingAdds(was[1..], now[1..]); }
  }

  lemma {:induction false} PendingDrops(was: seq<seq<Message>>, s: nat, q: seq<Message>)
    requires s < |was| && |q| + 1 == |was[s]|
    ensures Pending(was[s := q]) + 1 == Pending(was)
  {
    if s > 0 {
      assert was[s := q][1..] == was[1..][s - 1 := q];
      PendingDrops(was[1..], s - 1, q);
    } else {
      assert was[s := q][1..] == was[1..];
    }
  }

  // Deliveries still to come: one for each message at a subscriber, and one to the broker and one to
  // each server for each message not yet sent.
  function Work(net: Net): nat { (|net.inbox| + 1) * |net.sending| + Pending(net.inbox) }

  lemma WorkShrinks(cfg: Config, net: Net, step: Step)
    requires Sized(cfg, net) && Enabled(cfg, net, step)
    ensures Work(Next(cfg, net, step)) == if step.Publish? then Work(net) + |cfg.hubs| + 1 else Work(net) - 1
  {
    hide Locally, Pending;
    var r := Next(cfg, net, step);
    match step
    case Publish(_, _) => WorkMore(net, r);
    case Flush(i) => PendingAdds(net.inbox, r.inbox); WorkMore(r, net);
    case Deliver(s, i) => PendingDrops(net.inbox, s, Without(net.inbox[s], i));
  }

  // One message more to send, with a delivery to the broker and one to each server to come.
  lemma WorkMore(net: Net, more: Net)
    requires |more.inbox| == |net.inbox| && |more.sending| == |net.sending| + 1
    ensures Work(more) - Pending(more.inbox) == Work(net) - Pending(net.inbox) + |net.inbox| + 1
  {
  }

  lemma WorkDone(net: Net)
    ensures Work(net) == 0 <==> Quiet(net)
  {
    PendingNone(net.inbox);
    if net.sending != [] { assert (|net.inbox| + 1) * |net.sending| >= 1 * 1; }
  }

  lemma {:induction false} PendingNone(inbox: seq<seq<Message>>)
    ensures Pending(inbox) == 0 <==> forall s :: 0 <= s < |inbox| ==> inbox[s] == []
  {
    if inbox != [] {
      PendingNone(inbox[1..]);
      if forall s :: 0 <= s < |inbox[1..]| ==> inbox[1..][s] == [] {
        forall s | 1 <= s < |inbox| ensures inbox[s] == [] { assert inbox[s] == inbox[1..][s - 1]; }
      } else {
        var s :| 0 <= s < |inbox[1..]| && inbox[1..][s] != [];
        assert inbox[s + 1] != [];
      }
    }
  }
}
