/** The buffered view counter: views of a post are counted in a cache entry that expires, and written to the
    database five at a time. */
module ViewCounter {
  import opened Wrappers

  type PostId = nat
  // A viewer is a user or, failing that, an address; a view by neither is not counted.
  type Viewer = nat

  const POST_COUNTER_MAX := 5

  datatype Key = Key(post: PostId, viewer: Viewer)

  // The cache: who saw what of late, and the counters. The database: each post's views, and the
  // history, which has a row of five views for each write.
  datatype State = State(seen: set<Key>, counters: map<PostId, nat>, views: map<PostId, nat>, history: seq<PostId>)

  datatype Op = View(post: PostId, viewer: Option<Viewer>) | ForgetViewer(key: Key) | ExpireCounter(post: PostId)

  predicate Admitted(st: State, op: Op) { op.View? && op.viewer.Some? && Key(op.post, op.viewer.value) !in st.seen }

  function Buffered(st: State, p: PostId): nat { if p in st.counters then st.counters[p] else 0 }

  function Views(st: State, p: PostId): nat { if p in st.views then st.views[p] else 0 }

  function Counted(st: State, p: PostId): State {
    // a missing counter is set to one, and then incremented like any other
    if p !in st.counters then st.(counters := st.counters[p := 2])
    else if st.counters[p] + 1 >= POST_COUNTER_MAX then
      st.(counters := st.counters[p := 0], views := st.views[p := Views(st, p) + POST_COUNTER_MAX],
          history := st.history + [p])
    else st.(counters := st.counters[p := st.counters[p] + 1])
  }

  function Do(st: State, op: Op): State {
    match op
    case View(p, viewer) =>
      if Admitted(st, op) then Counted(st.(seen := st.seen + {Key(p, viewer.value)}), p) else st
    case ForgetViewer(key) => st.(seen := st.seen - {key})
    case ExpireCounter(p) => st.(counters := st.counters - {p})
  }

  function Run(st: State, ops: seq<Op>): State
    decreases |ops|
  {
    if ops == [] then st else Run(Do(st, ops[0]), ops[1..])
  }

  // ---- What happens to a post's views over a run ----

  function AdmittedIn(st: State, ops: seq<Op>, p: PostId): nat
    decreases |ops|
  {
    if ops == [] then 0
    else (if Admitted(st, ops[0]) && ops[0].post == p then 1 else 0) + AdmittedIn(Do(st, ops[0]), ops[1..], p)
  }

  function InitialisedIn(st: State, ops: seq<Op>, p: PostId): nat
    decreases |ops|
  {
    if ops == [] then 0
    else
      (if Admitted(st, ops[0]) && ops[0].post == p && p !in st.counters then 1 else 0)
      + InitialisedIn(Do(st, ops[0]), ops[1..], p)
  }

  function LostIn(st: State, ops: seq<Op>, p: PostId): nat
    decreases |ops|
  {
    if ops == [] then 0
    else (if ops[0] == ExpireCounter(p) then Buffered(st, p) else 0) + LostIn(Do(st, ops[0]), ops[1..], p)
  }

  lemma StepConserves(st: State, op: Op, p: PostId)
    requires BuffersSmall(st)
    ensures Views(Do(st, op), p) + Buffered(Do(st, op), p) + (if op == ExpireCounter(p) then Buffered(st, p) else 0) ==
      Views(st, p) + Buffered(st, p)
      + (if Admitted(st, op) && op.post == p then if p in st.counters then 1 else 2 else 0)
  {
  }

  // Every view admitted is in the database, or in the buffer, or lost with an expired counter; and each
  // time a counter is started one view too many is counted: the books are right when none is started.
  lemma {:induction false} Conservation(st: State, ops: seq<Op>, p: PostId)
    requires BuffersSmall(st)
    ensures Views(Run(st, ops), p) + Buffered(Run(st, ops), p) + LostIn(st, ops, p) ==
      Views(st, p) + Buffered(st, p) + AdmittedIn(st, ops, p) + InitialisedIn(st, ops, p)
    ensures var written := Views(Run(st, ops), p) + Buffered(Run(st, ops), p) + LostIn(st, ops, p);
      written == Views(st, p) + Buffered(st, p) + AdmittedIn(st, ops, p) <==> InitialisedIn(st, ops, p) == 0
    decreases |ops|
  {
    hide Do, Views, Buffered, Admitted, BuffersSmall;
    if ops != [] {
      StepConserves(st, ops[0], p);
      StepKeepsSmall(st, ops[0]);
      Conservation(Do(st, ops[0]), ops[1..], p);
    }
  }

  // Four viewers of a post that nobody saw before are written as five views.
  lemma FourViewsAreFive(p: PostId)
    ensures var none := State({}, map[], map[], []);
      var t := Do(Do(Do(Do(none, View(p, Some(1))), View(p, Some(2))), View(p, Some(3))), View(p, Some(4)));
      Views(t, p) == 5 && Buffered(t, p) == 0
  {
    var none := State({}, map[], map[], []);
    var t1 := Do(none, View(p, Some(1)));
    assert t1.counters[p] == 2;
    var t2 := Do(t1, View(p, Some(2)));
    assert t2.counters[p] == 3;
    var t3 := Do(t2, View(p, Some(3)));
    assert t3.counters[p] == 4;
  }

  ghost predicate BuffersSmall(st: State) { forall p :: p in st.counters ==> st.counters[p] < POST_COUNTER_MAX }

  lemma StepKeepsSmall(st: State, op: Op)
    requires BuffersSmall(st)
    ensures BuffersSmall(Do(st, op))
  {
  }

  lemma {:induction false} RunKeepsSmall(st: State, ops: seq<Op>)
    requires BuffersSmall(st)
    ensures BuffersSmall(Run(st, ops))
    decreases |ops|
  {
    if ops != [] {
      StepKeepsSmall(st, ops[0]);
      RunKeepsSmall(Do(st, ops[0]), ops[1..]);
    }
  }

  // How many history rows a post has.
  function Written(history: seq<PostId>, p: PostId): nat {
    if history == [] then 0
    else Written(history[..|history| - 1], p) + (if history[|history| - 1] == p then 1 else 0)
  }

  ghost predicate Filed(st: State) { forall p: PostId :: Views(st, p) == POST_COUNTER_MAX * Written(st.history, p) }

  lemma StepKeepsFiled(st: State, op: Op)
    requires Filed(st)
    ensures Filed(Do(st, op))
  {
    var r := Do(st, op);
    if r.history != st.history {
      assert r.history[..|st.history|] == st.history;
    }
    forall p: PostId ensures Views(r, p) == POST_COUNTER_MAX * Written(r.history, p) {
      assert Views(st, p) == POST_COUNTER_MAX * Written(st.history, p);
    }
  }

  // A post's views are five for each of its history rows, which is how the analytics read them.
  lemma {:induction false} RunKeepsFiled(st: State, ops: seq<Op>)
    requires Filed(st)
    ensures Filed(Run(st, ops))
    decreases |ops|
  {
    if ops != [] {
      StepKeepsFiled(st, ops[0]);
      RunKeepsFiled(Do(st, ops[0]), ops[1..]);
    }
  }

  // A viewer is counted once until the entry that remembers the viewer expires.
  lemma {:induction false} ViewedOnce(st: State, ops: seq<Op>, p: PostId, viewer: Viewer, again: Op)
    requires Key(p, viewer) in st.seen && ForgetViewer(Key(p, viewer)) !in ops && again == View(p, Some(viewer))
    ensures Do(Run(st, ops), again) == Run(st, ops)
    decreases |ops|
  {
    if ops != [] {
      assert ops[0] in ops;
      ViewedOnce(Do(st, ops[0]), ops[1..], p, viewer, again);
    }
  }

  // Whether a viewer is remembered after some operations: from a view on, until they are forgotten.
  function Remembered(before: bool, ops: seq<Op>, key: Key): bool
    decreases |ops|
  {
    if ops == [] then before
    else
      var now := match ops[0]
        case View(p, viewer) => before || (viewer.Some? && Key(p, viewer.value) == key)
        case ForgetViewer(k) => before && k != key
        case ExpireCounter(_) => before;
      Remembered(now, ops[1..], key)
  }

  // A view counts exactly when its viewer is not remembered: the counter of the post moves, or starts.
  lemma {:induction false} CountsUnlessRemembered(st: State, ops: seq<Op>, p: PostId, viewer: Viewer)
    requires BuffersSmall(st)
    ensures var key, now := Key(p, viewer), Run(st, ops); var later := Do(now, View(p, Some(viewer)));
      if Remembered(key in st.seen, ops, key) then later == now
      else key in later.seen && Views(later, p) + Buffered(later, p) > Views(now, p) + Buffered(now, p)
    decreases |ops|
  {
    if ops != [] {
      StepKeepsSmall(st, ops[0]);
      CountsUnlessRemembered(Do(st, ops[0]), ops[1..], p, viewer);
    }
  }

  class PostViews {
    var seen: set<Key>
    var counters: map<PostId, nat>
    var views: map<PostId, nat>
    var history: seq<PostId>

    ghost function T(): State
      reads this
    {
      State(seen, counters, views, history)
    }

    constructor ()
      ensures T() == State({}, map[], map[], [])
      ensures BuffersSmall(T()) && Filed(T())
    {
      seen, counters, views, history := {}, map[], map[], [];
    }

    method Flush(p: PostId, count: nat)
      modifies this`views, this`history
      ensures views == old(views)[p := Views(old(T()), p) + count] && history == old(history) + [p]
    {
      views := views[p := (if p in views then views[p] else 0) + count];
      history := history + [p];
    }

    method ViewPost(p: PostId, viewer: Option<Viewer>)
      modifies this
      ensures T() == Do(old(T()), View(p, viewer))
    {
      if viewer.None? { return; }
      var viewKey := Key(p, viewer.value);
      if viewKey in seen { return; }
      seen := seen + {viewKey};
      var countNum := 0;
      if p !in counters {
        counters := counters[p := 1];
      } else {
        countNum := counters[p];
      }
      countNum := countNum + 1;
      if countNum >= POST_COUNTER_MAX {
        counters := counters[p := 0];
        Flush(p, POST_COUNTER_MAX);
      } else {
        counters := counters[p := counters[p] + 1];
      }
    }
  }
}
