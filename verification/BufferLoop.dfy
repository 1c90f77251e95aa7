/** No forwarding loop over shared buffers: what the pipeline's books say, said of the buffers. */
module BufferLoop {
  import opened Prelude
  import opened Frames
  import opened Traffic
  import opened Ownership
  import opened OwnershipRefinement
  import Pipeline
  import PipelineLedger
  import PipelineRefinement
  import PipelineLoop

  /** Frames the NICs have accepted. */
  function Accepted(acts: seq<IdAction>): nat {
    if acts == [] then 0
    else
      var last := acts[|acts| - 1];
      Accepted(acts[..|acts| - 1]) + if last.Make? && last.m.Send? then last.m.k else 0
  }

  /** Unmarked frames that have arrived. Copies of transmitted frames are marked. */
  function UnmarkedFills(acts: seq<IdAction>): nat {
    if acts == [] then 0
    else
      var last := acts[|acts| - 1];
      UnmarkedFills(acts[..|acts| - 1]) + if last.Fill? && !Marked(last.x.frame) then 1 else 0
  }

  lemma {:induction false} SumUpdate(xs: seq<nat>, i: nat, x: nat)
    requires i < |xs|
    ensures Sum(xs[i := x]) + xs[i] == Sum(xs) + x
  {
    var k := |xs| - 1;
    if i < k {
      assert xs[i := x][..k] == xs[..k][i := x];
      SumUpdate(xs[..k], i, x);
    } else {
      assert xs[i := x][..k] == xs[..k];
    }
  }

  lemma SumBump(xs: seq<nat>, i: nat, d: nat)
    requires i < |xs|
    ensures Sum(Pipeline.Bump(xs, i, d)) == Sum(xs) + d
  {
    hide Sum;
    SumUpdate(xs, i, xs[i] + d);
  }

  lemma {:induction false} SumZeros(n: nat)
    ensures Sum(Pipeline.Zeros(n)) == 0
  {
    if n > 0 {
      assert Pipeline.Zeros(n)[..n - 1] == Pipeline.Zeros(n - 1);
      SumZeros(n - 1);
    }
  }

  lemma {:induction false} CountUnmarkedMore(xs: seq<Pkt>, x: Pkt)
    ensures PipelineLoop.CountUnmarked(xs + [x]) == PipelineLoop.CountUnmarked(xs) + if Marked(x.frame) then 0 else 1
  {
    if xs == [] {
      assert [x][1..] == [];
    } else {
      assert (xs + [x])[1..] == xs[1..] + [x];
      CountUnmarkedMore(xs[1..], x);
    }
  }

  /** The pipeline's books record the actions taken. */
  lemma StepBooks(cfg: Config, v: Pipeline.State, a: IdAction)
    requires Pipeline.Shaped(cfg, v) && Pipeline.Enabled(v, Meaning(a))
    ensures var r := Pipeline.Next(cfg, v, Meaning(a));
            && Sum(r.c.tx) == Sum(v.c.tx) + (if a.Make? && a.m.Send? then a.m.k else 0)
            && r.h.injected == v.h.injected + if a.Fill? then [a.x.(port := a.p)] else []
  {
    if a.Make? && a.m.Send? {
      SumBump(v.c.tx, a.m.p, a.m.k);
    }
    hide Sum;
  }

  /** The pipeline run that means what a buffer run does. */
  ghost predicate Means(cfg: Config, acts: seq<IdAction>, vs: seq<Pipeline.State>, vacts: seq<Pipeline.Action>) {
    && PipelineLedger.IsRun(cfg, vs, vacts) && |vacts| == |acts|
    && forall i | 0 <= i < |acts| :: vacts[i] == Meaning(acts[i])
  }

  /** `x` arrived with some fill. */
  ghost predicate Filled(acts: seq<IdAction>, x: Pkt) {
    exists i :: 0 <= i < |acts| && acts[i].Fill? && x == acts[i].x.(port := acts[i].p)
  }

  ghost predicate AllFilled(acts: seq<IdAction>, xs: seq<Pkt>) {
    forall x | x in xs :: Filled(acts, x)
  }

  lemma FilledMore(acts: seq<IdAction>, a: IdAction, xs: seq<Pkt>)
    requires AllFilled(acts, xs)
    ensures AllFilled(acts + [a], xs + if a.Fill? then [a.x.(port := a.p)] else [])
  {
    var more := acts + [a];
    forall x | x in xs
      ensures Filled(more, x)
    {
      var i :| 0 <= i < |acts| && acts[i].Fill? && x == acts[i].x.(port := acts[i].p);
      assert more[i] == acts[i];
    }
    assert more[|acts|] == a;
  }

  lemma StartBooks(cfg: Config, v: Pipeline.State)
    requires v == Pipeline.Init(cfg)
    ensures Sum(v.c.tx) == 0 && PipelineLoop.CountUnmarked(v.h.injected) == 0 && v.h.injected == []
  {
    SumZeros(MAX_PORTS);
    hide Sum;
  }

  lemma CountsMore(acts: seq<IdAction>, a: IdAction)
    ensures Accepted(acts + [a]) == Accepted(acts) + if a.Make? && a.m.Send? then a.m.k else 0
    ensures UnmarkedFills(acts + [a]) == UnmarkedFills(acts) + if a.Fill? && !Marked(a.x.frame) then 1 else 0
  {
    assert (acts + [a])[..|acts|] == acts;
  }

  ghost predicate Booked(acts: seq<IdAction>, v: Pipeline.State) {
    && Sum(v.c.tx) == Accepted(acts)
    && PipelineLoop.CountUnmarked(v.h.injected) == UnmarkedFills(acts)
    && AllFilled(acts, v.h.injected)
  }

  lemma BookedNext(cfg: Config, acts: seq<IdAction>, v: Pipeline.State, a: IdAction)
    requires Pipeline.Shaped(cfg, v) && Pipeline.Enabled(v, Meaning(a)) && Booked(acts, v)
    ensures Booked(acts + [a], Pipeline.Next(cfg, v, Meaning(a)))
  {
    hide Sum, AllFilled, Accepted, UnmarkedFills, PipelineLoop.CountUnmarked;
    hide Pipeline.Next, Pipeline.Shaped, Pipeline.Enabled, Meaning;
    StepBooks(cfg, v, a);
    FilledMore(acts, a, v.h.injected);
    CountsMore(acts, a);
    if a.Fill? {
      CountUnmarkedMore(v.h.injected, a.x.(port := a.p));
    } else {
      assert v.h.injected + [] == v.h.injected;
    }
  }

  lemma MeansStep(cfg: Config, acts: seq<IdAction>, vs: seq<Pipeline.State>, vacts: seq<Pipeline.Action>, k: nat)
    requires Means(cfg, acts, vs, vacts) && k < |acts|
    ensures |vs| == |acts| + 1 && PipelineLedger.IsStep(cfg, vs[k], Meaning(acts[k]), vs[k + 1])
  {
    hide PipelineLedger.IsStep, Meaning;
    assert vacts[k] == Meaning(acts[k]);
  }

  lemma {:induction false} RunBooks(cfg: Config, acts: seq<IdAction>, vs: seq<Pipeline.State>,
                                    vacts: seq<Pipeline.Action>, k: nat)
    requires Means(cfg, acts, vs, vacts) && k <= |acts| && |vs| == |acts| + 1
    ensures Booked(acts[..k], vs[k])
  {
    if k == 0 {
      StartBooks(cfg, vs[0]);
    } else {
      MeansStep(cfg, acts, vs, vacts, k - 1);
      hide Means, Booked, Pipeline.Next, Pipeline.Shaped, Pipeline.Enabled, Meaning;
      RunBooks(cfg, acts, vs, vacts, k - 1);
      assert acts[..k] == acts[..k - 1] + [acts[k - 1]];
      BookedNext(cfg, acts[..k - 1], vs[k - 1], acts[k - 1]);
    }
  }

  /** `y` is one unmarked frame that arrived, encrypted once and sent on the peer of its port. */
  ghost predicate FromFill(cfg: Config, acts: seq<IdAction>, q: nat, y: Pkt) {
    exists x :: Filled(acts, x) && PipelineLoop.ForwardedAs(cfg, x, q, y)
  }

  lemma QueuedIsSent(s: Buffers, v: Pipeline.State, q: nat, id: Id)
    requires v.sys == MapSys(s.mem, s.sys) && |v.h.wire| == |v.sys.ports|
    requires q < |s.sys.ports| && id in s.sys.ports[q].nicTx
    ensures s.mem(id) in PipelineRefinement.SentOn(v, q)
  {
    var i :| 0 <= i < |s.sys.ports[q].nicTx| && s.sys.ports[q].nicTx[i] == id;
    assert v.sys.ports[q].nicTx[i] == s.mem(id);
  }

  /** In every run over shared, reused buffers the NICs accept at most as many frames as unmarked
      ones have arrived, and what waits in their queues are such frames, encrypted exactly once. */
  lemma {:induction false} NoForwardingLoop(cfg: Config, n: nat, ss: seq<Buffers>, acts: seq<IdAction>)
    requires Pipeline.ValidConfig(cfg) && IdRun(cfg, n, ss, acts)
    ensures Accepted(acts) <= UnmarkedFills(acts)
    ensures forall q: nat, id | q < |ss[|acts|].sys.ports| && id in ss[|acts|].sys.ports[q].nicTx ::
              FromFill(cfg, acts, q, ss[|acts|].mem(id))
  {
    var vs, vacts := RunSimulates(cfg, n, ss, acts);
    var s, v := ss[|acts|], vs[|acts|];
    RunBooks(cfg, acts, vs, vacts, |acts|);
    assert acts[..|acts|] == acts;
    assert PipelineLedger.Reachable(cfg, v);
    PipelineLoop.NoForwardingLoop(cfg, v);
    PipelineLedger.ReachableInv(cfg, v);
    ShapedOf(cfg, v);
    assert Booked(acts, v);
    hide PipelineLedger.Reachable, PipelineLedger.IsRun, IdRun, Pipeline.Inv, PipelineLoop.CountUnmarked, Sum;
    forall q: nat, id | q < |s.sys.ports| && id in s.sys.ports[q].nicTx
      ensures FromFill(cfg, acts, q, s.mem(id))
    {
      QueuedIsSent(s, v, q, id);
      var y := s.mem(id);
      assert PipelineLoop.EncryptedOnce(cfg, v, q, y);
    }
  }
}
