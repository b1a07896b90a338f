/** A batchified graph as the worker's interior: it serves every seat of a turn what the
    original graph answers that seat alone. */
module LanedGraphs {
  import opened Outcomes
  import opened Tensors
  import opened Indexing
  import opened Columns
  import opened Outlets
  import opened AxisOps
  import opened EinSums
  import opened NaryOps
  import opened Graphs
  import opened Batchify
  import opened BatchRuns
  import opened BatchGraphs
  import Calls
  import Queues
  import Streams
  import Turns
  import LaneTables
  import SameRuns
  import Unbatched
  import WholeStack

  /** A graph with its inputs and outputs in order, the shapes its input facts give, and
      its batchified form. */
  datatype Model = Model(
    lib: Library,
    g: Graph,
    shared: set<nat>,
    ins: seq<nat>,
    outs: seq<Outlet>,
    shapes: seq<Shape>,
    plan: Plan,
    target: Target)

  /** Every source is an input, once; none has the batch axis already; the graph makes no
      batch of its own; and its ops are sound and truthful. */
  ghost predicate Batchable(m: Model) {
    && Ordered(m.g) && Batched(m.lib, m.g, m.shared) == Some((m.plan, m.target)) && Regular(m.lib)
    && |m.shapes| == |m.ins| && InputsBefore(m.g, m.outs, |m.g|)
    && (forall i, j | 0 <= i < j < |m.ins| :: m.ins[i] != m.ins[j])
    && (forall j | 0 <= j < |m.ins| :: m.ins[j] < |m.g| && m.g[m.ins[j]].Source?)
    && (forall id | 0 <= id < |m.g| && m.g[id].Source? :: id in m.ins && Carrier(m.g[id].fact).None?)
    && forall id | 0 <= id < |m.g| && m.g[id].Wired? ::
         !m.g[id].op.ToBatch? && (m.g[id].op.Other? ==> Truthful(m.lib, m.g[id].op.name, m.g[id].outputs))
  }

  function InFlags(m: Model): (r: seq<bool>)
    ensures |r| == |m.ins| && forall j | 0 <= j < |m.ins| :: r[j] == (m.ins[j] in m.plan.carried)
  {
    seq(|m.ins|, j requires 0 <= j < |m.ins| => m.ins[j] in m.plan.carried)
  }

  function OutFlags(m: Model): (r: seq<bool>)
    ensures |r| == |m.outs| && forall o | 0 <= o < |m.outs| :: r[o] == (m.outs[o].node in m.plan.carried)
  {
    seq(|m.outs|, o requires 0 <= o < |m.outs| => m.outs[o].node in m.plan.carried)
  }

  // ---- Running the original, and the batchified ----

  function Feed(ids: seq<nat>, xs: seq<Tensor>, k: nat): map<nat, Tensor>
    requires k <= |ids| && k <= |xs|
  {
    if k == 0 then map[] else Feed(ids, xs, k - 1)[ids[k - 1] := xs[k - 1]]
  }

  lemma {:induction false} FeedAt(ids: seq<nat>, xs: seq<Tensor>, k: nat, j: nat)
    requires j < k <= |ids| && k <= |xs| && forall p, q | 0 <= p < q < |ids| :: ids[p] != ids[q]
    ensures ids[j] in Feed(ids, xs, k) && Feed(ids, xs, k)[ids[j]] == xs[j]
  {
    if j < k - 1 {
      FeedAt(ids, xs, k - 1, j);
    }
  }

  /** The inputs fit the facts, with a leading axis of `n` where flagged. */
  predicate Fit(m: Model, xs: seq<Tensor>, wide: bool, n: nat) {
    && |xs| == |m.ins| == |m.shapes| && AllSound(xs)
    && forall j | 0 <= j < |xs| :: ShapeOf(xs[j]) == (if wide && m.ins[j] in m.plan.carried then [n] else []) + m.shapes[j]
  }

  /** A run of the original, when every step of it succeeds. */
  function RunOriginal(m: Model, n: nat, xs: seq<Tensor>): Option<Values> {
    if |xs| == |m.ins| then Run(m.lib, n, m.g, Feed(m.ins, xs, |xs|), |m.g|) else None
  }

  /** The original's answer. */
  function AnswerOf(m: Model, xs: seq<Tensor>): Option<seq<Tensor>> {
    match RunOriginal(m, 1, xs) case None => None case Some(vals) => Reads(vals, m.outs)
  }

  /** The same, with something in place of no answer. */
  function Answer(m: Model, xs: seq<Tensor>): (r: seq<Tensor>)
    ensures |r| == |m.outs|
  {
    var r := AnswerOf(m, xs);
    if r.Some? then r.value else seq(|m.outs|, _ => Scalar(0))
  }

  /** The original runs on what each of the turn's `n` seats has. */
  ghost predicate Runnable(m: Model, n: nat, xs: seq<Tensor>)
    requires |xs| == |m.ins|
  {
    forall i | 0 <= i < n :: RunOriginal(m, 1, SeatOf(m, xs, i)).Some?
  }

  function Interfaces(m: Model): seq<nat> {
    seq(|m.ins|, j requires 0 <= j < |m.ins| => if m.ins[j] in m.target.interface then m.target.interface[m.ins[j]] else 0)
  }

  function TargetOuts(m: Model): seq<Outlet> {
    seq(|m.outs|, o requires 0 <= o < |m.outs| =>
      if m.outs[o].node < |m.target.mapping| && m.outs[o].slot < |m.target.mapping[m.outs[o].node]|
      then m.target.mapping[m.outs[o].node][m.outs[o].slot] else m.outs[o])
  }

  /** A run of the batchified graph on a turn of `n` seats; nothing if they do not fit. */
  function RunTurn(m: Model, n: nat, xs: seq<Tensor>): Option<seq<Tensor>> {
    if !Fit(m, xs, true, n) then None
    else
      match Run(m.lib, n, m.target.nodes, Feed(Interfaces(m), xs, |xs|), |m.target.nodes|)
      case None => None
      case Some(vals) => Reads(vals, TargetOuts(m))
  }

  // ---- The number of seats does not reach the original ----

  lemma EvalIgnoresSeats(lib: Library, n: nat, k: nat, op: Op, xs: seq<Tensor>)
    requires !op.ToBatch?
    ensures Eval(lib, n, op, xs) == Eval(lib, k, op, xs)
  {
    hide ApplyAxis, Applies, ApplyEinSum, ApplyEach, ApplyConcat;
  }

  lemma ComputedIgnoresSeats(lib: Library, n: nat, k: nat, g: Graph, given: map<nat, Tensor>, vals: Values)
    requires |vals| < |g| && (g[|vals|].Wired? ==> !g[|vals|].op.ToBatch?)
    ensures Computed(lib, n, g, given, vals) == Computed(lib, k, g, given, vals)
  {
    hide Eval;
    if g[|vals|].Wired? {
      var xs := Reads(vals, g[|vals|].inputs);
      if xs.Some? {
        EvalIgnoresSeats(lib, n, k, g[|vals|].op, xs.value);
      }
    }
  }

  lemma {:induction false} RunIgnoresSeats(lib: Library, n: nat, k: nat, g: Graph, given: map<nat, Tensor>, j: nat)
    requires j <= |g| && forall id | 0 <= id < |g| && g[id].Wired? :: !g[id].op.ToBatch?
    ensures Run(lib, n, g, given, j) == Run(lib, k, g, given, j)
  {
    hide Computed;
    if j > 0 {
      RunIgnoresSeats(lib, n, k, g, given, j - 1);
      var vals := Run(lib, n, g, given, j - 1);
      if vals.Some? {
        ComputedIgnoresSeats(lib, n, k, g, given, vals.value);
      }
    }
  }

  // ---- A turn's seats, one by one ----

  /** What seat `i` of the turn has. */
  function SeatOf(m: Model, xs: seq<Tensor>, i: nat): (r: seq<Tensor>)
    requires |xs| == |m.ins|
    ensures |r| == |xs|
    ensures forall j | 0 <= j < |xs| ::
      r[j] == if m.ins[j] in m.plan.carried && xs[j].Rows? && i < |xs[j].rows| then xs[j].rows[i] else xs[j]
  {
    seq(|xs|, j requires 0 <= j < |xs| =>
      if m.ins[j] in m.plan.carried && xs[j].Rows? && i < |xs[j].rows| then xs[j].rows[i] else xs[j])
  }

  lemma SeatFits(m: Model, n: nat, xs: seq<Tensor>, i: nat)
    requires Fit(m, xs, true, n) && i < n
    ensures Fit(m, SeatOf(m, xs, i), false, 1)
  {
    var seat := SeatOf(m, xs, i);
    forall j | 0 <= j < |xs|
      ensures ShapeOf(seat[j]) == m.shapes[j] && Sound(seat[j])
    {
      assert xs[j] in xs;
      if m.ins[j] in m.plan.carried {
        assert xs[j].Rows? && |xs[j].rows| == n by { LeadingRows(xs[j], n, m.shapes[j]); }
        assert xs[j].rows[i] in xs[j].rows;
        assert ([n] + m.shapes[j])[1..] == m.shapes[j] && ShapeOf(xs[j])[1..] == xs[j].inner;
      } else {
        assert [] + m.shapes[j] == m.shapes[j];
      }
    }
    forall x | x in seat
      ensures Sound(x)
    {
      var j :| 0 <= j < |seat| && seat[j] == x;
    }
    assert forall j | 0 <= j < |xs| :: ShapeOf(seat[j]) == [] + m.shapes[j];
  }

  lemma LeadingRows(t: Tensor, n: nat, shape: Shape)
    requires ShapeOf(t) == [n] + shape
    ensures t.Rows? && |t.rows| == n && t.inner == shape
  {
    assert ShapeOf(t)[0] == n && ShapeOf(t)[1..] == shape;
  }

  /** What each seat gives, and what it computes. */
  function Givens(m: Model, xs: seq<Tensor>, k: nat): (r: seq<map<nat, Tensor>>)
    requires |xs| == |m.ins|
    ensures |r| == k && forall i | 0 <= i < k :: r[i] == Feed(m.ins, SeatOf(m, xs, i), |xs|)
  {
    seq(k, i requires 0 <= i < k => Feed(m.ins, SeatOf(m, xs, i), |xs|))
  }

  function Computations(m: Model, n: nat, xs: seq<Tensor>, k: nat): (r: seq<Values>)
    requires |xs| == |m.ins|
    ensures |r| == k
    ensures forall i | 0 <= i < k :: RunOriginal(m, n, SeatOf(m, xs, i)).Some? ==> r[i] == RunOriginal(m, n, SeatOf(m, xs, i)).value
  {
    seq(k, i requires 0 <= i < k =>
      var run := RunOriginal(m, n, SeatOf(m, xs, i)); if run.Some? then run.value else [])
  }

  function SettingOf(m: Model, n: nat, xs: seq<Tensor>): Setting
    requires |xs| == |m.ins|
  {
    Setting(m.lib, m.g, m.shared, m.plan, m.target, Givens(m, xs, n), Computations(m, n, xs, n),
            Feed(Interfaces(m), xs, |xs|))
  }

  lemma SeatRuns(m: Model, n: nat, xs: seq<Tensor>, i: nat)
    requires |xs| == |m.ins| && Batchable(m) && Runnable(m, n, xs) && Fit(m, xs, true, n) && i < n
    ensures var st := SettingOf(m, n, xs);
            Run(st.lib, n, st.g, st.givens[i], |st.g|) == Some(st.vals[i])
    ensures RunOriginal(m, 1, SeatOf(m, xs, i)) == Some(SettingOf(m, n, xs).vals[i])
  {
    hide Run, Fit, Feed;
    SeatFits(m, n, xs, i);
    var seat := SeatOf(m, xs, i);
    assert RunOriginal(m, 1, seat).Some?;
    RunIgnoresSeats(m.lib, n, 1, m.g, Feed(m.ins, seat, |seat|), |m.g|);
  }

  lemma SettingRan(m: Model, n: nat, xs: seq<Tensor>)
    requires |xs| == |m.ins| && Batchable(m) && Runnable(m, n, xs) && Fit(m, xs, true, n) && n > 0
    ensures Ran(SettingOf(m, n, xs))
  {
    hide Run, Fit, Batchable, Runnable;
    var st := SettingOf(m, n, xs);
    forall i | 0 <= i < n
      ensures Run(st.lib, n, st.g, st.givens[i], |st.g|) == Some(st.vals[i])
    {
      SeatRuns(m, n, xs, i);
    }
  }

  /** A source's node holds, in each seat, what the seat gives it. */
  lemma SourceHolds(m: Model, n: nat, xs: seq<Tensor>, i: nat, j: nat)
    requires |xs| == |m.ins| && Batchable(m) && Runnable(m, n, xs) && Fit(m, xs, true, n) && i < n && j < |m.ins|
    ensures NodeOf(SettingOf(m, n, xs).vals[i], m.ins[j]) == [SeatOf(m, xs, i)[j]]
  {
    hide Run, Fit, Runnable, Ran, SeatOf, Truthful, Regular, Batched, Feed;
    var st := SettingOf(m, n, xs);
    SettingRan(m, n, xs);
    SeatComputes(st, i, m.ins[j]);
    FeedAt(m.ins, SeatOf(m, xs, i), |xs|, j);
  }

  /** What the target's interface of an input is fed. */
  lemma FedHolds(m: Model, n: nat, xs: seq<Tensor>, j: nat)
    requires Batchable(m) && |xs| == |m.ins| && j < |m.ins|
    ensures var st := SettingOf(m, n, xs);
            m.ins[j] in st.target.interface && st.target.interface[m.ins[j]] in st.fed
            && st.fed[st.target.interface[m.ins[j]]] == xs[j]
  {
    hide WireOf, PlanOf, Truthful, Regular, Feed;
    var ids := Interfaces(m);
    forall p, q | 0 <= p < q < |ids|
      ensures ids[p] != ids[q]
    {
      InterfacesDiffer(m, p, q);
    }
    InterfaceIs(m, j);
    FeedAt(ids, xs, |xs|, j);
  }

  lemma InterfaceIs(m: Model, j: nat)
    requires Batchable(m) && j < |m.ins|
    ensures m.ins[j] in m.target.interface
    ensures m.target.interface[m.ins[j]] == |WireOf(m.g, m.shared, Joins(m.g, m.shared), m.plan.hosts, m.ins[j]).nodes|
  {
    hide WireOf, PlanOf, Truthful, Regular;
    InterfaceAt(m.g, m.shared, Joins(m.g, m.shared), m.plan.hosts, m.ins[j], |m.g|);
  }

  lemma NodeGrows(g: Graph, shared: set<nat>, join: bool, hosts: map<nat, Hosted>, t: Target, id: nat)
    requires Ordered(g) && id < |g| && |t.mapping| == id && Fitting(g, hosts)
    requires forall j | 0 <= j < id :: |t.mapping[j]| == OutputsOf(g[j])
    ensures |t.nodes| < |WireNode(g, shared, join, hosts, t, id).nodes|
  {
    hide PadSlots, Mapped, AllOutlets, Carrier, Collapsed;
    if g[id].Wired? {
      assert InputsBefore(g, g[id].inputs, id);
    }
  }

  lemma {:induction false} NodesGrow(g: Graph, shared: set<nat>, join: bool, hosts: map<nat, Hosted>, j: nat, k: nat)
    requires Ordered(g) && Fitting(g, hosts) && j < k <= |g|
    ensures |WireOf(g, shared, join, hosts, j).nodes| < |WireOf(g, shared, join, hosts, k).nodes|
    decreases k
  {
    hide WireNode, Ordered, Fitting;
    NodeGrows(g, shared, join, hosts, WireOf(g, shared, join, hosts, k - 1), k - 1);
    if j < k - 1 {
      NodesGrow(g, shared, join, hosts, j, k - 1);
    }
  }

  lemma InterfacesDiffer(m: Model, p: nat, q: nat)
    requires Batchable(m) && p < q < |m.ins|
    ensures Interfaces(m)[p] != Interfaces(m)[q]
  {
    hide WireOf, PlanOf, Truthful, Regular;
    InterfaceIs(m, p);
    InterfaceIs(m, q);
    var join := Joins(m.g, m.shared);
    if m.ins[p] < m.ins[q] {
      NodesGrow(m.g, m.shared, join, m.plan.hosts, m.ins[p], m.ins[q]);
    } else {
      NodesGrow(m.g, m.shared, join, m.plan.hosts, m.ins[q], m.ins[p]);
    }
  }

  /** The seats' column on an input is the turn's rows, or so many copies. */
  lemma ColumnOf(m: Model, n: nat, xs: seq<Tensor>, j: nat)
    requires |xs| == |m.ins| && Batchable(m) && Runnable(m, n, xs) && Fit(m, xs, true, n) && n > 0 && j < |m.ins|
    ensures var st := SettingOf(m, n, xs);
            && Shaped(st, m.ins[j])
            && var column := Column(AtNode(st.vals, m.ins[j]), 0);
               |column| == n && forall i | 0 <= i < n :: column[i] == SeatOf(m, xs, i)[j]
  {
    hide Fit, Runnable, Ran, Truthful, Regular, Batched, SeatOf;
    var st := SettingOf(m, n, xs);
    SettingRan(m, n, xs);
    SeatsShaped(st, m.ins[j]);
    var column := Column(AtNode(st.vals, m.ins[j]), 0);
    forall i | 0 <= i < n
      ensures column[i] == SeatOf(m, xs, i)[j]
    {
      SourceHolds(m, n, xs, i, j);
    }
  }

  lemma InputFed(m: Model, n: nat, xs: seq<Tensor>, j: nat)
    requires |xs| == |m.ins| && Batchable(m) && Runnable(m, n, xs) && Fit(m, xs, true, n) && n > 0 && j < |m.ins|
    ensures Shaped(SettingOf(m, n, xs), m.ins[j]) && Fed(SettingOf(m, n, xs), m.ins[j])
  {
    hide Runnable, Ran, Truthful, Regular, SeatOf, PlanOf, WireOf, Alike, Same;
    var st, id := SettingOf(m, n, xs), m.ins[j];
    ColumnOf(m, n, xs, j);
    FedHolds(m, n, xs, j);
    PlanSaysSo(m.lib, m.g, m.shared, |m.g|, id);
    var column := Column(AtNode(st.vals, id), 0);
    assert xs[j] in xs;
    if id in m.plan.carried {
      LeadingRows(xs[j], n, m.shapes[j]);
      RowsAlike(xs[j], column);
    } else {
      CopiesSame(xs[j], column);
    }
    NoJoin(m);
  }

  lemma NoJoin(m: Model)
    requires Batchable(m)
    ensures !Joins(m.g, m.shared)
  {
    hide Ordered, Batched, Truthful, Regular;
  }

  lemma RowsAlike(t: Tensor, column: seq<Tensor>)
    requires Sound(t) && t.Rows? && |t.rows| == |column| > 0 && forall i | 0 <= i < |column| :: column[i] == t.rows[i]
    ensures Alike(column) && Stack(column) == t
  {
    assert column == t.rows;
    forall i | 0 <= i < |column|
      ensures Sound(column[i]) && ShapeOf(column[i]) == t.inner
    {
      assert t.rows[i] in t.rows;
    }
  }

  lemma CopiesSame(t: Tensor, column: seq<Tensor>)
    requires Sound(t) && |column| > 0 && forall i | 0 <= i < |column| :: column[i] == t
    ensures Same(column) && column[0] == t
  {}

  lemma PosedWell(m: Model, n: nat, xs: seq<Tensor>)
    requires |xs| == |m.ins| && Batchable(m) && Runnable(m, n, xs) && Fit(m, xs, true, n) && n > 0
    ensures WellPosed(SettingOf(m, n, xs))
  {
    hide Runnable, Ran, Regular, SeatOf, PlanOf, WireOf, Fed, Shaped, Fit, Batched;
    var st := SettingOf(m, n, xs);
    SettingRan(m, n, xs);
    forall id | 0 <= id < |st.g| && st.g[id].Source?
      ensures Shaped(st, id) && Fed(st, id)
    {
      var j :| 0 <= j < |m.ins| && m.ins[j] == id;
      InputFed(m, n, xs, j);
    }
  }

  // ---- What the turn answers ----

  lemma SeatAnswers(m: Model, n: nat, xs: seq<Tensor>, i: nat, o: nat)
    requires |xs| == |m.ins| && Batchable(m) && Runnable(m, n, xs) && Fit(m, xs, true, n) && i < n && o < |m.outs|
    ensures AnswerOf(m, SeatOf(m, xs, i)).Some?
    ensures Read(SettingOf(m, n, xs).vals[i], m.outs[o]) == Some(Answer(m, SeatOf(m, xs, i))[o])
  {
    hide Run, Fit, Runnable, Truthful, Regular, Batched, SeatOf;
    var vals := SettingOf(m, n, xs).vals[i];
    SeatRuns(m, n, xs, i);
    OutputsRead(m, vals);
  }

  lemma OutputsRead(m: Model, vals: Values)
    requires InputsBefore(m.g, m.outs, |m.g|) && |vals| == |m.g| && forall j | 0 <= j < |m.g| :: |vals[j]| == OutputsOf(m.g[j])
    ensures Reads(vals, m.outs).Some?
  {
    AllReadable(vals, m.outs);
  }

  lemma {:induction false} AllReadable(vals: Values, outs: seq<Outlet>)
    requires forall o | o in outs :: o.node < |vals| && o.slot < |vals[o.node]|
    ensures Reads(vals, outs).Some?
  {
    if outs != [] {
      assert outs[0] in outs && forall o | o in outs[1..] :: o in outs;
      AllReadable(vals, outs[1..]);
    }
  }

  /** Output `o` of a turn, from the seats' own answers. */
  ghost predicate Serves(m: Model, n: nat, xs: seq<Tensor>, o: nat, out: Tensor)
    requires |xs| == |m.ins| && o < |m.outs|
  {
    if m.outs[o].node in m.plan.carried then
      out.Rows? && |out.rows| == n
      && forall i | 0 <= i < n ::
           out.rows[i] == Answer(m, SeatOf(m, xs, i))[o] && out.inner == ShapeOf(Answer(m, SeatOf(m, xs, i))[o])
    else forall i | 0 <= i < n :: out == Answer(m, SeatOf(m, xs, i))[o]
  }

  lemma ColumnAnswers(m: Model, n: nat, xs: seq<Tensor>, o: nat)
    requires |xs| == |m.ins| && Batchable(m) && Runnable(m, n, xs) && Fit(m, xs, true, n) && n > 0 && o < |m.outs|
    requires Shaped(SettingOf(m, n, xs), m.outs[o].node)
    ensures m.outs[o].slot < OutputsOf(m.g[m.outs[o].node])
    ensures var column := Column(AtNode(SettingOf(m, n, xs).vals, m.outs[o].node), m.outs[o].slot);
            |column| == n && forall i | 0 <= i < n :: column[i] == Answer(m, SeatOf(m, xs, i))[o]
  {
    hide Run, Fit, Runnable, Truthful, Regular, Batched, SeatOf, Read, Answer;
    var st := SettingOf(m, n, xs);
    assert m.outs[o] in m.outs;
    var column := Column(AtNode(st.vals, m.outs[o].node), m.outs[o].slot);
    forall i | 0 <= i < n
      ensures column[i] == Answer(m, SeatOf(m, xs, i))[o]
    {
      SeatAnswers(m, n, xs, i, o);
      ReadIs(st.vals[i], m.outs[o], column[i]);
    }
  }

  lemma ServedBy(m: Model, n: nat, xs: seq<Tensor>, o: nat, column: seq<Tensor>)
    requires |xs| == |m.ins| && o < |m.outs| && |column| == n > 0
    requires forall i | 0 <= i < n :: column[i] == Answer(m, SeatOf(m, xs, i))[o]
    requires if m.outs[o].node in m.plan.carried then Alike(column) else Same(column)
    ensures Serves(m, n, xs, o, if m.outs[o].node in m.plan.carried then Stack(column) else column[0])
  {
    hide SeatOf, Answer;
  }

  lemma OutletInGraph(m: Model, o: nat)
    requires Batchable(m) && o < |m.outs|
    ensures m.outs[o].node < |m.g| && m.outs[o].slot < OutputsOf(m.g[m.outs[o].node])
  {
    assert m.outs[o] in m.outs;
  }

  lemma OutletServes(m: Model, n: nat, xs: seq<Tensor>, o: nat) returns (out: Tensor)
    requires |xs| == |m.ins| && Batchable(m) && Runnable(m, n, xs) && Fit(m, xs, true, n) && n > 0 && o < |m.outs|
    ensures var st := SettingOf(m, n, xs);
            var run := Run(m.lib, n, m.target.nodes, st.fed, |m.target.nodes|);
            && run.Some? && Read(run.value, TargetOuts(m)[o]) == Some(out)
            && Serves(m, n, xs, o, out)
  {
    hide Run, Fit, Runnable, Batchable, WellPosed, Read, Serves, Alike, Same;
    var st := SettingOf(m, n, xs);
    PosedWell(m, n, xs);
    OutletInGraph(m, o);
    BatchedRunStacksSeats(st, m.outs[o]);
    ColumnAnswers(m, n, xs, o);
    var column := Column(AtNode(st.vals, m.outs[o].node), m.outs[o].slot);
    ServedBy(m, n, xs, o, column);
    out := if m.outs[o].node in m.plan.carried then Stack(column) else column[0];
  }

  lemma ReadIs(vals: Values, o: Outlet, t: Tensor)
    requires Read(vals, o).Some? && o.slot < |NodeOf(vals, o.node)| && NodeOf(vals, o.node)[o.slot] == t
    ensures Read(vals, o) == Some(t)
  {}

  /** A turn of seats that fit runs, and serves every seat the original's own answer. */
  lemma TurnServes(m: Model, n: nat, xs: seq<Tensor>)
    requires |xs| == |m.ins| && Batchable(m) && Runnable(m, n, xs) && Fit(m, xs, true, n) && n > 0
    ensures RunTurn(m, n, xs).Some? && |RunTurn(m, n, xs).value| == |m.outs|
    ensures forall o | 0 <= o < |m.outs| :: Serves(m, n, xs, o, RunTurn(m, n, xs).value[o])
  {
    hide Fit, Run, Reads, Serves, Runnable, Batchable;
    var outs := ServedUpto(m, n, xs, |m.outs|);
    var st := SettingOf(m, n, xs);
    var run := Run(m.lib, n, m.target.nodes, st.fed, |m.target.nodes|);
    assert run.Some? by { TurnRuns(m, n, xs); }
    ReadsPointwise(run.value, TargetOuts(m), outs);
  }

  lemma TurnRuns(m: Model, n: nat, xs: seq<Tensor>)
    requires |xs| == |m.ins| && Batchable(m) && Runnable(m, n, xs) && Fit(m, xs, true, n) && n > 0
    ensures Run(m.lib, n, m.target.nodes, SettingOf(m, n, xs).fed, |m.target.nodes|).Some?
  {
    hide Run, Fit, Runnable, Batchable, WellPosed, Runs;
    PosedWell(m, n, xs);
    TargetWhole(m);
    var tv := AgreesUpto(SettingOf(m, n, xs), |m.g|);
    RunsMeans(SettingOf(m, n, xs), |m.g|, tv);
  }

  lemma TargetWhole(m: Model)
    requires Batchable(m)
    ensures Ordered(m.g) && Fitting(m.g, m.plan.hosts)
    ensures m.target == WireOf(m.g, m.shared, Joins(m.g, m.shared), m.plan.hosts, |m.g|)
  {}

  lemma RunsMeans(st: Setting, k: nat, tv: Values)
    requires Ordered(st.g) && k <= |st.g| && Fitting(st.g, st.plan.hosts) && Runs(st, k, tv)
    ensures Run(st.lib, |st.givens|, Upto(st, k).nodes, st.fed, |Upto(st, k).nodes|) == Some(tv)
  {}

  lemma {:induction false} ServedUpto(m: Model, n: nat, xs: seq<Tensor>, k: nat) returns (outs: seq<Tensor>)
    requires |xs| == |m.ins| && Batchable(m) && Runnable(m, n, xs) && Fit(m, xs, true, n) && n > 0 && k <= |m.outs|
    ensures |outs| == k
    ensures var st := SettingOf(m, n, xs);
            var run := Run(m.lib, n, m.target.nodes, st.fed, |m.target.nodes|);
            run.Some? ==> forall o | 0 <= o < k :: Read(run.value, TargetOuts(m)[o]) == Some(outs[o]) && Serves(m, n, xs, o, outs[o])
  {
    hide Run, Fit, Runnable, Batchable, Serves, Read;
    outs := [];
    if k > 0 {
      var before := ServedUpto(m, n, xs, k - 1);
      var out := OutletServes(m, n, xs, k - 1);
      outs := before + [out];
    }
  }

  // ---- As the worker's interior ----

  /** The batch symbol's value: the rows of the first flagged input. */
  function SeatsIn(flags: seq<bool>, xs: seq<Tensor>): nat {
    if flags == [] || xs == [] then 1
    else if flags[0] then if xs[0].Rows? then |xs[0].rows| else 0
    else SeatsIn(flags[1..], xs[1..])
  }

  lemma {:induction false} SeatsAsked(flags: seq<bool>, xs: seq<Tensor>, n: nat)
    requires Calls.AsksFor(xs, flags, n) && true in flags
    ensures SeatsIn(flags, xs) == n
  {
    if !flags[0] {
      assert Calls.AsksFor(xs[1..], flags[1..], n) by {
        forall ix | 0 <= ix < |xs[1..]| && flags[1..][ix]
          ensures xs[1..][ix].Rows? && |xs[1..][ix].rows| == n
        {
          assert flags[ix + 1];
        }
      }
      SeatsAsked(flags[1..], xs[1..], n);
    }
  }

  // ---- What the batch symbol is bound to ----

  /** The batch symbol's value, where a failed turn left it bound. */
  type Width = Option<nat>

  /** Input `j` fits its fact, with a leading axis of `n` if flagged. */
  predicate FitsAt(m: Model, x: Tensor, j: nat, n: nat)
    requires j < |m.ins|
  {
    j < |m.shapes| && Sound(x) && ShapeOf(x) == (if InFlags(m)[j] then [n] else []) + m.shapes[j]
  }

  /** `set_input`: the leading axis of a flagged input binds the batch symbol or is refused
      by what it is bound to; only then do the other axes count. */
  function SetWidth(m: Model, left: Width, x: Tensor, j: nat): (Width, bool)
    requires j < |m.ins|
  {
    if !InFlags(m)[j] then (left, FitsAt(m, x, j, 0))
    else if x.Scalar? || (left.Some? && left.value != |x.rows|) then (left, false)
    else (Some(|x.rows|), FitsAt(m, x, j, |x.rows|))
  }

  /** The first `k` inputs, or as many as fit. */
  function SetWidths(m: Model, left: Width, xs: seq<Tensor>, k: nat): (Width, bool)
    requires k <= |xs| == |m.ins|
  {
    if k == 0 then (left, true)
    else
      var (before, ok) := SetWidths(m, left, xs, k - 1);
      if ok then SetWidth(m, before, xs[k - 1], k - 1) else (before, false)
  }

  /** `State::run` on the batchified graph: the plan's inputs set, its steps run, and the
      reset, which a turn that fails does not come to. */
  function GraphRun(m: Model, left: Width, xs: seq<Tensor>): (Width, Option<seq<Tensor>>) {
    if |xs| != |m.ins| then (left, None)
    else
      var (width, ok) := SetWidths(m, left, xs, |xs|);
      if !ok then (width, None)
      else
        var outs := RunTurn(m, if width.Some? then width.value else 1, xs);
        (if outs.Some? then None else width, outs)
  }

  lemma {:induction false} WidthsKeep(m: Model, n: nat, xs: seq<Tensor>, k: nat)
    requires k <= |xs| == |m.ins|
    ensures SetWidths(m, Some(n), xs, k).0 == Some(n)
  {
    if k > 0 {
      WidthsKeep(m, n, xs, k - 1);
    }
  }

  lemma {:induction false} WidthsBind(m: Model, left: Width, xs: seq<Tensor>, k: nat, j: nat)
    requires j < k <= |xs| == |m.ins| && InFlags(m)[j] && SetWidths(m, left, xs, k).1
    ensures xs[j].Rows? && SetWidths(m, left, xs, k).0 == Some(|xs[j].rows|)
  {
    if j < k - 1 {
      WidthsBind(m, left, xs, k - 1, j);
    }
  }

  lemma FittingWidth(m: Model, left: Width, xs: seq<Tensor>, n: nat, j: nat)
    requires Fit(m, xs, true, n) && j < |m.ins| && (left.None? || left.value == n)
    ensures SetWidth(m, left, xs[j], j) == (if InFlags(m)[j] then Some(n) else left, true)
  {
    assert xs[j] in xs;
    if InFlags(m)[j] {
      LeadingRows(xs[j], n, m.shapes[j]);
    }
  }

  lemma {:induction false} FittingWidths(m: Model, left: Width, xs: seq<Tensor>, n: nat, k: nat)
    requires k <= |xs| == |m.ins| && Fit(m, xs, true, n) && (left.None? || left.value == n)
    ensures SetWidths(m, left, xs, k).1 && (SetWidths(m, left, xs, k).0 == left || SetWidths(m, left, xs, k).0 == Some(n))
  {
    hide Fit, SetWidth;
    if k > 0 {
      FittingWidths(m, left, xs, n, k - 1);
      FittingWidth(m, SetWidths(m, left, xs, k - 1).0, xs, n, k - 1);
    }
  }

  /** A turn asking for `n` seats: refused over any other width, left as it is; otherwise
      the batchified graph's own run at `n`, which leaves nothing bound if it answers. */
  lemma GraphRunAsked(m: Model, left: Width, xs: seq<Tensor>, n: nat)
    requires |xs| == |m.ins| && Calls.AsksFor(xs, InFlags(m), n) && true in InFlags(m)
    ensures GraphRun(m, left, xs).1.Some? ==> GraphRun(m, left, xs) == (None, RunTurn(m, n, xs))
    ensures left.Some? && left.value != n ==> GraphRun(m, left, xs) == (left, None)
    ensures Fit(m, xs, true, n) && (left.None? || left.value == n) ==>
      GraphRun(m, left, xs) == (if RunTurn(m, n, xs).Some? then None else Some(n), RunTurn(m, n, xs))
  {
    hide RunTurn, SetWidths, Fit;
    var j :| 0 <= j < |InFlags(m)| && InFlags(m)[j];
    if SetWidths(m, left, xs, |xs|).1 {
      WidthsBind(m, left, xs, |xs|, j);
    }
    if left.Some? {
      WidthsKeep(m, left.value, xs, |xs|);
    }
    if Fit(m, xs, true, n) && (left.None? || left.value == n) {
      FittingWidths(m, left, xs, n, |xs|);
    }
  }

  // ---- The interior ----

  function SetupOf(m: Model, maxSeats: nat): Turns.Setup<Width> {
    Turns.Setup(
      Turns.Interior(
        (left: Width, lane: LaneTables.LaneId) => (left, true),
        (left: Width, seating: LaneTables.Seating) => (left, true),
        (left: Width, xs: Calls.Values) => GraphRun(m, left, xs)),
      InFlags(m), OutFlags(m), maxSeats)
  }

  function OriginalOf(m: Model): WholeStack.Original {
    (xs: Calls.Values) => Answer(m, xs)
  }

  lemma SeatIsNarrowed(m: Model, n: nat, xs: seq<Tensor>, i: nat)
    requires |xs| == |m.ins| && Calls.AsksFor(xs, InFlags(m), n) && i < n
    ensures WholeStack.Narrowed(Calls.SeatSlice(xs, InFlags(m), n, i), InFlags(m)) == SeatOf(m, xs, i)
  {
    var slice, seat := Calls.SeatSlice(xs, InFlags(m), n, i), SeatOf(m, xs, i);
    forall j | 0 <= j < |slice|
      ensures (if Calls.Batched(InFlags(m), j) then Unbatched.DropAxis0(slice[j]) else Some(slice[j])) == Some(seat[j])
    {}
    Unbatched.DroppedPointwise(slice, InFlags(m), seat);
  }

  lemma SlotServed(m: Model, n: nat, xs: seq<Tensor>, outs: seq<Tensor>, i: nat, o: nat)
    requires |xs| == |m.ins| && |outs| == |m.outs| && i < n && o < |m.outs| && Serves(m, n, xs, o, outs[o])
    requires Turns.Occupies(outs, OutFlags(m), n)
    ensures Turns.SeatOutputs(outs, OutFlags(m), n, i)[o] == Unbatched.AxisAdded(Answer(m, SeatOf(m, xs, i)), OutFlags(m))[o]
  {
    hide Answer, SeatOf;
    if m.outs[o].node in m.plan.carried {
      assert outs[o].rows[i..i + 1] == [outs[o].rows[i]];
    }
  }

  /** Whatever turn the batchified graph runs, if the original runs on each of its seats:
      every seat is served the original's answer to that seat alone. */
  lemma GraphServesSeats(m: Model, maxSeats: nat, left: Width, xs: Calls.Values, n: nat)
    requires Batchable(m) && true in InFlags(m) && n > 0 && Calls.AsksFor(xs, InFlags(m), n) && Runnable(m, n, xs)
    requires var outs := SetupOf(m, maxSeats).interior.run(left, xs).1; outs.Some? && Turns.Occupies(outs.value, OutFlags(m), n)
    ensures WholeStack.ServesSeats(SetupOf(m, maxSeats), OriginalOf(m), xs, SetupOf(m, maxSeats).interior.run(left, xs).1.value, n)
  {
    hide Batchable, Runnable, Serves, Answer, SeatOf, GraphRun;
    var setup, f := SetupOf(m, maxSeats), OriginalOf(m);
    GraphRunAsked(m, left, xs, n);
    var outs := RunTurn(m, n, xs).value;
    TurnServes(m, n, xs);
    forall i | 0 <= i < n
      ensures Turns.SeatOutputs(outs, setup.batchOut, n, i)
              == Unbatched.AxisAdded(f(WholeStack.Narrowed(Calls.SeatSlice(xs, setup.batchIn, n, i), setup.batchIn)), setup.batchOut)
    {
      SeatIsNarrowed(m, n, xs, i);
      forall o | 0 <= o < |m.outs|
        ensures Turns.SeatOutputs(outs, OutFlags(m), n, i)[o]
                == Unbatched.AxisAdded(Answer(m, SeatOf(m, xs, i)), OutFlags(m))[o]
      {
        SlotServed(m, n, xs, outs, i, o);
      }
    }
  }

  // ---- Turns nobody asks for, left out ----

  /** The same interior, running only the turns the original runs on seat by seat. */
  ghost function GuardedOf(m: Model, maxSeats: nat): Turns.Setup<Width> {
    Turns.Setup(
      Turns.Interior(
        SetupOf(m, maxSeats).interior.reset,
        SetupOf(m, maxSeats).interior.seat,
        (left: Width, xs: Calls.Values) => GuardedRun(m, left, xs)),
      InFlags(m), OutFlags(m), maxSeats)
  }

  ghost function GuardedRun(m: Model, left: Width, xs: Calls.Values): (Width, Option<Calls.Values>) {
    var n := SeatsIn(InFlags(m), xs);
    if |xs| == |m.ins| && Fit(m, xs, true, n) && !Runnable(m, n, xs) then (left, None) else GraphRun(m, left, xs)
  }

  lemma GuardedServes(m: Model, maxSeats: nat)
    requires Batchable(m) && true in InFlags(m)
    ensures WholeStack.SeatBySeat(GuardedOf(m, maxSeats), OriginalOf(m))
  {
    hide Batchable, Runnable, GraphRun, WholeStack.ServesSeats, Turns.Occupies;
    var setup, f := GuardedOf(m, maxSeats), OriginalOf(m);
    forall left: Width, xs: Calls.Values, n: nat |
      n > 0 && Calls.AsksFor(xs, setup.batchIn, n) && setup.interior.run(left, xs).1.Some?
      && Turns.Occupies(setup.interior.run(left, xs).1.value, setup.batchOut, n)
      ensures WholeStack.ServesSeats(setup, f, xs, setup.interior.run(left, xs).1.value, n)
    {
      SeatsAsked(InFlags(m), xs, n);
      GraphRunAsked(m, left, xs, n);
      GraphServesSeats(m, maxSeats, left, xs, n);
      ServesAlike(SetupOf(m, maxSeats), setup, f, xs, RunTurn(m, n, xs).value, n);
    }
  }

  lemma ServesAlike(a: Turns.Setup<Width>, b: Turns.Setup<Width>, f: WholeStack.Original, xs: Calls.Values, outs: Calls.Values, n: nat)
    requires a.batchIn == b.batchIn && a.batchOut == b.batchOut
    requires Calls.AsksFor(xs, a.batchIn, n) && Turns.Occupies(outs, a.batchOut, n)
    requires WholeStack.ServesSeats(a, f, xs, outs, n)
    ensures WholeStack.ServesSeats(b, f, xs, outs, n)
  {}

  /** One seat the original runs on, or does not fit. */
  ghost predicate SeatIsMeant(m: Model, seat: Calls.Values) {
    Fit(m, seat, true, 1) ==> RunOriginal(m, 1, SeatOf(m, seat, 0)).Some?
  }

  ghost function Meant(m: Model): Calls.Values -> bool {
    (seat: Calls.Values) => SeatIsMeant(m, seat)
  }

  /** The original runs on every seat that fits of every call received. */
  ghost predicate RunsOnAll(m: Model, received: seq<Streams.Received>) {
    SameRuns.AskedOnly(InFlags(m), Meant(m), received)
  }

  lemma SliceFits(m: Model, xs: Calls.Values, n: nat, i: nat)
    requires Fit(m, xs, true, n) && i < n && Calls.AsksFor(xs, InFlags(m), n)
    ensures Fit(m, Calls.SeatSlice(xs, InFlags(m), n, i), true, 1)
    ensures SeatOf(m, Calls.SeatSlice(xs, InFlags(m), n, i), 0) == SeatOf(m, xs, i)
  {
    var slice := Calls.SeatSlice(xs, InFlags(m), n, i);
    forall j | 0 <= j < |slice|
      ensures Sound(slice[j]) && ShapeOf(slice[j]) == (if InFlags(m)[j] then [1] else []) + m.shapes[j]
    {
      assert xs[j] in xs;
      if InFlags(m)[j] {
        LeadingRows(xs[j], n, m.shapes[j]);
        assert xs[j].rows[i..i + 1] == [xs[j].rows[i]] && xs[j].rows[i] in xs[j].rows;
      }
    }
    forall x | x in slice
      ensures Sound(x)
    {
      var j :| 0 <= j < |slice| && slice[j] == x;
    }
    SeatIsNarrowed(m, n, xs, i);
    WholeStack.OneSeatIsWhole(slice, InFlags(m));
    SeatIsNarrowed(m, 1, slice, 0);
  }

  lemma GuardIsTwin(m: Model, maxSeats: nat)
    requires true in InFlags(m)
    ensures SameRuns.Twins(SetupOf(m, maxSeats), GuardedOf(m, maxSeats), Meant(m))
  {
    hide Fit, SeatOf, RunOriginal, GraphRun;
    var a, b, meant := SetupOf(m, maxSeats), GuardedOf(m, maxSeats), Meant(m);
    forall left: Width, xs: Calls.Values, n: nat
      ensures SameRuns.RunsAlike(a, b, meant, left, xs, n)
    {
      if n > 0 && Calls.AsksFor(xs, a.batchIn, n)
         && (forall i | 0 <= i < n :: meant(Calls.SeatSlice(xs, a.batchIn, n, i))) && Fit(m, xs, true, n) {
        SeatsAsked(InFlags(m), xs, n);
        forall i | 0 <= i < n
          ensures RunOriginal(m, 1, SeatOf(m, xs, i)).Some?
        {
          SliceFits(m, xs, n, i);
          assert meant(Calls.SeatSlice(xs, a.batchIn, n, i));
        }
      } else if n > 0 && Calls.AsksFor(xs, a.batchIn, n) {
        SeatsAsked(InFlags(m), xs, n);
      }
    }
  }

  /** End to end: over every run of the worker on the batchified graph, a call made
      through the hidden interface with inputs that fit the facts, and answered with
      outputs, is answered exactly what the original graph answers. All that is asked of the
      original is that it runs on the seats actually received. */
  lemma StackIsOriginal(m: Model, maxSeats: nat, maxLanes: nat, events: seq<Turns.Event>, a: Queues.Answer, x: seq<Tensor>)
    requires Batchable(m) && true in InFlags(m) && Fit(m, x, false, 1)
    requires Streams.AllowedRun(SetupOf(m, maxSeats), Streams.Fresh(None, maxLanes), events)
    requires a in Streams.Ran(SetupOf(m, maxSeats), Streams.Fresh(None, maxLanes), events).world.queue.outbox && a.result.Ok?
    requires var sys := Streams.Ran(SetupOf(m, maxSeats), Streams.Fresh(None, maxLanes), events);
             && RunsOnAll(m, sys.received)
             && a.call < |sys.received| && sys.received[a.call].call.inputs == Unbatched.AxisAdded(x, InFlags(m))
    ensures AnswerOf(m, x).Some? && Unbatched.AxisDropped(a.result.value, OutFlags(m)) == AnswerOf(m, x)
  {
    hide Batchable, Fit, SeatIsMeant, Streams.AllowedRun, Streams.Ran, SameRuns.Twins, WholeStack.SeatBySeat, Answer, AnswerOf;
    var setup, guarded, f := SetupOf(m, maxSeats), GuardedOf(m, maxSeats), OriginalOf(m);
    GuardIsTwin(m, maxSeats);
    Streams.FreshIsSettled(setup, None, maxLanes);
    SameRuns.RunsAgree(setup, guarded, Meant(m), Streams.Fresh(None, maxLanes), events);
    GuardedServes(m, maxSeats);
    var received := Streams.Ran(setup, Streams.Fresh(None, maxLanes), events).received;
    AskedRuns(m, received, a.call, x);
    OriginalAnswers(m, x);
    forall y: Calls.Values
      ensures |f(y)| == |m.outs|
    {}
    FitHasAll(m, x);
    WholeStack.HiddenLanedIsOriginal(guarded, f, |m.outs|, None, maxLanes, events, a, x);
  }

  lemma FitHasAll(m: Model, x: seq<Tensor>)
    requires Fit(m, x, false, 1)
    ensures |x| == |InFlags(m)|
  {}

  lemma {:induction false} AddedFits(m: Model, x: seq<Tensor>)
    requires Fit(m, x, false, 1)
    ensures Fit(m, Unbatched.AxisAdded(x, InFlags(m)), true, 1)
    ensures SeatOf(m, Unbatched.AxisAdded(x, InFlags(m)), 0) == x
  {
    var added := Unbatched.AxisAdded(x, InFlags(m));
    forall j | 0 <= j < |added|
      ensures Sound(added[j]) && ShapeOf(added[j]) == (if InFlags(m)[j] then [1] else []) + m.shapes[j]
    {
      assert x[j] in x;
      assert [1] + ([] + m.shapes[j]) == [1] + m.shapes[j] && ([] + m.shapes[j]) == m.shapes[j];
    }
    forall t | t in added
      ensures Sound(t)
    {
      var j :| 0 <= j < |added| && added[j] == t;
    }
  }

  lemma AskedRuns(m: Model, received: seq<Streams.Received>, call: nat, x: seq<Tensor>)
    requires RunsOnAll(m, received) && call < |received| && Fit(m, x, false, 1)
    requires received[call].call.inputs == Unbatched.AxisAdded(x, InFlags(m))
    ensures RunOriginal(m, 1, x).Some?
  {
    hide Fit, RunOriginal, SeatOf;
    assert received[call] in received;
    FitHasAll(m, x);
    WholeStack.AddedAsksOne(x, InFlags(m));
    AddedFits(m, x);
    var seat := Unbatched.AxisAdded(x, InFlags(m));
    assert SameRuns.AsksOnly(InFlags(m), Meant(m), received[call].call.inputs);
    assert seat in [seat] && Meant(m)(seat);
  }

  lemma OriginalAnswers(m: Model, x: seq<Tensor>)
    requires Batchable(m) && RunOriginal(m, 1, x).Some?
    ensures AnswerOf(m, x) == Some(Answer(m, x))
  {
    hide Run, Truthful, Regular, Batched;
    OutputsRead(m, RunOriginal(m, 1, x).value);
  }
}
