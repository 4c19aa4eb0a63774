/** Stack patch replication (internal/acp/stack.go).

    A projector remembers the encoded nodes it last sent, diffs every new tree
    against them and emits revisioned patches.  A client that holds any snapshot
    and the patches that follow it must hold the projector's own nodes.  The
    class follows the source's updates in place; the value-level functions it is
    proved against carry the theorems about whole runs. */
module StackPatch {
  import opened Common

  type Bytes = seq<int>

  datatype Node = Node(id: string, body: string)
  datatype Tree = Tree(roots: seq<string>, nodes: seq<Node>)
  datatype Patch = Patch(baseRev: nat, rev: nat, roots: seq<string>, upsert: seq<Node>, remove: seq<string>)
  datatype Snapshot = Snapshot(rev: nat, roots: seq<string>, nodes: seq<Node>)

  /** The JSON encoding of a node: distinct nodes encode differently and no
      encoding is empty (an absent entry reads as the empty byte string). */
  ghost predicate Faithful(encode: Node -> Bytes) {
    && (forall n :: encode(n) != [])
    && (forall m, n :: encode(m) == encode(n) ==> m == n)
  }

  ghost predicate DistinctIds(nodes: seq<Node>) {
    forall i, j :: 0 <= i < j < |nodes| ==> nodes[i].id != nodes[j].id
  }

  function Encoded(encode: Node -> Bytes, nodes: seq<Node>): map<string, Bytes> {
    if nodes == [] then map[]
    else
      var n := nodes[|nodes| - 1];
      Encoded(encode, nodes[..|nodes| - 1])[n.id := encode(n)]
  }

  function Held(sent: map<string, Bytes>, id: string): Bytes {
    if id in sent then sent[id] else []
  }

  /** The nodes whose encoding differs from the one last sent, in tree order. */
  function Upserts(encode: Node -> Bytes, nodes: seq<Node>, sent: map<string, Bytes>): seq<Node> {
    if nodes == [] then []
    else
      var n, rest := nodes[|nodes| - 1], Upserts(encode, nodes[..|nodes| - 1], sent);
      if encode(n) == Held(sent, n.id) then rest else rest + [n]
  }

  /** The ids of the last sent order that the new tree no longer has. */
  function Vanished(order: seq<string>, now: set<string>): seq<string> {
    if order == [] then []
    else
      var id, rest := order[|order| - 1], Vanished(order[..|order| - 1], now);
      if id in now then rest else rest + [id]
  }

  function Ids(nodes: seq<Node>): seq<string> {
    if nodes == [] then [] else Ids(nodes[..|nodes| - 1]) + [nodes[|nodes| - 1].id]
  }

  /** The nodes a client holds after it stored them in order. */
  function NodeMap(nodes: seq<Node>): map<string, Node> {
    if nodes == [] then map[]
    else
      var n := nodes[|nodes| - 1];
      NodeMap(nodes[..|nodes| - 1])[n.id := n]
  }

  // ------------------------------------------------------------------ client

  datatype Client = Client(rev: nat, nodes: map<string, Node>, roots: seq<string>)

  function Take(s: Snapshot): Client {
    Client(s.rev, NodeMap(s.nodes), s.roots)
  }

  function Apply(c: Client, p: Patch): Client {
    Client(p.rev, (map id | id in c.nodes && id !in p.remove :: c.nodes[id]) + NodeMap(p.upsert), p.roots)
  }

  /** A client applies exactly the patches that start at the revision it holds. */
  function Follow(c: Client, patches: seq<Patch>): Client {
    if patches == [] then c
    else
      var c' := Follow(c, patches[..|patches| - 1]);
      var p := patches[|patches| - 1];
      if p.baseRev == c'.rev then Apply(c', p) else c'
  }

  // --------------------------------------------------------------- projector

  datatype Proj = Proj(active: bool, dirty: bool, wakeAt: int, rev: nat,
                       sent: map<string, Bytes>, order: seq<string>, roots: seq<string>)

  const Idle := Proj(false, false, 0, 0, map[], [], [])

  function DiffPatch(encode: Node -> Bytes, p: Proj, tree: Tree): Patch {
    Patch(p.rev, p.rev + 1, tree.roots, Upserts(encode, tree.nodes, p.sent),
          Vanished(p.order, Encoded(encode, tree.nodes).Keys))
  }

  predicate Changed(encode: Node -> Bytes, p: Proj, tree: Tree) {
    var patch := DiffPatch(encode, p, tree);
    patch.upsert != [] || patch.remove != []
  }

  function Diffed(encode: Node -> Bytes, p: Proj, tree: Tree): Proj {
    if Changed(encode, p, tree)
    then p.(rev := p.rev + 1, sent := Encoded(encode, tree.nodes), order := Ids(tree.nodes), roots := tree.roots)
    else p
  }

  predicate Due(p: Proj, now: int) { p.wakeAt != 0 && p.wakeAt <= now }

  predicate Skips(p: Proj, onlyDirty: bool, now: int) {
    !p.active || (onlyDirty && !p.dirty && !Due(p, now))
  }

  /** What one operation sends: at most one patch and at most one snapshot. */
  datatype Op =
    | MarkDirty
    | Flush(tree: Tree, onlyDirty: bool, now: int, staleAt: int)
    | Read(tree: Tree)

  datatype Outcome = Outcome(proj: Proj, patch: Option<Patch>, snapshot: Option<Snapshot>)

  function Step(encode: Node -> Bytes, p: Proj, op: Op): Outcome {
    match op
    case MarkDirty => Outcome(p.(dirty := true), None, None)
    case Flush(tree, onlyDirty, now, staleAt) =>
      if Skips(p, onlyDirty, now) then Outcome(p, None, None)
      else Outcome(Diffed(encode, p, tree).(dirty := false, wakeAt := staleAt),
                   if Changed(encode, p, tree) then Some(DiffPatch(encode, p, tree)) else None, None)
    case Read(tree) =>
      var first := p.(active := true, rev := 1, sent := Encoded(encode, tree.nodes), order := Ids(tree.nodes), roots := tree.roots);
      var p' := (if p.active then Diffed(encode, p, tree) else first).(dirty := false);
      Outcome(p', if p.active && Changed(encode, p, tree) then Some(DiffPatch(encode, p, tree)) else None,
              Some(Snapshot(p'.rev, tree.roots, tree.nodes)))
  }

  /** Everything one projector instance sent over a run. */
  datatype World = World(proj: Proj, patches: seq<Patch>, snapshots: seq<Snapshot>, last: Option<Tree>)

  function After(encode: Node -> Bytes, w: World, op: Op): World {
    var o := Step(encode, w.proj, op);
    World(o.proj,
          w.patches + (if o.patch.Some? then [o.patch.value] else []),
          w.snapshots + (if o.snapshot.Some? then [o.snapshot.value] else []),
          if Projects(w.proj, op) then Some(op.tree) else w.last)
  }

  const Start := World(Idle, [], [], None)

  function Run(encode: Node -> Bytes, ops: seq<Op>): World {
    if ops == [] then Start else After(encode, Run(encode, ops[..|ops| - 1]), ops[|ops| - 1])
  }

  /** Whether an operation compares a tree with what was sent. */
  predicate Projects(p: Proj, op: Op) {
    op.Read? || (op.Flush? && !Skips(p, op.onlyDirty, op.now))
  }

  ghost predicate DistinctRun(ops: seq<Op>) {
    forall i :: 0 <= i < |ops| && !ops[i].MarkDirty? ==> DistinctIds(ops[i].tree.nodes)
  }

  // ------------------------------------------------------------- basic facts

  /** The client's nodes are the ones whose encodings the projector remembers. */
  ghost predicate Mirrors(encode: Node -> Bytes, nodes: map<string, Node>, sent: map<string, Bytes>) {
    && nodes.Keys == sent.Keys
    && forall id :: id in nodes ==> nodes[id].id == id && encode(nodes[id]) == sent[id]
  }

  lemma {:induction false} MirrorOfTree(encode: Node -> Bytes, nodes: seq<Node>)
    ensures Mirrors(encode, NodeMap(nodes), Encoded(encode, nodes))
    ensures forall id :: id in Ids(nodes) <==> id in Encoded(encode, nodes)
  {
    if nodes != [] {
      MirrorOfTree(encode, nodes[..|nodes| - 1]);
    }
  }

  lemma {:induction false} NodeMapHas(nodes: seq<Node>, n: Node)
    requires DistinctIds(nodes)
    ensures n in nodes <==> n.id in NodeMap(nodes) && NodeMap(nodes)[n.id] == n
  {
    if nodes != [] {
      var front, last := nodes[..|nodes| - 1], nodes[|nodes| - 1];
      NodeMapHas(front, n);
      assert nodes == front + [last];
      assert forall m :: m in front ==> m.id != last.id;
    }
  }

  lemma {:induction false} UpsertsAre(encode: Node -> Bytes, nodes: seq<Node>, sent: map<string, Bytes>)
    requires DistinctIds(nodes)
    ensures DistinctIds(Upserts(encode, nodes, sent))
    ensures forall n :: n in Upserts(encode, nodes, sent) <==> n in nodes && encode(n) != Held(sent, n.id)
  {
    if nodes != [] {
      var front, n := nodes[..|nodes| - 1], nodes[|nodes| - 1];
      UpsertsAre(encode, front, sent);
      assert nodes == front + [n];
      assert forall m :: m in front ==> m.id != n.id;
    }
  }

  lemma {:induction false} VanishedAre(order: seq<string>, now: set<string>)
    ensures forall id :: id in Vanished(order, now) <==> id in order && id !in now
  {
    if order != [] {
      VanishedAre(order[..|order| - 1], now);
      assert order == order[..|order| - 1] + [order[|order| - 1]];
    }
  }

  // ---------------------------------------------------------- one diff is right

  ghost predicate Orderly(p: Proj) {
    forall id :: id in p.order <==> id in p.sent
  }

  /** A faithful encoding leaves one possible node map per remembered state. */
  lemma MirrorUnique(encode: Node -> Bytes, a: map<string, Node>, b: map<string, Node>, sent: map<string, Bytes>)
    requires Faithful(encode) && Mirrors(encode, a, sent) && Mirrors(encode, b, sent)
    ensures a == b
  {
    forall id | id in a ensures a[id] == b[id] { assert encode(a[id]) == encode(b[id]); }
  }

  ghost predicate AgreeAt(a: map<string, Node>, b: map<string, Node>, id: string) {
    (id in a <==> id in b) && (id in a && id in b ==> a[id] == b[id])
  }

  lemma AgreeEverywhere(a: map<string, Node>, b: map<string, Node>)
    requires forall id :: AgreeAt(a, b, id)
    ensures a == b
  {
    assert forall id :: id in a <==> id in b by {
      forall id ensures id in a <==> id in b { assert AgreeAt(a, b, id); }
    }
    forall id | id in a ensures a[id] == b[id] { assert AgreeAt(a, b, id); }
  }

  /** One diff: the patch takes the old nodes exactly to the new tree's nodes. */
  lemma DiffReaches(encode: Node -> Bytes, p: Proj, tree: Tree, c: Client)
    requires Faithful(encode) && Orderly(p) && Mirrors(encode, c.nodes, p.sent) && DistinctIds(tree.nodes)
    ensures Apply(c, DiffPatch(encode, p, tree)).nodes == NodeMap(tree.nodes)
  {
    forall id ensures AgreeAt(Apply(c, DiffPatch(encode, p, tree)).nodes, NodeMap(tree.nodes), id) {
      DiffReachesAt(encode, p, tree, c, id);
    }
    AgreeEverywhere(Apply(c, DiffPatch(encode, p, tree)).nodes, NodeMap(tree.nodes));
  }

  /** A diff is silent exactly when the client already holds the new tree's nodes. */
  lemma DiffSilentExactly(encode: Node -> Bytes, p: Proj, tree: Tree, c: Client)
    requires Faithful(encode) && Orderly(p) && Mirrors(encode, c.nodes, p.sent) && DistinctIds(tree.nodes)
    ensures !Changed(encode, p, tree) <==> c.nodes == NodeMap(tree.nodes)
  {
    if Changed(encode, p, tree) {
      ChangedDiffers(encode, p, tree, c);
    } else {
      DiffReaches(encode, p, tree, c);
      assert NodeMap([]) == map[];
      forall id ensures AgreeAt(c.nodes, Apply(c, DiffPatch(encode, p, tree)).nodes, id) {}
      AgreeEverywhere(c.nodes, Apply(c, DiffPatch(encode, p, tree)).nodes);
    }
  }

  lemma ChangedDiffers(encode: Node -> Bytes, p: Proj, tree: Tree, c: Client)
    requires Faithful(encode) && Orderly(p) && Mirrors(encode, c.nodes, p.sent) && DistinctIds(tree.nodes)
    requires Changed(encode, p, tree)
    ensures c.nodes != NodeMap(tree.nodes)
  {
    var patch := DiffPatch(encode, p, tree);
    if patch.upsert != [] {
      var n := patch.upsert[0];
      UpsertsAre(encode, tree.nodes, p.sent);
      NodeMapHas(tree.nodes, n);
      assert n in patch.upsert;
    } else {
      var id := patch.remove[0];
      VanishedAre(p.order, Encoded(encode, tree.nodes).Keys);
      MirrorOfTree(encode, tree.nodes);
      assert id in patch.remove;
    }
  }

  lemma DiffReachesAt(encode: Node -> Bytes, p: Proj, tree: Tree, c: Client, id: string)
    requires Faithful(encode) && Orderly(p) && Mirrors(encode, c.nodes, p.sent) && DistinctIds(tree.nodes)
    ensures AgreeAt(Apply(c, DiffPatch(encode, p, tree)).nodes, NodeMap(tree.nodes), id)
  {
    var patch, target := DiffPatch(encode, p, tree), NodeMap(tree.nodes);
    MirrorOfTree(encode, tree.nodes);
    MirrorOfTree(encode, patch.upsert);
    UpsertsAre(encode, tree.nodes, p.sent);
    VanishedAre(p.order, Encoded(encode, tree.nodes).Keys);
    if id in NodeMap(patch.upsert) {
      var n := NodeMap(patch.upsert)[id];
      NodeMapHas(patch.upsert, n);
      NodeMapHas(tree.nodes, n);
    } else if id in target {
      NodeMapHas(tree.nodes, target[id]);
      NodeMapHas(patch.upsert, target[id]);
      assert encode(target[id]) == Held(p.sent, id);
    }
  }

  /** Minimality: any patch with the same effect upserts every id this one
      upserts and removes every id this one removes. */
  lemma DiffIsMinimal(encode: Node -> Bytes, p: Proj, tree: Tree, c: Client, q: Patch)
    requires Faithful(encode) && Orderly(p) && Mirrors(encode, c.nodes, p.sent)
    requires DistinctIds(tree.nodes) && DistinctIds(q.upsert)
    requires Apply(c, q).nodes == NodeMap(tree.nodes)
    ensures forall n :: n in DiffPatch(encode, p, tree).upsert ==> n in q.upsert
    ensures forall id :: id in DiffPatch(encode, p, tree).remove ==> id in q.remove
  {
    var patch, target := DiffPatch(encode, p, tree), NodeMap(tree.nodes);
    MirrorOfTree(encode, tree.nodes);
    MirrorOfTree(encode, q.upsert);
    UpsertsAre(encode, tree.nodes, p.sent);
    VanishedAre(p.order, Encoded(encode, tree.nodes).Keys);
    forall n | n in patch.upsert ensures n in q.upsert {
      NodeMapHas(tree.nodes, n);
      NodeMapHas(q.upsert, n);
    }
    forall id | id in patch.remove ensures id in q.remove {
      assert id in c.nodes && id !in target;
    }
  }

  // --------------------------------------------------------------- whole runs

  /** The patch revisions form a gapless chain from the activation revision. */
  ghost predicate Chain(patches: seq<Patch>) {
    forall k :: 0 <= k < |patches| ==> patches[k].baseRev == k + 1 && patches[k].rev == k + 2
  }

  ghost predicate ConsistentState(encode: Node -> Bytes, w: World) {
    && Chain(w.patches)
    && (w.proj.active ==> w.proj.rev == |w.patches| + 1 && Orderly(w.proj))
    && (w.proj.active <==> w.last.Some?)
    && (!w.proj.active ==> w.patches == [] && w.snapshots == [])
    && (w.last.Some? ==> DistinctIds(w.last.value.nodes) && Mirrors(encode, NodeMap(w.last.value.nodes), w.proj.sent))
  }

  ghost predicate Consistent(encode: Node -> Bytes, w: World) {
    && ConsistentState(encode, w)
    && forall s :: s in w.snapshots ==> 1 <= s.rev <= |w.patches| + 1 && Current(encode, w, s)
  }

  /** A client that took s and then followed every patch from its revision on. */
  ghost predicate Current(encode: Node -> Bytes, w: World, s: Snapshot)
    requires 1 <= s.rev <= |w.patches| + 1
  {
    var c := Follow(Take(s), w.patches[s.rev - 1..]);
    c.rev == w.proj.rev && Mirrors(encode, c.nodes, w.proj.sent)
  }

  lemma FollowMore(c: Client, before: seq<Patch>, p: Patch)
    requires Follow(c, before).rev == p.baseRev
    ensures Follow(c, before + [p]) == Apply(Follow(c, before), p)
  {
    assert (before + [p])[..|before|] == before;
  }

  /** What one operation does to a client that took an earlier snapshot. */
  lemma FollowStep(encode: Node -> Bytes, w: World, op: Op, s: Snapshot)
    requires Consistent(encode, w) && s in w.snapshots
    ensures var o, w' := Step(encode, w.proj, op), After(encode, w, op);
      var c := Follow(Take(s), w.patches[s.rev - 1..]);
      && 1 <= s.rev <= |w.patches| + 1
      && Follow(Take(s), w'.patches[s.rev - 1..]) == (if o.patch.Some? then Apply(c, o.patch.value) else c)
  {
    var o, w' := Step(encode, w.proj, op), After(encode, w, op);
    var tail := w.patches[s.rev - 1..];
    assert Current(encode, w, s);
    if o.patch.Some? {
      assert w'.patches[s.rev - 1..] == tail + [o.patch.value];
      FollowMore(Take(s), tail, o.patch.value);
    } else {
      assert w'.patches == w.patches;
    }
  }

  lemma OldSnapshotStays(encode: Node -> Bytes, w: World, op: Op, s: Snapshot)
    requires Faithful(encode) && Consistent(encode, w) && s in w.snapshots
    requires !op.MarkDirty? ==> DistinctIds(op.tree.nodes)
    ensures 1 <= s.rev <= |After(encode, w, op).patches| + 1 && Current(encode, After(encode, w, op), s)
  {
    FollowStep(encode, w, op, s);
    assert Current(encode, w, s);
    if Step(encode, w.proj, op).patch.Some? {
      DiffReaches(encode, w.proj, op.tree, Follow(Take(s), w.patches[s.rev - 1..]));
      MirrorOfTree(encode, op.tree.nodes);
    }
  }

  lemma NewSnapshotIsCurrent(encode: Node -> Bytes, w: World, op: Op)
    requires Faithful(encode) && Consistent(encode, w) && op.Read? && DistinctIds(op.tree.nodes)
    ensures var w' := After(encode, w, op);
      var s := w'.snapshots[|w'.snapshots| - 1];
      s.rev == |w'.patches| + 1 && Current(encode, w', s)
  {
    MirrorOfTree(encode, op.tree.nodes);
    if w.proj.active {
      DiffSilentExactly(encode, w.proj, op.tree, Client(0, NodeMap(w.last.value.nodes), []));
    }
    var w' := After(encode, w, op);
    assert w'.patches[|w'.patches|..] == [];
  }

  lemma StateStays(encode: Node -> Bytes, w: World, op: Op)
    requires Faithful(encode) && Consistent(encode, w)
    requires !op.MarkDirty? ==> DistinctIds(op.tree.nodes)
    ensures ConsistentState(encode, After(encode, w, op))
  {
    if Projects(w.proj, op) {
      MirrorOfTree(encode, op.tree.nodes);
      if w.proj.active {
        DiffSilentExactly(encode, w.proj, op.tree, Client(0, NodeMap(w.last.value.nodes), []));
      }
    }
  }

  lemma StepKeeps(encode: Node -> Bytes, w: World, op: Op)
    requires Faithful(encode) && Consistent(encode, w)
    requires !op.MarkDirty? ==> DistinctIds(op.tree.nodes)
    ensures Consistent(encode, After(encode, w, op))
  {
    var w' := After(encode, w, op);
    StateStays(encode, w, op);
    forall s | s in w'.snapshots
      ensures 1 <= s.rev <= |w'.patches| + 1 && Current(encode, w', s)
    {
      if s in w.snapshots {
        OldSnapshotStays(encode, w, op, s);
      } else {
        NewSnapshotIsCurrent(encode, w, op);
      }
    }
  }

  /** Every reachable state of one projector is consistent. */
  lemma {:induction false} RunKeeps(encode: Node -> Bytes, ops: seq<Op>)
    requires Faithful(encode) && DistinctRun(ops)
    ensures Consistent(encode, Run(encode, ops))
  {
    if ops != [] {
      var front := ops[..|ops| - 1];
      RunKeeps(encode, front);
      StepKeeps(encode, Run(encode, front), ops[|ops| - 1]);
    }
  }

  /** Replication: after any run, whichever snapshot a client took, following the
      patches whose base revision is at least the snapshot's leaves it with
      exactly the nodes of the last tree projected, at the projector's revision. */
  lemma ReplicaConverges(encode: Node -> Bytes, ops: seq<Op>, s: Snapshot)
    requires Faithful(encode) && DistinctRun(ops) && s in Run(encode, ops).snapshots
    ensures var w := Run(encode, ops);
      && 1 <= s.rev <= w.proj.rev == |w.patches| + 1
      && w.last.Some?
      && (forall k :: 0 <= k < |w.patches| ==> (s.rev <= w.patches[k].baseRev <==> s.rev - 1 <= k))
      && var c := Follow(Take(s), w.patches[s.rev - 1..]);
         c.rev == w.proj.rev && c.nodes == NodeMap(w.last.value.nodes)
  {
    RunKeeps(encode, ops);
    var w := Run(encode, ops);
    var c := Follow(Take(s), w.patches[s.rev - 1..]);
    MirrorUnique(encode, c.nodes, NodeMap(w.last.value.nodes), w.proj.sent);
  }

  // ----------------------------------------------------------- marks and flushes

  /** A flush of an active stack that is marked, due or asked for regardless: it sends a
      patch exactly when the client's nodes are not the tree's, the client then holds the
      tree, and neither the mark nor the old wake time is left. */
  lemma FlushSendsExactly(encode: Node -> Bytes, p: Proj, tree: Tree, onlyDirty: bool, now: int, staleAt: int, c: Client)
    requires Faithful(encode) && Orderly(p) && Mirrors(encode, c.nodes, p.sent) && DistinctIds(tree.nodes)
    requires p.active && (p.dirty || !onlyDirty || (p.wakeAt != 0 && p.wakeAt <= now))
    ensures var o := Step(encode, p, Op.Flush(tree, onlyDirty, now, staleAt));
      && (o.patch.Some? <==> c.nodes != NodeMap(tree.nodes))
      && (if o.patch.Some? then Apply(c, o.patch.value) else c).nodes == NodeMap(tree.nodes)
      && o.proj.active && !o.proj.dirty && o.proj.wakeAt == staleAt && o.snapshot.None?
  {
    DiffReaches(encode, p, tree, c);
    DiffSilentExactly(encode, p, tree, c);
  }

  /** Any other flush sends nothing and changes nothing. */
  lemma QuietFlush(encode: Node -> Bytes, p: Proj, tree: Tree, onlyDirty: bool, now: int, staleAt: int)
    requires !p.active || (onlyDirty && !p.dirty && (p.wakeAt == 0 || now < p.wakeAt))
    ensures Step(encode, p, Op.Flush(tree, onlyDirty, now, staleAt)) == Outcome(p, None, None)
  {
  }

  /** A read answers with the tree, activates the stack and clears its mark; it leaves
      the wake time to the flusher. */
  lemma ReadAnswers(encode: Node -> Bytes, p: Proj, tree: Tree)
    ensures var o := Step(encode, p, Op.Read(tree));
      && o.snapshot.Some? && o.snapshot.value.roots == tree.roots && o.snapshot.value.nodes == tree.nodes
      && o.proj.active && !o.proj.dirty && o.proj.wakeAt == p.wakeAt && (!p.active ==> o.patch.None?)
  {
  }

  lemma RunMore(encode: Node -> Bytes, ops: seq<Op>, k: nat)
    requires k < |ops|
    ensures Run(encode, ops[..k + 1]) == After(encode, Run(encode, ops[..k]), ops[k])
  {
    assert ops[..k + 1][..k] == ops[..k];
  }

  /** A mark lasts until a flush or a read. */
  lemma {:induction false} MarkLasts(encode: Node -> Bytes, ops: seq<Op>, i: nat, j: nat)
    requires i < j <= |ops| && forall k :: i <= k < j ==> ops[k].MarkDirty?
    ensures Run(encode, ops[..j]).proj == Run(encode, ops[..i]).proj.(dirty := true)
    ensures Run(encode, ops[..j]).snapshots == Run(encode, ops[..i]).snapshots
    decreases j
  {
    if i + 1 < j { MarkLasts(encode, ops, i, j - 1); }
    RunMore(encode, ops, j - 1);
  }

  /** A marked stack is shown: over any run, the first flush after a mark, whatever its
      clock and though it asks for marked stacks only, leaves every client of an active
      stack with that flush's tree. */
  lemma MarkedIsShown(encode: Node -> Bytes, ops: seq<Op>, i: nat, j: nat, s: Snapshot)
    requires Faithful(encode) && DistinctRun(ops) && i < j < |ops|
    requires (forall k :: i <= k < j ==> ops[k].MarkDirty?) && ops[j].Flush?
    requires s in Run(encode, ops[..i]).snapshots
    ensures var w := Run(encode, ops[..j + 1]);
      && 1 <= s.rev <= |w.patches| + 1 && Follow(Take(s), w.patches[s.rev - 1..]).nodes == NodeMap(ops[j].tree.nodes)
      && w.last == Some(ops[j].tree) && !w.proj.dirty && w.proj.wakeAt == ops[j].staleAt
  {
    MarkLasts(encode, ops, i, j);
    RunMore(encode, ops, j);
    RunKeeps(encode, ops[..i]);
    var w := Run(encode, ops[..j + 1]);
    assert s in w.snapshots;
    assert w.last == Some(ops[j].tree);
    ReplicaConverges(encode, ops[..j + 1], s);
  }

  /** Patches list nodes and removals in the tree's and the last sent order. */
  lemma {:induction false} PatchesInOrder(encode: Node -> Bytes, nodes: seq<Node>, sent: map<string, Bytes>, order: seq<string>, now: set<string>, k: nat)
    ensures k <= |nodes| ==> Upserts(encode, nodes[..k], sent) <= Upserts(encode, nodes, sent)
    ensures k <= |order| ==> Vanished(order[..k], now) <= Vanished(order, now)
    decreases |nodes| + |order|
  {
    if k < |nodes| {
      var front := nodes[..|nodes| - 1];
      assert front[..k] == nodes[..k];
      PatchesInOrder(encode, front, sent, [], now, k);
    } else if k == |nodes| {
      assert nodes[..k] == nodes;
    }
    if k < |order| {
      var front := order[..|order| - 1];
      assert front[..k] == order[..k];
      PatchesInOrder(encode, [], sent, front, now, k);
    } else if k == |order| {
      assert order[..k] == order;
    }
  }

  // -------------------------------------------------------------------- roots

  /** After one diff a client in step always holds the tree's nodes; it holds the
      tree's roots too exactly when a patch was sent or its roots were already
      those: a roots-only change is never sent. */
  lemma InStepExactly(encode: Node -> Bytes, p: Proj, tree: Tree, c: Client)
    requires Faithful(encode) && Orderly(p) && Mirrors(encode, c.nodes, p.sent) && DistinctIds(tree.nodes)
    ensures var c' := if Changed(encode, p, tree) then Apply(c, DiffPatch(encode, p, tree)) else c;
      && c'.nodes == NodeMap(tree.nodes)
      && (c'.roots == tree.roots <==> c.nodes != NodeMap(tree.nodes) || c.roots == tree.roots)
  {
    DiffReaches(encode, p, tree, c);
    DiffSilentExactly(encode, p, tree, c);
  }

  ghost predicate RootsMove(encode: Node -> Bytes, w: World, op: Op)
    requires !op.MarkDirty?
  {
    Projects(w.proj, op) && w.last.Some? && w.last.value.roots != op.tree.roots
    ==> Changed(encode, w.proj, op.tree)
  }

  /** Runs in which roots move only together with some node. */
  ghost predicate RootsMoveWithNodes(encode: Node -> Bytes, ops: seq<Op>) {
    forall i :: 0 <= i < |ops| && !ops[i].MarkDirty? ==>
      RootsMove(encode, Run(encode, ops[..i]), ops[i])
  }

  ghost predicate RootsAgree(w: World) {
    && (w.last.Some? ==> w.proj.roots == w.last.value.roots)
    && forall s :: s in w.snapshots && 1 <= s.rev <= |w.patches| + 1 ==>
         Follow(Take(s), w.patches[s.rev - 1..]).roots == w.proj.roots
  }

  lemma RootsStep(encode: Node -> Bytes, w: World, op: Op, w': World)
    requires Consistent(encode, w) && Consistent(encode, w') && RootsAgree(w)
    requires w' == After(encode, w, op)
    requires !op.MarkDirty? ==> RootsMove(encode, w, op)
    ensures RootsAgree(w')
  {
    forall s | s in w'.snapshots
      ensures Follow(Take(s), w'.patches[s.rev - 1..]).roots == w'.proj.roots
    {
      if s in w.snapshots {
        FollowStep(encode, w, op, s);
      } else {
        assert w'.patches[s.rev - 1..] == [];
      }
    }
  }

  /** In such runs every client's roots are the last tree's roots too. */
  lemma {:induction false} RootsConverge(encode: Node -> Bytes, ops: seq<Op>)
    requires Faithful(encode) && DistinctRun(ops) && RootsMoveWithNodes(encode, ops)
    ensures RootsAgree(Run(encode, ops))
  {
    if ops != [] {
      var front := ops[..|ops| - 1];
      forall i | 0 <= i < |front| && !front[i].MarkDirty? ensures RootsMove(encode, Run(encode, front[..i]), front[i]) {
        assert front[..i] == ops[..i] && front[i] == ops[i];
      }
      RootsConverge(encode, front);
      RunKeeps(encode, front);
      RunKeeps(encode, ops);
      RootsStep(encode, Run(encode, front), ops[|ops| - 1], Run(encode, ops));
    }
  }

  /** Without that condition the claim is false: a read after a roots-only change
      answers with roots the projector never recorded, at an unchanged revision,
      so two clients hold one revision and different roots. */
  lemma RootsOnlyChangeSplitsClients(encode: Node -> Bytes, n: Node)
    requires Faithful(encode)
    ensures var ops := [Read(Tree(["a"], [n])), Read(Tree(["b"], [n]))];
      var w := Run(encode, ops);
      && DistinctRun(ops) && |w.snapshots| == 2 && w.patches == []
      && w.snapshots[0].rev == w.snapshots[1].rev == w.proj.rev
      && w.snapshots[0].roots == w.proj.roots != w.snapshots[1].roots == w.last.value.roots
  {
    var r0, r1 := Read(Tree(["a"], [n])), Read(Tree(["b"], [n]));
    assert [r0][..0] == [] && [r0, r1][..1] == [r0];
    var w0 := After(encode, Start, r0);
    assert Run(encode, [r0]) == w0;
    SingleNode(encode, n);
    RunTwo(encode, r0, r1);
  }

  lemma RunTwo(encode: Node -> Bytes, a: Op, b: Op)
    ensures Run(encode, [a, b]) == After(encode, After(encode, Start, a), b)
  {
    assert [a, b][..1] == [a] && [a][..0] == [];
    assert Run(encode, [a]) == After(encode, Start, a);
  }

  lemma SingleNode(encode: Node -> Bytes, n: Node)
    ensures Encoded(encode, [n]) == map[n.id := encode(n)] && NodeMap([n]) == map[n.id := n] && Ids([n]) == [n.id]
    ensures Upserts(encode, [n], map[n.id := encode(n)]) == []
    ensures Vanished([n.id], {n.id}) == []
    ensures map[n.id := encode(n)].Keys == {n.id}
  {
    assert [n][..0] == [] && [n.id][..0] == [];
  }

  /** Without distinct ids the claim is false: a tree that repeats an id sends its
      earlier node on every diff and never the later one it remembers. */
  lemma RepeatedIdDiverges(encode: Node -> Bytes, id: string)
    requires Faithful(encode)
    ensures var m, n := Node(id, "1"), Node(id, "2");
      var ops := [Read(Tree([], [n])), Flush(Tree([], [m, n]), false, 0, 0)];
      var w := Run(encode, ops);
      && |w.patches| == 1 && |w.snapshots| == 1
      && Follow(Take(w.snapshots[0]), w.patches).nodes == map[id := m]
      && !Mirrors(encode, map[id := m], w.proj.sent)
  {
    var m, n := Node(id, "1"), Node(id, "2");
    var r, f := Read(Tree([], [n])), Flush(Tree([], [m, n]), false, 0, 0);
    assert [r][..0] == [] && [r, f][..1] == [r];
    var w := After(encode, Start, r);
    assert Run(encode, [r]) == w;
    RunTwo(encode, r, f);
    SingleNode(encode, m);
    SingleNode(encode, n);
    RepeatedId(encode, m, n);
    FollowMore(Take(Snapshot(1, [], [n])), [], DiffPatch(encode, w.proj, f.tree));
  }

  predicate Resent(encode: Node -> Bytes, sent: map<string, Bytes>, n: Node) { encode(n) != Held(sent, n.id) }

  lemma UpsertStep(encode: Node -> Bytes, front: seq<Node>, last: Node, sent: map<string, Bytes>)
    ensures NodeMap(front + [last]) == NodeMap(front)[last.id := last]
    ensures var u := NodeMap(Upserts(encode, front, sent));
      NodeMap(Upserts(encode, front + [last], sent)) == if Resent(encode, sent, last) then u[last.id := last] else u
  {
    assert (front + [last])[..|front|] == front;
    var u := Upserts(encode, front, sent);
    assert (u + [last])[..|u|] == u;
  }

  /** What the upserts leave a client with, ids repeated or not: the last node of an id
      that was sent again. */
  lemma {:induction false} LastUpsert(encode: Node -> Bytes, nodes: seq<Node>, sent: map<string, Bytes>, id: string)
    ensures var u := NodeMap(Upserts(encode, nodes, sent));
      && (id in u ==> u[id].id == id && Resent(encode, sent, u[id]) && u[id] in nodes)
      && (id in NodeMap(nodes) ==> NodeMap(nodes)[id].id == id)
      && (id in NodeMap(nodes) && Resent(encode, sent, NodeMap(nodes)[id]) ==> id in u && u[id] == NodeMap(nodes)[id])
  {
    if nodes != [] {
      var front, last := nodes[..|nodes| - 1], nodes[|nodes| - 1];
      LastUpsert(encode, front, sent, id);
      assert nodes == front + [last];
      UpsertStep(encode, front, last, sent);
    }
  }

  lemma {:induction false} ResentIsUpserted(encode: Node -> Bytes, nodes: seq<Node>, sent: map<string, Bytes>, n: Node)
    requires n in nodes && Resent(encode, sent, n)
    ensures n.id in NodeMap(Upserts(encode, nodes, sent))
  {
    var front, last := nodes[..|nodes| - 1], nodes[|nodes| - 1];
    assert nodes == front + [last];
    UpsertStep(encode, front, last, sent);
    if n in front {
      ResentIsUpserted(encode, front, sent, n);
    }
  }

  /** Exactly when a diff reaches its tree, ids repeated or not: whenever some node of
      an id is sent again, so is the last node of that id. */
  lemma DiffReachesExactly(encode: Node -> Bytes, p: Proj, tree: Tree, c: Client)
    requires Faithful(encode) && Orderly(p) && Mirrors(encode, c.nodes, p.sent)
    ensures Apply(c, DiffPatch(encode, p, tree)).nodes == NodeMap(tree.nodes)
       <==> forall n :: n in tree.nodes && Resent(encode, p.sent, n)
              ==> n.id in NodeMap(tree.nodes) && Resent(encode, p.sent, NodeMap(tree.nodes)[n.id])
  {
    var got, target := Apply(c, DiffPatch(encode, p, tree)).nodes, NodeMap(tree.nodes);
    MirrorOfTree(encode, tree.nodes);
    if forall n :: n in tree.nodes && Resent(encode, p.sent, n) ==> n.id in target && Resent(encode, p.sent, target[n.id]) {
      forall id ensures AgreeAt(got, target, id) {
        LastUpsert(encode, tree.nodes, p.sent, id);
        ReachesAt(encode, p, tree, c, id);
      }
      AgreeEverywhere(got, target);
    } else {
      var n :| n in tree.nodes && Resent(encode, p.sent, n) && !(n.id in target && Resent(encode, p.sent, target[n.id]));
      LastUpsert(encode, tree.nodes, p.sent, n.id);
      ResentIsUpserted(encode, tree.nodes, p.sent, n);
      assert got[n.id] == NodeMap(Upserts(encode, tree.nodes, p.sent))[n.id];
    }
  }

  lemma ReachesAt(encode: Node -> Bytes, p: Proj, tree: Tree, c: Client, id: string)
    requires Faithful(encode) && Orderly(p) && Mirrors(encode, c.nodes, p.sent)
    requires id in NodeMap(Upserts(encode, tree.nodes, p.sent))
      ==> id in NodeMap(tree.nodes) && NodeMap(Upserts(encode, tree.nodes, p.sent))[id] == NodeMap(tree.nodes)[id]
    requires id in NodeMap(tree.nodes) && id !in NodeMap(Upserts(encode, tree.nodes, p.sent))
      ==> encode(NodeMap(tree.nodes)[id]) == Held(p.sent, id)
    ensures AgreeAt(Apply(c, DiffPatch(encode, p, tree)).nodes, NodeMap(tree.nodes), id)
  {
    MirrorOfTree(encode, tree.nodes);
    VanishedAre(p.order, Encoded(encode, tree.nodes).Keys);
  }

  lemma RepeatedId(encode: Node -> Bytes, m: Node, n: Node)
    requires Faithful(encode) && m.id == n.id && m != n
    ensures Upserts(encode, [m, n], map[n.id := encode(n)]) == [m]
    ensures Encoded(encode, [m, n]) == map[n.id := encode(n)]
  {
    assert [m, n][..1] == [m] && [m][..0] == [];
    assert encode(m) != encode(n);
    SingleNode(encode, m);
    assert Upserts(encode, [m], map[n.id := encode(n)]) == [m];
  }

  // -------------------------------------------------------------- the class

  /** stackProjector: its fields, changed in place under its mutex. */
  class StackProjector {
    const encode: Node -> Bytes
    var active: bool
    var dirty: bool
    var wakeAt: int
    var rev: nat
    var sent: map<string, Bytes>
    var sentOrder: seq<string>
    var sentRoots: seq<string>

    constructor (encode: Node -> Bytes)
      ensures this.encode == encode && View() == Idle
    {
      this.encode := encode;
      active, dirty, wakeAt, rev := false, false, 0, 0;
      sent, sentOrder, sentRoots := map[], [], [];
    }

    ghost function View(): Proj
      reads this
    {
      Proj(active, dirty, wakeAt, rev, sent, sentOrder, sentRoots)
    }

    method Diff(tree: Tree) returns (patch: Patch, changed: bool)
      modifies this
      ensures changed == Changed(encode, old(View()), tree)
      ensures changed ==> patch == DiffPatch(encode, old(View()), tree)
      ensures View() == Diffed(encode, old(View()), tree)
    {
      var now: map<string, Bytes> := map[];
      var order: seq<string> := [];
      var upsert: seq<Node> := [];
      for i := 0 to |tree.nodes|
        invariant now == Encoded(encode, tree.nodes[..i])
        invariant order == Ids(tree.nodes[..i])
        invariant upsert == Upserts(encode, tree.nodes[..i], sent)
        invariant View() == old(View())
      {
        var n := tree.nodes[i];
        var bytes := encode(n);
        assert tree.nodes[..i + 1][..i] == tree.nodes[..i];
        now, order := now[n.id := bytes], order + [n.id];
        if bytes != (if n.id in sent then sent[n.id] else []) {
          upsert := upsert + [n];
        }
      }
      assert tree.nodes[..|tree.nodes|] == tree.nodes;
      var remove: seq<string> := [];
      for i := 0 to |sentOrder|
        invariant remove == Vanished(sentOrder[..i], now.Keys)
        invariant View() == old(View())
      {
        assert sentOrder[..i + 1][..i] == sentOrder[..i];
        if sentOrder[i] !in now {
          remove := remove + [sentOrder[i]];
        }
      }
      assert sentOrder[..|sentOrder|] == sentOrder;
      if upsert == [] && remove == [] {
        return Patch(0, 0, [], [], []), false;
      }
      patch := Patch(rev, rev + 1, tree.roots, upsert, remove);
      changed := true;
      rev := rev + 1;
      sent, sentOrder, sentRoots := now, order, tree.roots;
    }

    method MarkDirty()
      modifies this`dirty
      ensures View() == Step(encode, old(View()), Op.MarkDirty).proj
    {
      dirty := true;
    }

    /** flushProjectorFor: one flush of a projector the caller resolved. */
    method Flush(tree: Tree, onlyDirty: bool, now: int, staleAt: int) returns (sentPatch: Option<Patch>)
      modifies this
      ensures var o := Step(encode, old(View()), Op.Flush(tree, onlyDirty, now, staleAt));
        View() == o.proj && sentPatch == o.patch
    {
      var due := wakeAt != 0 && wakeAt <= now;
      if !active || (onlyDirty && !dirty && !due) {
        return None;
      }
      var patch, changed := Diff(tree);
      dirty, wakeAt := false, staleAt;
      sentPatch := if changed then Some(patch) else None;
    }

    /** stackSnapshot: answer session/stack, activating the projector on first use. */
    method Read(tree: Tree) returns (sentPatch: Option<Patch>, snapshot: Snapshot)
      modifies this
      ensures var o := Step(encode, old(View()), Op.Read(tree));
        View() == o.proj && sentPatch == o.patch && o.snapshot == Some(snapshot)
    {
      sentPatch := None;
      if !active {
        active, rev := true, 1;
        sent, sentOrder := map[], [];
        for i := 0 to |tree.nodes|
          invariant sent == Encoded(encode, tree.nodes[..i]) && sentOrder == Ids(tree.nodes[..i])
          invariant active && rev == 1 && wakeAt == old(wakeAt)
        {
          assert tree.nodes[..i + 1][..i] == tree.nodes[..i];
          sent := sent[tree.nodes[i].id := encode(tree.nodes[i])];
          sentOrder := sentOrder + [tree.nodes[i].id];
        }
        assert tree.nodes[..|tree.nodes|] == tree.nodes;
        sentRoots := tree.roots;
      } else {
        var patch, changed := Diff(tree);
        if changed {
          sentPatch := Some(patch);
        }
      }
      dirty := false;
      snapshot := Snapshot(rev, tree.roots, tree.nodes);
    }
  }
}
