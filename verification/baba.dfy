/**
 * The transition coordinator of the `react-next` package (`Baba`).
 *
 * A `Baba` instance is tagged with a transition name. When it mounts it looks
 * the name up in the process-wide children store: when a snapshot is there it
 * is the second of a pair and executes the collected animations against that
 * snapshot; otherwise it shows itself, stores its own snapshot and tells its
 * manager it is ready. On unmount it schedules the removal of what it stored.
 *
 * The store is a `ChildrenStore` object holding a map from name to snapshot.
 * Everything the instance asks of the outside world (a payload's `prepare` or
 * `animate`, the join of a group of promises, the manager's `onFinish`, a
 * timer) is appended to the instance's `trace`, so the promise chain of
 * `execute` becomes an ordered sequence of calls.
 */
module Baba {
  import opened Wrappers
  import opened Geometry

  /**
   * One entry of the collected `data` list: an animation (its
   * `prepare`/`animate` payload, identified by a number), a wait marker, or an
   * entry with any other action.
   */
  datatype Entry = Animation(payload: nat) | Wait | Other(action: OtherAction)

  /** The action of an entry that is neither an animation nor a wait marker. */
  type OtherAction = a: string | a != "animation" && a != "wait" witness ""

  /** The payloads of a group of animations that start together. */
  type Block = seq<nat>

  /** What the store keeps under a name: the element's box, the element, its render callback and its data. */
  datatype Snapshot = Snapshot(box: BoundingBox, element: Option<Handle>, render: Option<Handle>, data: seq<Entry>)

  /** The snapshot without its data: the `fromTarget` every animation receives. */
  datatype FromTarget = FromTarget(box: BoundingBox, element: Option<Handle>, render: Option<Handle>)

  /** The `toTarget` every animation receives: this instance's render callback and box. */
  datatype ToTarget = ToTarget(render: Option<Handle>, box: BoundingBox)

  function TargetOf(s: Snapshot): FromTarget
  {
    FromTarget(s.box, s.element, s.render)
  }

  /** A call the instance makes on the outside world. */
  datatype Call =
    | Prepare(payload: nat)                                          // a payload's `prepare()`
    | PreparesJoined                                                 // `Promise.all(prepare)` resolved
    | Animate(block: nat, payload: nat, from: FromTarget, to: ToTarget) // a payload's `animate(...)`, started as part of block `block`
    | BlockJoined(block: nat)                                        // `Promise.all` of that block resolved
    | NotifyFinish                                                   // the manager's `onFinish()`
    | ScheduleRemoval(name: string, delay: nat)                      // `setTimeout(() => remove(name), delay)`

  /** Milliseconds between an unmount and the removal of what the instance stored. */
  const RemovalDelay: nat := 50

  // ---------------------------------------------------------------------------
  // The collected data and its partition into blocks
  // ---------------------------------------------------------------------------

  function CountWaits(data: seq<Entry>): nat
  {
    if data == [] then 0 else (if data[0].Wait? then 1 else 0) + CountWaits(data[1..])
  }

  /** The payloads of the animation entries, in collected order. */
  function Animations(data: seq<Entry>): seq<nat>
  {
    if data == [] then []
    else (if data[0].Animation? then [data[0].payload] else []) + Animations(data[1..])
  }

  function Flatten(blocks: seq<Block>): seq<nat>
  {
    if blocks == [] then [] else blocks[0] + Flatten(blocks[1..])
  }

  /** How one entry, placed in front of some entries, changes their partition. */
  function Prepend(e: Entry, rest: seq<Block>): (r: seq<Block>)
    requires |rest| >= 1
    ensures |r| >= 1
  {
    match e
    case Animation(p) => [[p] + rest[0]] + rest[1..]
    case Wait => [[]] + rest
    case Other(_) => rest
  }

  /**
   * The reference partition: the animation payloads of `data`, cut into
   * blocks at every wait marker. It always has at least one block.
   */
  function Blocks(data: seq<Entry>): (r: seq<Block>)
    ensures |r| >= 1
  {
    if data == [] then [[]] else Prepend(data[0], Blocks(data[1..]))
  }

  /**
   * One step of the source's `reduce`: what an entry does to the blocks built
   * so far. An animation joins the last block, so it comes after every payload
   * collected before it; a wait opens one more block; anything else is skipped.
   */
  function Push(arr: seq<Block>, e: Entry): (r: seq<Block>)
    requires |arr| >= 1
    ensures |r| == |arr| + (if e.Wait? then 1 else 0)
    ensures Flatten(r) == Flatten(arr) + (if e.Animation? then [e.payload] else [])
    ensures e.Animation? ==> r[..|arr| - 1] == arr[..|arr| - 1]
    ensures e.Wait? ==> r[..|arr|] == arr && r[|arr|] == []
    ensures e.Other? ==> r == arr
  {
    var last := arr[|arr| - 1];
    var front := arr[..|arr| - 1];
    assert arr == front + [last];
    FlattenSnoc(front, last);
    match e
    case Animation(p) =>
      FlattenSnoc(front, last + [p]);
      front + [last + [p]]
    case Wait =>
      FlattenSnoc(arr, []);
      arr + [[]]
    case Other(_) => arr
  }

  lemma PrependPush(x: Entry, rest: seq<Block>, e: Entry)
    requires |rest| >= 1
    ensures Prepend(x, Push(rest, e)) == Push(Prepend(x, rest), e)
  {
    var n := |rest|;
    match x
    case Animation(p) =>
      match e {
        case Animation(q) =>
          PrependPushAnimations(p, rest, q);
        case Wait =>
          assert (rest + [[]])[1..] == rest[1..] + [[]];
        case Other(_) =>
      }
    case Wait =>
      match e {
        case Animation(q) =>
          var front := [[]] + rest;
          assert front[..n] == [[]] + rest[..n - 1];
          assert front[n] == rest[n - 1];
        case Wait =>
        case Other(_) =>
      }
    case Other(_) =>
  }

  /** `PrependPush` when both entries are animations: both payloads end up in the same block only if `rest` has one block. */
  lemma PrependPushAnimations(p: nat, rest: seq<Block>, q: nat)
    requires |rest| >= 1
    ensures Prepend(Animation(p), Push(rest, Animation(q))) == Push(Prepend(Animation(p), rest), Animation(q))
  {
    var n := |rest|;
    var front := [[p] + rest[0]] + rest[1..];
    var pushed := rest[..n - 1] + [rest[n - 1] + [q]];
    assert Push(rest, Animation(q)) == pushed;
    assert Prepend(Animation(p), rest) == front;
    if n == 1 {
      assert pushed == [rest[0] + [q]];
      assert [p] + pushed[0] == [p] + rest[0] + [q];
    } else {
      assert pushed[0] == rest[0];
      assert pushed[1..] == rest[1..n - 1] + [rest[n - 1] + [q]];
      assert front[..n - 1] == [[p] + rest[0]] + rest[1..n - 1];
      assert front[n - 1] == rest[n - 1];
    }
  }

  /** The `reduce` over the entries, one entry at a time, builds the reference partition. */
  lemma {:induction false} BlocksSnoc(xs: seq<Entry>, e: Entry)
    ensures Blocks(xs + [e]) == Push(Blocks(xs), e)
  {
    if xs == [] {
      assert xs + [e] == [e];
      assert [e][1..] == [];
      assert Blocks([e]) == Prepend(e, [[]]);
      var none: seq<Block> := [[]];
      if e.Animation? {
        assert none[..|none| - 1] == [];
        assert none[|none| - 1] + [e.payload] == [e.payload];
        assert Push(none, e) == [[e.payload]];
        assert none[0] == [] && none[1..] == [];
        assert [e.payload] + none[0] == [e.payload];
        assert [[e.payload] + none[0]] + none[1..] == [[e.payload]];
        assert Prepend(e, none) == [[e.payload]];
      }
    } else {
      assert (xs + [e])[0] == xs[0];
      assert (xs + [e])[1..] == xs[1..] + [e];
      BlocksSnoc(xs[1..], e);
      PrependPush(xs[0], Blocks(xs[1..]), e);
    }
  }

  /**
   * The block `reduce` of `execute`: start from one empty block; an animation
   * goes to the last block, a wait opens a new block, anything else is
   * skipped.
   */
  method PartitionBlocks(data: seq<Entry>) returns (blocks: seq<Block>)
    ensures blocks == Blocks(data)
    ensures |blocks| == 1 + CountWaits(data)
    ensures Flatten(blocks) == Animations(data)
  {
    blocks := [[]];
    var i := 0;
    while i < |data|
      invariant 0 <= i <= |data|
      invariant blocks == Blocks(data[..i])
    {
      BlocksSnoc(data[..i], data[i]);
      assert data[..i + 1] == data[..i] + [data[i]];
      blocks := Push(blocks, data[i]);
      i := i + 1;
    }
    assert data[..|data|] == data;
    BlockCount(data);
    BlocksFlatten(data);
  }

  /** There is one block more than there are wait markers. */
  lemma {:induction false} BlockCount(data: seq<Entry>)
    ensures |Blocks(data)| == 1 + CountWaits(data)
  {
    if data != [] {
      BlockCount(data[1..]);
    }
  }

  lemma FlattenCons(b: Block, rest: seq<Block>)
    ensures Flatten([b] + rest) == b + Flatten(rest)
  {
  }

  /** Concatenating the blocks gives every animation payload, once, in collected order. */
  lemma {:induction false} BlocksFlatten(data: seq<Entry>)
    ensures Flatten(Blocks(data)) == Animations(data)
  {
    if data != [] {
      BlocksFlatten(data[1..]);
      var rest := Blocks(data[1..]);
      match data[0]
      case Animation(p) =>
        FlattenCons([p] + rest[0], rest[1..]);
        FlattenCons(rest[0], rest[1..]);
        assert [rest[0]] + rest[1..] == rest;
      case Wait =>
        FlattenCons([], rest);
      case Other(_) =>
    }
  }

  lemma PrependAppend(x: Entry, a: seq<Block>, c: seq<Block>)
    requires |a| >= 1
    ensures Prepend(x, a + c) == Prepend(x, a) + c
  {
  }

  /** A wait marker cuts the partition in two: what precedes it and what follows it are partitioned separately. */
  lemma {:induction false} WaitSplits(xs: seq<Entry>, ys: seq<Entry>)
    ensures Blocks(xs + [Wait] + ys) == Blocks(xs) + Blocks(ys)
  {
    if xs == [] {
      assert xs + [Wait] + ys == [Wait] + ys;
      assert ([Wait] + ys)[1..] == ys;
    } else {
      assert (xs + [Wait] + ys)[0] == xs[0];
      assert (xs + [Wait] + ys)[1..] == xs[1..] + [Wait] + ys;
      WaitSplits(xs[1..], ys);
      PrependAppend(xs[0], Blocks(xs[1..]), Blocks(ys));
    }
  }

  /** Without wait markers all animations form one block. */
  lemma NoWaitOneBlock(data: seq<Entry>)
    requires CountWaits(data) == 0
    ensures Blocks(data) == [Animations(data)]
  {
    BlockCount(data);
    BlocksFlatten(data);
    var b := Blocks(data);
    assert b == [b[0]] + [];
    FlattenCons(b[0], []);
    assert Flatten([]) == [];
    assert Flatten(b) == b[0];
  }

  /** An entry with any other action leaves the partition as if it were not there. */
  lemma {:induction false} OtherIgnored(xs: seq<Entry>, action: OtherAction, ys: seq<Entry>)
    ensures Blocks(xs + [Other(action)] + ys) == Blocks(xs + ys)
  {
    if xs == [] {
      assert xs + [Other(action)] + ys == [Other(action)] + ys;
      assert ([Other(action)] + ys)[1..] == ys;
      assert xs + ys == ys;
    } else {
      assert (xs + [Other(action)] + ys)[0] == xs[0];
      assert (xs + [Other(action)] + ys)[1..] == xs[1..] + [Other(action)] + ys;
      assert (xs + ys)[0] == xs[0];
      assert (xs + ys)[1..] == xs[1..] + ys;
      OtherIgnored(xs[1..], action, ys);
    }
  }

  // ---------------------------------------------------------------------------
  // The calls `execute` makes, in order
  // ---------------------------------------------------------------------------

  /** The `prepare` map: one `prepare()` per animation entry, in collected order. */
  function Prepares(data: seq<Entry>): (r: seq<Call>)
    ensures |r| == |Animations(data)|
    ensures forall i :: 0 <= i < |r| ==> r[i].Prepare?
  {
    if data == [] then []
    else (if data[0].Animation? then [Prepare(data[0].payload)] else []) + Prepares(data[1..])
  }

  /** Block `k` starting: each of its payloads' `animate`, in block order. */
  function Starts(b: Block, k: nat, from: FromTarget, to: ToTarget): (r: seq<Call>)
    ensures |r| == |b|
    ensures forall j :: 0 <= j < |r| ==> r[j] == Animate(k, b[j], from, to)
  {
    if b == [] then [] else [Animate(k, b[0], from, to)] + Starts(b[1..], k, from, to)
  }

  /** Block `k` run to its join. */
  function BlockRun(b: Block, k: nat, from: FromTarget, to: ToTarget): seq<Call>
  {
    Starts(b, k, from, to) + [BlockJoined(k)]
  }

  /** The promise chain over the blocks: each block runs after the previous block has joined. */
  function Chain(blocks: seq<Block>, from: FromTarget, to: ToTarget): seq<Call>
  {
    if blocks == [] then []
    else Chain(blocks[..|blocks| - 1], from, to) + BlockRun(blocks[|blocks| - 1], |blocks| - 1, from, to)
  }

  /** Every call `execute` makes against a stored snapshot, before it settles. */
  function RunTrace(snap: Snapshot, to: ToTarget): seq<Call>
  {
    Prepares(snap.data) + [PreparesJoined] + Chain(Blocks(snap.data), TargetOf(snap), to)
  }

  function NotifyIf(hasManager: bool): seq<Call>
  {
    if hasManager then [NotifyFinish] else []
  }

  predicate IsExecutionCall(c: Call)
  {
    c.Prepare? || c.PreparesJoined? || c.Animate? || c.BlockJoined?
  }

  /**
   * The point in the promise chain a call belongs to: the prepares, their
   * join, then for each block its starts and its join.
   */
  function Stage(c: Call): nat
    requires IsExecutionCall(c)
  {
    if c.Prepare? then 0
    else if c.PreparesJoined? then 1
    else if c.Animate? then 2 * c.block + 2
    else 2 * c.block + 3
  }

  /** Every call is an execution call and the calls come in chain order. */
  predicate InStageOrder(t: seq<Call>)
  {
    (forall i :: 0 <= i < |t| ==> IsExecutionCall(t[i])) &&
    (forall i, j :: 0 <= i < j < |t| ==> Stage(t[i]) <= Stage(t[j]))
  }

  predicate StagesWithin(t: seq<Call>, lo: nat, hi: nat)
    requires forall i :: 0 <= i < |t| ==> IsExecutionCall(t[i])
  {
    forall i :: 0 <= i < |t| ==> lo <= Stage(t[i]) <= hi
  }

  lemma OrderAppend(a: seq<Call>, b: seq<Call>, m: nat)
    requires InStageOrder(a) && InStageOrder(b)
    requires StagesWithin(a, 0, m)
    requires forall j :: 0 <= j < |b| ==> m <= Stage(b[j])
    ensures InStageOrder(a + b)
  {
  }

  /** Every `animate` of the chain gets the same origin and destination targets. */
  predicate TargetsAre(t: seq<Call>, from: FromTarget, to: ToTarget)
  {
    forall i :: 0 <= i < |t| && t[i].Animate? ==> t[i].from == from && t[i].to == to
  }

  /** Block k's run: its starts (stage 2k+2), then its join (stage 2k+3). */
  lemma BlockRunOrder(b: Block, k: nat, from: FromTarget, to: ToTarget)
    ensures InStageOrder(BlockRun(b, k, from, to))
    ensures StagesWithin(BlockRun(b, k, from, to), 2 * k + 2, 2 * k + 3)
    ensures TargetsAre(BlockRun(b, k, from, to), from, to)
  {
    var run := BlockRun(b, k, from, to);
    assert forall i :: 0 <= i < |run| - 1 ==> run[i] == Animate(k, b[i], from, to);
    assert run[|run| - 1] == BlockJoined(k);
  }

  lemma {:induction false} ChainOrder(blocks: seq<Block>, from: FromTarget, to: ToTarget)
    ensures InStageOrder(Chain(blocks, from, to))
    ensures StagesWithin(Chain(blocks, from, to), 2, 2 * |blocks| + 1)
  {
    if blocks != [] {
      var n := |blocks|;
      var init := blocks[..n - 1];
      var c := Chain(init, from, to);
      var run := BlockRun(blocks[n - 1], n - 1, from, to);
      ChainOrder(init, from, to);
      BlockRunOrder(blocks[n - 1], n - 1, from, to);
      OrderAppend(c, run, 2 * n);
      var t := c + run;
      forall i | 0 <= i < |t| ensures 2 <= Stage(t[i]) <= 2 * n + 1 {
        if i < |c| { assert t[i] == c[i]; } else { assert t[i] == run[i - |c|]; }
      }
    }
  }

  /** Every `animate` of the chain gets the same origin and destination targets. */
  lemma {:induction false} ChainTargets(blocks: seq<Block>, from: FromTarget, to: ToTarget)
    ensures TargetsAre(Chain(blocks, from, to), from, to)
  {
    if blocks != [] {
      var n := |blocks|;
      var init := blocks[..n - 1];
      var c := Chain(init, from, to);
      var run := BlockRun(blocks[n - 1], n - 1, from, to);
      ChainTargets(init, from, to);
      BlockRunOrder(blocks[n - 1], n - 1, from, to);
      var t := c + run;
      forall i | 0 <= i < |t| && t[i].Animate? ensures t[i].from == from && t[i].to == to {
        if i < |c| { assert t[i] == c[i]; } else { assert t[i] == run[i - |c|]; }
      }
    }
  }

  /**
   * Phase order: every `prepare` comes before the prepares' join, which comes
   * before any `animate`; block k's starts come before its join, which comes
   * before block k+1's starts. Every `animate` gets the stored snapshot as
   * origin and this instance's target as destination.
   */
  lemma RunTraceOrder(snap: Snapshot, to: ToTarget)
    ensures InStageOrder(RunTrace(snap, to))
    ensures TargetsAre(RunTrace(snap, to), TargetOf(snap), to)
  {
    var p := Prepares(snap.data);
    var c := Chain(Blocks(snap.data), TargetOf(snap), to);
    ChainOrder(Blocks(snap.data), TargetOf(snap), to);
    ChainTargets(Blocks(snap.data), TargetOf(snap), to);
    OrderAppend(p, [PreparesJoined], 0);
    OrderAppend(p + [PreparesJoined], c, 2);
    var t := RunTrace(snap, to);
    forall i | 0 <= i < |t| && t[i].Animate? ensures t[i].from == TargetOf(snap) && t[i].to == to {
      assert t[i] == c[i - |p| - 1];
    }
  }

  /** The payloads of the calls `f` picks, in trace order. */
  function Collect(t: seq<Call>, f: Call -> seq<nat>): seq<nat>
  {
    if t == [] then [] else f(t[0]) + Collect(t[1..], f)
  }

  function PreparedOf(c: Call): seq<nat> { if c.Prepare? then [c.payload] else [] }
  function AnimatedOf(c: Call): seq<nat> { if c.Animate? then [c.payload] else [] }
  function JoinedOf(c: Call): seq<nat> { if c.BlockJoined? then [c.block] else [] }

  lemma {:induction false} CollectAppend(a: seq<Call>, b: seq<Call>, f: Call -> seq<nat>)
    ensures Collect(a + b, f) == Collect(a, f) + Collect(b, f)
  {
    if a != [] {
      assert (a + b)[0] == a[0];
      assert (a + b)[1..] == a[1..] + b;
      CollectAppend(a[1..], b, f);
    } else {
      assert a + b == b;
    }
  }

  lemma CollectThree(c: seq<Call>, s: seq<Call>, last: Call, f: Call -> seq<nat>)
    ensures Collect(c + (s + [last]), f) == Collect(c, f) + Collect(s, f) + f(last)
  {
    CollectAppend(c, s + [last], f);
    CollectAppend(s, [last], f);
    assert [last][1..] == [];
  }

  lemma CollectJoin(p: seq<Call>, mid: Call, c: seq<Call>, f: Call -> seq<nat>)
    ensures Collect(p + ([mid] + c), f) == Collect(p, f) + f(mid) + Collect(c, f)
  {
    CollectAppend(p, [mid] + c, f);
    assert ([mid] + c)[0] == mid;
    assert ([mid] + c)[1..] == c;
  }

  lemma {:induction false} PreparesCollect(data: seq<Entry>)
    ensures Collect(Prepares(data), PreparedOf) == Animations(data)
    ensures Collect(Prepares(data), AnimatedOf) == []
    ensures Collect(Prepares(data), JoinedOf) == []
  {
    if data != [] {
      PreparesCollect(data[1..]);
      var head: seq<Call> := if data[0].Animation? then [Prepare(data[0].payload)] else [];
      CollectAppend(head, Prepares(data[1..]), PreparedOf);
      CollectAppend(head, Prepares(data[1..]), AnimatedOf);
      CollectAppend(head, Prepares(data[1..]), JoinedOf);
    }
  }

  lemma {:induction false} StartsCollect(b: Block, k: nat, from: FromTarget, to: ToTarget)
    ensures Collect(Starts(b, k, from, to), AnimatedOf) == b
    ensures Collect(Starts(b, k, from, to), PreparedOf) == []
    ensures Collect(Starts(b, k, from, to), JoinedOf) == []
  {
    if b != [] {
      StartsCollect(b[1..], k, from, to);
      var s := Starts(b, k, from, to);
      assert s[0] == Animate(k, b[0], from, to);
      assert s[1..] == Starts(b[1..], k, from, to);
    }
  }

  /** The numbers 0 to n - 1, in order. */
  function Range(n: nat): (r: seq<nat>)
    ensures |r| == n && forall k :: 0 <= k < n ==> r[k] == k
  {
    if n == 0 then [] else Range(n - 1) + [n - 1]
  }

  lemma FlattenSnoc(blocks: seq<Block>, b: Block)
    ensures Flatten(blocks + [b]) == Flatten(blocks) + b
  {
    if blocks == [] {
      FlattenCons(b, []);
    } else {
      assert (blocks + [b])[0] == blocks[0];
      assert (blocks + [b])[1..] == blocks[1..] + [b];
      FlattenSnoc(blocks[1..], b);
    }
  }

  lemma {:induction false} ChainCollect(blocks: seq<Block>, from: FromTarget, to: ToTarget)
    ensures Collect(Chain(blocks, from, to), AnimatedOf) == Flatten(blocks)
    ensures Collect(Chain(blocks, from, to), PreparedOf) == []
    ensures Collect(Chain(blocks, from, to), JoinedOf) == Range(|blocks|)
  {
    if blocks != [] {
      var n := |blocks|;
      var init := blocks[..n - 1];
      var last := blocks[n - 1];
      ChainCollect(init, from, to);
      StartsCollect(last, n - 1, from, to);
      var c := Chain(init, from, to);
      var s := Starts(last, n - 1, from, to);
      var t := Chain(blocks, from, to);
      assert t == c + (s + [BlockJoined(n - 1)]);
      CollectThree(c, s, BlockJoined(n - 1), AnimatedOf);
      CollectThree(c, s, BlockJoined(n - 1), PreparedOf);
      CollectThree(c, s, BlockJoined(n - 1), JoinedOf);
      assert blocks == init + [last];
      FlattenSnoc(init, last);
    }
  }

  /**
   * Every animation entry is prepared once and animated once, in collected
   * order, and the blocks join in order, one join per block.
   */
  lemma RunTraceCalls(snap: Snapshot, to: ToTarget)
    ensures Collect(RunTrace(snap, to), PreparedOf) == Animations(snap.data)
    ensures Collect(RunTrace(snap, to), AnimatedOf) == Animations(snap.data)
    ensures Collect(RunTrace(snap, to), JoinedOf) == Range(1 + CountWaits(snap.data))
  {
    var p := Prepares(snap.data);
    var blocks := Blocks(snap.data);
    var c := Chain(blocks, TargetOf(snap), to);
    PreparesCollect(snap.data);
    ChainCollect(blocks, TargetOf(snap), to);
    BlocksFlatten(snap.data);
    BlockCount(snap.data);
    assert RunTrace(snap, to) == p + ([PreparesJoined] + c);
    CollectJoin(p, PreparesJoined, c, PreparedOf);
    CollectJoin(p, PreparesJoined, c, AnimatedOf);
    CollectJoin(p, PreparesJoined, c, JoinedOf);
  }

  // ---------------------------------------------------------------------------
  // Settling when a payload's promise rejects
  // ---------------------------------------------------------------------------

  /**
   * Whether every `prepare` and `animate` call of `t` resolves; `resolves`
   * gives the outcome of the promise each such call returns.
   */
  predicate Resolves(t: seq<Call>, resolves: Call -> bool)
  {
    forall i :: 0 <= i < |t| && (t[i].Prepare? || t[i].Animate?) ==> resolves(t[i])
  }

  lemma ResolvesAppend(a: seq<Call>, b: seq<Call>, resolves: Call -> bool)
    ensures Resolves(a + b, resolves) <==> Resolves(a, resolves) && Resolves(b, resolves)
  {
    if Resolves(a + b, resolves) {
      forall i | 0 <= i < |a| && (a[i].Prepare? || a[i].Animate?) ensures resolves(a[i]) {
        assert (a + b)[i] == a[i];
      }
      forall i | 0 <= i < |b| && (b[i].Prepare? || b[i].Animate?) ensures resolves(b[i]) {
        assert (a + b)[|a| + i] == b[i];
      }
    }
    if Resolves(a, resolves) && Resolves(b, resolves) {
      var t := a + b;
      forall i | 0 <= i < |t| && (t[i].Prepare? || t[i].Animate?) ensures resolves(t[i]) {
        if i < |a| { assert t[i] == a[i]; } else { assert t[i] == b[i - |a|]; }
      }
    }
  }

  /**
   * Whether the chain over the first `k` blocks reaches block k-1's join:
   * block by block, every `animate` of the block resolves.
   */
  predicate ChainCompletes(blocks: seq<Block>, k: nat, from: FromTarget, to: ToTarget, resolves: Call -> bool)
    requires k <= |blocks|
  {
    k == 0 ||
    (ChainCompletes(blocks, k - 1, from, to, resolves) &&
     Resolves(Starts(blocks[k - 1], k - 1, from, to), resolves))
  }

  /** Block `k` when promises may reject: its starts, then its join only when they all resolve. */
  function BlockStep(b: Block, k: nat, from: FromTarget, to: ToTarget, resolves: Call -> bool): seq<Call>
  {
    var s := Starts(b, k, from, to);
    s + (if Resolves(s, resolves) then [BlockJoined(k)] else [])
  }

  /**
   * The calls the chain over the first `k` blocks makes when promises may
   * reject: a block starts only after the previous block has joined, and it
   * joins only when all its starts resolve. After the first rejecting block
   * nothing more is called.
   */
  function ChainUntil(blocks: seq<Block>, k: nat, from: FromTarget, to: ToTarget, resolves: Call -> bool): seq<Call>
    requires k <= |blocks|
  {
    if k == 0 then []
    else if !ChainCompletes(blocks, k - 1, from, to, resolves) then ChainUntil(blocks, k - 1, from, to, resolves)
    else ChainUntil(blocks, k - 1, from, to, resolves) + BlockStep(blocks[k - 1], k - 1, from, to, resolves)
  }

  /** The chain over the first k blocks, split into the chain over the first k-1 and block k-1's run. */
  lemma ChainPrefix(blocks: seq<Block>, k: nat, from: FromTarget, to: ToTarget)
    requires 0 < k <= |blocks|
    ensures Chain(blocks[..k], from, to)
         == Chain(blocks[..k - 1], from, to) + (Starts(blocks[k - 1], k - 1, from, to) + [BlockJoined(k - 1)])
  {
    assert blocks[..k][..k - 1] == blocks[..k - 1];
    assert blocks[..k][k - 1] == blocks[k - 1];
  }

  /** The chain reaches its last join exactly when none of its `animate` calls rejects. */
  lemma {:induction false} ChainCompletesResolves(blocks: seq<Block>, k: nat, from: FromTarget, to: ToTarget,
                                                  resolves: Call -> bool)
    requires k <= |blocks|
    ensures ChainCompletes(blocks, k, from, to, resolves) <==> Resolves(Chain(blocks[..k], from, to), resolves)
  {
    if k == 0 {
      assert blocks[..0] == [];
    } else {
      var s := Starts(blocks[k - 1], k - 1, from, to);
      ChainCompletesResolves(blocks, k - 1, from, to, resolves);
      ChainPrefix(blocks, k, from, to);
      ResolvesAppend(Chain(blocks[..k - 1], from, to), s + [BlockJoined(k - 1)], resolves);
      ResolvesAppend(s, [BlockJoined(k - 1)], resolves);
    }
  }

  /** When the chain completes, it makes exactly the calls of the run where every promise resolves. */
  lemma {:induction false} ChainUntilComplete(blocks: seq<Block>, k: nat, from: FromTarget, to: ToTarget,
                                              resolves: Call -> bool)
    requires k <= |blocks|
    ensures ChainCompletes(blocks, k, from, to, resolves) ==>
              ChainUntil(blocks, k, from, to, resolves) == Chain(blocks[..k], from, to)
  {
    if k == 0 {
      assert blocks[..0] == [];
    } else if ChainCompletes(blocks, k, from, to, resolves) {
      ChainUntilComplete(blocks, k - 1, from, to, resolves);
      ChainPrefix(blocks, k, from, to);
    }
  }

  /** What the chain calls when promises may reject is a prefix of what it calls when every promise resolves. */
  lemma {:induction false} ChainUntilPrefix(blocks: seq<Block>, k: nat, from: FromTarget, to: ToTarget,
                                            resolves: Call -> bool)
    requires k <= |blocks|
    ensures ChainUntil(blocks, k, from, to, resolves) <= Chain(blocks[..k], from, to)
  {
    if k == 0 {
      assert blocks[..0] == [];
    } else {
      var s := Starts(blocks[k - 1], k - 1, from, to);
      var c := Chain(blocks[..k - 1], from, to);
      ChainPrefix(blocks, k, from, to);
      if !ChainCompletes(blocks, k - 1, from, to, resolves) {
        ChainUntilPrefix(blocks, k - 1, from, to, resolves);
        PrefixExtend(ChainUntil(blocks, k - 1, from, to, resolves), c, s + [BlockJoined(k - 1)]);
      } else {
        ChainUntilComplete(blocks, k - 1, from, to, resolves);
        if !Resolves(s, resolves) {
          PrefixOfAppend(c, s, [BlockJoined(k - 1)]);
        }
      }
    }
  }

  /** A chain that stops early makes fewer calls than the full chain. */
  lemma {:induction false} ChainUntilShorter(blocks: seq<Block>, k: nat, from: FromTarget, to: ToTarget,
                                             resolves: Call -> bool)
    requires k <= |blocks|
    ensures !ChainCompletes(blocks, k, from, to, resolves) ==>
              |ChainUntil(blocks, k, from, to, resolves)| < |Chain(blocks[..k], from, to)|
  {
    if k > 0 && !ChainCompletes(blocks, k, from, to, resolves) {
      ChainPrefix(blocks, k, from, to);
      if !ChainCompletes(blocks, k - 1, from, to, resolves) {
        ChainUntilShorter(blocks, k - 1, from, to, resolves);
      } else {
        ChainUntilComplete(blocks, k - 1, from, to, resolves);
      }
    }
  }

  /** A prefix of `c` is a prefix of `c` extended. */
  lemma PrefixExtend(u: seq<Call>, c: seq<Call>, d: seq<Call>)
    requires u <= c
    ensures u <= c + d
  {
    assert (c + d)[..|c|] == c;
  }

  /** `a + b` is a prefix of `a + (b + c)`. */
  lemma PrefixOfAppend(a: seq<Call>, b: seq<Call>, c: seq<Call>)
    ensures a + (b + []) <= a + (b + c)
  {
    assert (a + (b + c))[..|a| + |b|] == a + (b + []);
  }

  /**
   * A call of the chain over the first `k` blocks happens only after every
   * earlier block has joined: block j starts only when blocks 0 to j-1
   * resolved, and joins only when blocks 0 to j resolved. So a rejection
   * stops every later block.
   */
  predicate OnlyAfterJoins(blocks: seq<Block>, k: nat, t: seq<Call>, from: FromTarget, to: ToTarget,
                           resolves: Call -> bool)
    requires k <= |blocks|
  {
    forall i :: 0 <= i < |t| ==>
      (t[i].Animate? ==> t[i].block < k && ChainCompletes(blocks, t[i].block, from, to, resolves)) &&
      (t[i].BlockJoined? ==> t[i].block < k && ChainCompletes(blocks, t[i].block + 1, from, to, resolves))
  }

  lemma {:induction false} ChainUntilStops(blocks: seq<Block>, k: nat, from: FromTarget, to: ToTarget,
                                           resolves: Call -> bool)
    requires k <= |blocks|
    ensures OnlyAfterJoins(blocks, k, ChainUntil(blocks, k, from, to, resolves), from, to, resolves)
  {
    if k > 0 {
      var c := ChainUntil(blocks, k - 1, from, to, resolves);
      var t := ChainUntil(blocks, k, from, to, resolves);
      ChainUntilStops(blocks, k - 1, from, to, resolves);
      if ChainCompletes(blocks, k - 1, from, to, resolves) {
        var step := BlockStep(blocks[k - 1], k - 1, from, to, resolves);
        var s := Starts(blocks[k - 1], k - 1, from, to);
        assert t == c + step;
        forall i | 0 <= i < |t|
          ensures (t[i].Animate? ==> t[i].block < k && ChainCompletes(blocks, t[i].block, from, to, resolves))
          ensures (t[i].BlockJoined? ==> t[i].block < k && ChainCompletes(blocks, t[i].block + 1, from, to, resolves))
        {
          if i < |c| {
            assert t[i] == c[i];
          } else if i < |c| + |s| {
            assert t[i] == s[i - |c|];
          } else {
            assert t[i] == BlockJoined(k - 1);
          }
        }
      }
    }
  }

  lemma AppendThree(a: seq<Call>, b: seq<Call>, c: seq<Call>, d: seq<Call>)
    ensures a + b + c + d == a + (b + (c + d))
  {
  }

  /** Whether `execute`'s chain settles: every `prepare` resolves, then every block. */
  predicate Completes(snap: Snapshot, to: ToTarget, resolves: Call -> bool)
  {
    var blocks := Blocks(snap.data);
    Resolves(Prepares(snap.data), resolves) && ChainCompletes(blocks, |blocks|, TargetOf(snap), to, resolves)
  }

  /**
   * The calls `execute` makes against a stored snapshot when promises may
   * reject: all prepares; their join and the chain only when they all resolve.
   */
  function SettleTrace(snap: Snapshot, to: ToTarget, resolves: Call -> bool): seq<Call>
  {
    Prepares(snap.data) +
    (if Resolves(Prepares(snap.data), resolves)
     then [PreparesJoined] + ChainUntil(Blocks(snap.data), |Blocks(snap.data)|, TargetOf(snap), to, resolves)
     else [])
  }

  /**
   * The calls made when promises may reject are a prefix of the full run;
   * they are the full run exactly when no `prepare` or `animate` rejects, and
   * then the chain settles.
   */
  lemma SettleTracePrefix(snap: Snapshot, to: ToTarget, resolves: Call -> bool)
    ensures SettleTrace(snap, to, resolves) <= RunTrace(snap, to)
    ensures Completes(snap, to, resolves) <==> Resolves(RunTrace(snap, to), resolves)
    ensures Completes(snap, to, resolves) <==> SettleTrace(snap, to, resolves) == RunTrace(snap, to)
  {
    var p := Prepares(snap.data);
    var blocks := Blocks(snap.data);
    var c := Chain(blocks, TargetOf(snap), to);
    assert blocks[..|blocks|] == blocks;
    ChainUntilPrefix(blocks, |blocks|, TargetOf(snap), to, resolves);
    ChainUntilComplete(blocks, |blocks|, TargetOf(snap), to, resolves);
    ChainCompletesResolves(blocks, |blocks|, TargetOf(snap), to, resolves);
    ChainUntilShorter(blocks, |blocks|, TargetOf(snap), to, resolves);
    ResolvesAppend(p, [PreparesJoined] + c, resolves);
    ResolvesAppend([PreparesJoined], c, resolves);
    assert RunTrace(snap, to) == p + ([PreparesJoined] + c);
    if Resolves(p, resolves) {
      var u := ChainUntil(blocks, |blocks|, TargetOf(snap), to, resolves);
      assert SettleTrace(snap, to, resolves) == p + ([PreparesJoined] + u);
      assert u == c[..|u|];
      assert p + ([PreparesJoined] + u) == RunTrace(snap, to)[..|p| + 1 + |u|];
    } else {
      assert SettleTrace(snap, to, resolves) == p;
      assert p == RunTrace(snap, to)[..|p|];
    }
  }

  /** When no promise rejects, the chain settles. */
  lemma AllResolve(snap: Snapshot, to: ToTarget, resolves: Call -> bool)
    requires forall c :: resolves(c)
    ensures Completes(snap, to, resolves)
  {
    SettleTracePrefix(snap, to, resolves);
  }

  // ---------------------------------------------------------------------------
  // The store write
  // ---------------------------------------------------------------------------

  /** Whether `store` writes: not while unmounting, and only when data was collected. */
  predicate Writes(unmounting: bool, data: Option<seq<Entry>>)
  {
    !unmounting && data.Some?
  }

  /** The store's map after `store` with the given instance state and measured box. */
  function AfterStore(entries: map<string, Snapshot>, name: string, unmounting: bool,
                      data: Option<seq<Entry>>, box: BoundingBox,
                      element: Option<Handle>, render: Option<Handle>): (r: map<string, Snapshot>)
    ensures !Writes(unmounting, data) ==> r == entries
    ensures Writes(unmounting, data) ==> name in r && r[name] == Snapshot(box, element, render, data.value)
    ensures r.Keys == entries.Keys + (if Writes(unmounting, data) then {name} else {})
    ensures forall n :: n in entries && n != name ==> r[n] == entries[n]
  {
    if Writes(unmounting, data) then entries[name := Snapshot(box, element, render, data.value)]
    else entries
  }

  function ClearSchedule(name: string, hasStoredBefore: bool): seq<Call>
  {
    if hasStoredBefore then [ScheduleRemoval(name, RemovalDelay)] else []
  }

  // ---------------------------------------------------------------------------
  // The objects
  // ---------------------------------------------------------------------------

  /** The process-wide store of snapshots, by transition name. */
  class ChildrenStore {
    var entries: map<string, Snapshot>

    constructor()
      ensures entries == map[]
    {
      entries := map[];
    }
  }

  class Baba {
    /** The `name` prop. */
    const name: string
    /** Whether a manager context was injected (`this.props.context`). */
    const hasManager: bool

    /** The `shown` state (opacity 1 when true, 0 otherwise). */
    var shown: bool
    var unmounting: bool
    var hasStoredBefore: bool
    var element: Option<Handle>
    var renderChildren: Option<Handle>
    var data: Option<seq<Entry>>
    /** The calls made on the outside world so far. */
    var trace: seq<Call>

    constructor(name: string, hasManager: bool)
      ensures this.name == name && this.hasManager == hasManager
      ensures !shown && !unmounting && !hasStoredBefore
      ensures element == None && renderChildren == None && data == None
      ensures trace == []
    {
      this.name := name;
      this.hasManager := hasManager;
      shown := false;
      unmounting := false;
      hasStoredBefore := false;
      element := None;
      renderChildren := None;
      data := None;
      trace := [];
    }

    method SetRef(ref: Handle)
      modifies this`element
      ensures element == Some(ref)
    {
      element := Some(ref);
    }

    method SetReactNode(render: Handle)
      modifies this`renderChildren
      ensures renderChildren == Some(render)
    {
      renderChildren := Some(render);
    }

    method SetData(d: seq<Entry>)
      modifies this`data
      ensures data == Some(d)
    {
      data := Some(d);
    }

    /**
     * `store`: nothing while unmounting or when no data was collected;
     * otherwise writes this instance's snapshot (with the box the DOM reports
     * now) under its name and remembers that it stored.
     */
    method Store(reg: ChildrenStore, box: BoundingBox)
      modifies this`hasStoredBefore, reg
      ensures reg.entries == AfterStore(old(reg.entries), name, unmounting, data, box, element, renderChildren)
      ensures hasStoredBefore == (old(hasStoredBefore) || Writes(unmounting, data))
    {
      if unmounting {
        return;
      }
      if data.Some? {
        reg.entries := reg.entries[name := Snapshot(box, element, renderChildren, data.value)];
        hasStoredBefore := true;
      }
    }

    /** `delayedClear`: schedules the removal of the name only if this instance stored before. */
    method DelayedClear() returns (cancelsTimer: bool)
      modifies this`trace
      ensures cancelsTimer == hasStoredBefore
      ensures trace == old(trace) + ClearSchedule(name, hasStoredBefore)
    {
      if hasStoredBefore {
        trace := trace + [ScheduleRemoval(name, RemovalDelay)];
        return true;
      }
      return false;
    }

    /** The timer callback `delayedClear` scheduled: removes the name from the store. */
    method ClearTimerFires(reg: ChildrenStore)
      requires ScheduleRemoval(name, RemovalDelay) in trace
      modifies reg
      ensures reg.entries == old(reg.entries) - {name}
    {
      reg.entries := reg.entries - {name};
    }

    /** `componentWillUnmount`: marks the instance as unmounting, then schedules the clear. */
    method WillUnmount()
      modifies this`unmounting, this`trace
      ensures unmounting
      ensures trace == old(trace) + ClearSchedule(name, hasStoredBefore)
    {
      unmounting := true;
      var _ := DelayedClear();
    }

    /** `componentDidUpdate`: stores again. */
    method DidUpdate(reg: ChildrenStore, box: BoundingBox)
      modifies this`hasStoredBefore, reg
      ensures reg.entries == AfterStore(old(reg.entries), name, unmounting, data, box, element, renderChildren)
      ensures hasStoredBefore == (old(hasStoredBefore) || Writes(unmounting, data))
    {
      Store(reg, box);
    }

    /** Shows the instance, stores its snapshot and notifies the manager, in that order. */
    method ShowStoreNotify(reg: ChildrenStore, box: BoundingBox)
      modifies this`shown, this`hasStoredBefore, this`trace, reg
      ensures shown
      ensures reg.entries == AfterStore(old(reg.entries), name, unmounting, data, box, element, renderChildren)
      ensures hasStoredBefore == (old(hasStoredBefore) || Writes(unmounting, data))
      ensures trace == old(trace) + NotifyIf(hasManager)
    {
      shown := true;
      Store(reg, box);
      if hasManager {
        trace := trace + [NotifyFinish];
      }
    }

    /**
     * The promise chain over the blocks: block by block, all starts, then the
     * join when they all resolve. Once a block rejects, the later blocks'
     * callbacks are skipped.
     */
    method RunBlocks(blocks: seq<Block>, from: FromTarget, to: ToTarget, resolves: Call -> bool)
      returns (completed: bool)
      modifies this`trace
      ensures completed == ChainCompletes(blocks, |blocks|, from, to, resolves)
      ensures trace == old(trace) + ChainUntil(blocks, |blocks|, from, to, resolves)
    {
      completed := true;
      var calls: seq<Call> := [];
      var k := 0;
      while k < |blocks|
        invariant 0 <= k <= |blocks|
        invariant completed == ChainCompletes(blocks, k, from, to, resolves)
        invariant calls == ChainUntil(blocks, k, from, to, resolves)
      {
        if completed {
          var starts := Starts(blocks[k], k, from, to);
          completed := Resolves(starts, resolves);
          calls := calls + (starts + if completed then [BlockJoined(k)] else []);
        }
        k := k + 1;
      }
      trace := trace + calls;
    }

    /**
     * The promise chain of `execute` against a stored snapshot: the block
     * partition, every `prepare`, then, when they all resolve, their join and
     * the blocks. Returns whether the chain settles.
     */
    method Settle(snap: Snapshot, to: ToTarget, resolves: Call -> bool) returns (completed: bool)
      modifies this`trace
      ensures completed == Completes(snap, to, resolves)
      ensures trace == old(trace) + SettleTrace(snap, to, resolves)
    {
      var blocks := PartitionBlocks(snap.data);
      var prepares := Prepares(snap.data);
      trace := trace + prepares;
      if !Resolves(prepares, resolves) {
        return false;
      }
      trace := trace + [PreparesJoined];
      completed := RunBlocks(blocks, TargetOf(snap), to, resolves);
      AppendThree(old(trace), prepares, [PreparesJoined], ChainUntil(blocks, |blocks|, TargetOf(snap), to, resolves));
    }

    /**
     * `execute`: when the store holds the name, prepares every animation of
     * the stored data and, when every prepare resolves, runs the blocks one
     * after another; when every block resolves too, it shows this instance,
     * stores its snapshot and notifies the manager. A rejection leaves the
     * instance as it was, apart from the calls already made. Without a
     * snapshot it does nothing. Every DOM read during the run returns `box`;
     * `resolves` gives the outcome of each `prepare` and `animate` promise.
     */
    method Execute(reg: ChildrenStore, box: BoundingBox, resolves: Call -> bool) returns (started: bool, settled: bool)
      modifies this`shown, this`hasStoredBefore, this`trace, reg
      ensures started == (name in old(reg.entries))
      ensures settled == (started && Completes(old(reg.entries)[name], ToTarget(renderChildren, box), resolves))
      ensures !started ==> trace == old(trace)
      ensures started ==> trace == old(trace) + SettleTrace(old(reg.entries)[name], ToTarget(renderChildren, box), resolves)
                                   + (if settled then NotifyIf(hasManager) else [])
      ensures settled ==> shown
      ensures settled ==> reg.entries == AfterStore(old(reg.entries), name, unmounting, data, box, element, renderChildren)
      ensures settled ==> hasStoredBefore == (old(hasStoredBefore) || Writes(unmounting, data))
      ensures !settled ==> (shown == old(shown) && hasStoredBefore == old(hasStoredBefore)
                            && reg.entries == old(reg.entries))
    {
      if name !in reg.entries {
        return false, false;
      }
      var snap := reg.entries[name];
      settled := Settle(snap, ToTarget(renderChildren, box), resolves);
      if settled {
        ShowStoreNotify(reg, box);
      }
      started := true;
    }

    /**
     * `componentDidMount`: executes when the store already holds the name;
     * otherwise shows itself, stores and notifies the manager at once. It ends
     * shown, stored (when it may) and with the manager notified unless the
     * execution's chain rejects.
     */
    method DidMount(reg: ChildrenStore, box: BoundingBox, resolves: Call -> bool) returns (executed: bool, settled: bool)
      modifies this`shown, this`hasStoredBefore, this`trace, reg
      ensures executed == (name in old(reg.entries))
      ensures settled == (!executed || Completes(old(reg.entries)[name], ToTarget(renderChildren, box), resolves))
      ensures trace == old(trace)
                       + (if executed then SettleTrace(old(reg.entries)[name], ToTarget(renderChildren, box), resolves) else [])
                       + (if settled then NotifyIf(hasManager) else [])
      ensures settled ==> shown
      ensures settled ==> reg.entries == AfterStore(old(reg.entries), name, unmounting, data, box, element, renderChildren)
      ensures settled ==> hasStoredBefore == (old(hasStoredBefore) || Writes(unmounting, data))
      ensures !settled ==> (shown == old(shown) && hasStoredBefore == old(hasStoredBefore)
                            && reg.entries == old(reg.entries))
    {
      if name in reg.entries {
        executed, settled := Execute(reg, box, resolves);
      } else {
        ShowStoreNotify(reg, box);
        executed, settled := false, true;
      }
    }
  }

  /**
   * The first instance of a pair: it mounts with nothing stored under its
   * name, so it shows itself, stores its snapshot and notifies its manager;
   * then it unmounts and schedules the removal of that snapshot.
   */
  method MountAndLeave(reg: ChildrenStore, name: string, box: BoundingBox, data: seq<Entry>) returns (a: Baba)
    requires name !in reg.entries
    modifies reg
    ensures fresh(a) && a.name == name && a.shown
    ensures reg.entries == old(reg.entries)[name := Snapshot(box, Some(1), Some(2), data)]
    ensures a.trace == [NotifyFinish, ScheduleRemoval(name, RemovalDelay)]
  {
    a := new Baba(name, true);
    a.SetRef(1);
    a.SetReactNode(2);
    a.SetData(data);
    var executed, settled := a.DidMount(reg, box, (c: Call) => true);
    a.WillUnmount();
  }

  /**
   * A hand-off between two instances of the same name: the first mounts,
   * stores and unmounts, scheduling the removal; the second mounts, executes
   * against the first's snapshot and then stores its own; the removal timer
   * fires afterwards and removes that fresh snapshot.
   * `Execute` runs the second instance's whole chain in one step, so this
   * order is the one where that chain settles within the 50 ms of the
   * removal delay. When the animations take longer, the timer fires during
   * the chain, removes the first snapshot, and the second instance's final
   * store survives.
   */
  method HandOff(boxA: BoundingBox, boxB: BoundingBox, dataA: seq<Entry>, dataB: seq<Entry>)
  {
    var reg := new ChildrenStore();
    var a := MountAndLeave(reg, "card", boxA, dataA);

    var b := new Baba("card", false);
    b.SetRef(3);
    b.SetReactNode(4);
    b.SetData(dataB);
    var always := (c: Call) => true;
    AllResolve(reg.entries["card"], ToTarget(Some(4), boxB), always);
    var executed, settled := b.DidMount(reg, boxB, always);
    assert executed && settled && b.shown;
    assert reg.entries["card"].data == dataB;
    a.ClearTimerFires(reg);
    assert "card" !in reg.entries;
  }

  /**
   * A hand-off whose first `prepare` rejects: the second instance calls every
   * `prepare`, then nothing more. It stays hidden, does not store and does
   * not notify its manager, and the store still holds the first snapshot.
   */
  method RejectedHandOff(boxA: BoundingBox, boxB: BoundingBox, dataA: seq<Entry>, dataB: seq<Entry>)
    requires dataA != [] && dataA[0].Animation?
  {
    var reg := new ChildrenStore();
    var a := MountAndLeave(reg, "card", boxA, dataA);
    var first := reg.entries["card"];

    var b := new Baba("card", true);
    b.SetData(dataB);
    var failing := (c: Call) => c != Prepare(dataA[0].payload);
    assert Prepares(first.data)[0] == Prepare(dataA[0].payload);
    var executed, settled := b.DidMount(reg, boxB, failing);
    assert executed && !settled && !b.shown;
    assert b.trace == Prepares(dataA);
    assert reg.entries["card"] == first;
  }
}
