/** The parallel projection as a state machine: a fetcher, n workers and the caller of Next exchange input and
    output tokens over bounded channels. A step is one channel operation or one call of the child.

    Input token i is bound to worker i. `inputs[i]` and `outputs[o]` are the chunks the tokens carry; an
    empty output chunk is None. Errors and panics are left out, so `done` only says that a token arrived. */
module ParallelProjection {

  datatype Option<+T> = None | Some(value: T)

  datatype Fetcher =
    | ReadInput
    | ReadOutput(inp: nat)
    | SendGlobal(inp: nat, out: nat)
    | CallChild(inp: nat, out: nat)
    | SendInput(inp: nat, out: nat)
    | SendOutput(inp: nat, out: nat)
    | SignalEnd(inp: nat, out: nat)
    | Exited(inp: nat)

  datatype Phase = Idle | HasInput | HasBoth(out: nat) | GiveBack

  /** `round` is a history variable: which chunk of the child the last output token it got belongs to. */
  datatype Worker = Worker(inputCh: bool, outputCh: Option<nat>, phase: Phase, round: nat)

  datatype Caller = Away | WaitOutput | WaitDone(out: nat) | ReturnOutput(out: nat)

  datatype State<A, B> = State(
    child: seq<A>,
    fetched: nat,
    fetcher: Fetcher,
    inputCh: seq<nat>,
    outputCh: seq<nat>,
    globalCh: seq<nat>,
    inputs: seq<Option<A>>,
    outputs: seq<Option<B>>,
    done: seq<bool>,
    workers: seq<Worker>,
    caller: Caller,
    returned: seq<Option<B>>)

  /** The state prepare leaves behind for `n` workers. */
  predicate Init<A(==), B(==)>(s: State<A, B>, n: nat) {
    && n >= 1
    && s.fetched == 0 && s.fetcher == ReadInput && s.caller == Away && s.returned == [] && s.globalCh == []
    && s.inputCh == seq(n, i => i) && s.outputCh == seq(n, i => i)
    && s.inputs == seq(n, _ => None) && s.outputs == seq(n, _ => None) && s.done == seq(n, _ => false)
    && s.workers == seq(n, _ => Worker(false, None, Idle, 0))
  }

  // ------------------------------------------------------------------ steps

  /** The step the fetcher would take next has its channel ready. A send is ready when the channel has room,
      a receive when it holds something. */
  predicate FetcherReady<A, B>(s: State<A, B>) {
    match s.fetcher
    case ReadInput => s.inputCh != []
    case ReadOutput(_) => s.outputCh != []
    case SendGlobal(_, _) => |s.globalCh| < |s.workers|
    case CallChild(_, _) => true
    case SendInput(i, _) => i < |s.workers| && !s.workers[i].inputCh
    case SendOutput(i, _) => i < |s.workers| && s.workers[i].outputCh == None
    case SignalEnd(_, o) => o < |s.done| && !s.done[o]
    case Exited(_) => false
  }

  /** The step itself; without a ready channel nothing happens. */
  function FetcherStep<A, B>(s: State<A, B>): State<A, B> {
    if !FetcherReady(s) then s
    else match s.fetcher
    case ReadInput => s.(fetcher := ReadOutput(s.inputCh[0]), inputCh := s.inputCh[1..])
    case ReadOutput(i) => s.(fetcher := SendGlobal(i, s.outputCh[0]), outputCh := s.outputCh[1..])
    case SendGlobal(i, o) => s.(fetcher := CallChild(i, o), globalCh := s.globalCh + [o])
    case CallChild(i, o) =>
      if s.fetched < |s.child| && i < |s.inputs| then
        s.(fetcher := SendInput(i, o), inputs := s.inputs[i := Some(s.child[s.fetched])], fetched := s.fetched + 1)
      else s.(fetcher := SignalEnd(i, o))
    case SendInput(i, o) => s.(fetcher := SendOutput(i, o), workers := s.workers[i := s.workers[i].(inputCh := true)])
    case SendOutput(i, o) => s.(fetcher := ReadInput, workers := s.workers[i := s.workers[i].(outputCh := Some(o), round := if s.fetched > 0 then s.fetched - 1 else 0)])
    case SignalEnd(i, o) => s.(fetcher := Exited(i), done := s.done[o := true])
  }

  predicate WorkerReady<A, B>(s: State<A, B>, w: nat) {
    w < |s.workers| &&
    match s.workers[w].phase
    case Idle => s.workers[w].inputCh
    case HasInput => s.workers[w].outputCh.Some?
    case HasBoth(o) => o < |s.done| && !s.done[o]
    case GiveBack => |s.inputCh| < |s.workers|
  }

  function WorkerStep<A, B>(s: State<A, B>, w: nat, eval: A -> B): State<A, B> {
    if !WorkerReady(s, w) then s
    else
    var me := s.workers[w];
    match me.phase
    case Idle => s.(workers := s.workers[w := me.(inputCh := false, phase := HasInput)])
    case HasInput => s.(workers := s.workers[w := me.(outputCh := None, phase := HasBoth(me.outputCh.value))])
    case HasBoth(o) =>
      var result := if w < |s.inputs| && s.inputs[w].Some? then Some(eval(s.inputs[w].value)) else None;
      s.(workers := s.workers[w := me.(phase := GiveBack)],
         outputs := if o < |s.outputs| then s.outputs[o := result] else s.outputs,
         done := s.done[o := true])
    case GiveBack => s.(workers := s.workers[w := me.(phase := Idle)], inputCh := s.inputCh + [w])
  }

  predicate CallerReady<A, B>(s: State<A, B>) {
    match s.caller
    case Away => true
    case WaitOutput => s.globalCh != [] || s.fetcher.Exited?
    case WaitDone(o) => o < |s.done| && o < |s.outputs| && s.done[o]
    case ReturnOutput(_) => |s.outputCh| < |s.workers|
  }

  /** The caller receives the next output, waits until it is done, takes its chunk, leaving an empty one, and
      gives the token back. A closed and empty channel means the end. */
  function CallerStep<A, B>(s: State<A, B>): State<A, B> {
    if !CallerReady(s) then s
    else match s.caller
    case Away => s.(caller := WaitOutput)
    case WaitOutput =>
      if s.globalCh != [] then s.(caller := WaitDone(s.globalCh[0]), globalCh := s.globalCh[1..])
      else s.(caller := Away, returned := s.returned + [None])
    case WaitDone(o) =>
      s.(caller := ReturnOutput(o), done := s.done[o := false], returned := s.returned + [s.outputs[o]],
         outputs := s.outputs[o := None])
    case ReturnOutput(o) => s.(caller := Away, outputCh := s.outputCh + [o])
  }

  /** Any one of the processes moves. */
  ghost predicate Next<A(!new), B(!new)>(s: State<A, B>, s': State<A, B>, eval: A -> B) {
    || (FetcherReady(s) && s' == FetcherStep(s))
    || (exists w :: 0 <= w < |s.workers| && WorkerReady(s, w) && s' == WorkerStep(s, w, eval))
    || (CallerReady(s) && s' == CallerStep(s))
  }

  ghost predicate Run<A(!new), B(!new)>(run: seq<State<A, B>>, n: nat, eval: A -> B) {
    run != [] && Init(run[0], n) && forall i :: 0 < i < |run| ==> Next(run[i - 1], run[i], eval)
  }

  // ------------------------------------------------------------------ who holds which token

  predicate Distinct(ids: seq<nat>) {
    forall i, j :: 0 <= i < j < |ids| ==> ids[i] != ids[j]
  }

  predicate Below(ids: seq<nat>, n: nat) {
    forall i :: 0 <= i < |ids| ==> ids[i] < n
  }

  /** The input token the fetcher holds. */
  function HeldInput(f: Fetcher): Option<nat> {
    match f
    case ReadInput => None
    case ReadOutput(i) => Some(i)
    case SendGlobal(i, _) => Some(i)
    case CallChild(i, _) => Some(i)
    case SendInput(i, _) => Some(i)
    case SendOutput(_, _) => None
    case SignalEnd(i, _) => Some(i)
    case Exited(i) => Some(i)
  }

  /** The worker has its input token. */
  predicate Busy(w: Worker) { w.inputCh || w.phase != Idle }

  /** Outputs posted to the caller and not yet taken, in order. */
  function Posted<A, B>(s: State<A, B>): seq<nat> {
    (if s.caller.WaitDone? then [s.caller.out] else []) + s.globalCh
  }

  /** The output token a worker has been given. */
  function Job(w: Worker): Option<nat> {
    if w.phase.HasBoth? then Some(w.phase.out) else w.outputCh
  }

  /** How many rounds the caller has taken: one for each chunk of the child, and one that signals the end. */
  function Taken<A, B>(s: State<A, B>): nat {
    if |s.returned| <= |s.child| then |s.returned| else |s.child| + 1
  }

  /** The output token of round `t`, which has been posted and not taken. */
  function Slot<A, B>(s: State<A, B>, t: nat): nat
    requires Taken(s) <= t < Taken(s) + |Posted(s)|
  {
    Posted(s)[t - Taken(s)]
  }

  predicate Outstanding<A, B>(s: State<A, B>, t: nat) { Taken(s) <= t < Taken(s) + |Posted(s)| }

  // ------------------------------------------------------------------ invariants

  function One(b: bool): nat { if b then 1 else 0 }

  predicate Sizes<A, B>(s: State<A, B>) {
    |s.workers| >= 1 && |s.inputs| == |s.outputs| == |s.done| == |s.workers|
  }

  /** Every input token is in exactly one place. */
  predicate InputPlaced<A, B>(s: State<A, B>, w: nat) {
    w < |s.workers| && One(w in s.inputCh) + One(HeldInput(s.fetcher) == Some(w)) + One(Busy(s.workers[w])) == 1
  }

  predicate InputsOK<A, B>(s: State<A, B>) {
    && Distinct(s.inputCh) && Below(s.inputCh, |s.workers|)
    && (HeldInput(s.fetcher).Some? ==> HeldInput(s.fetcher).value < |s.workers|)
    && forall w :: 0 <= w < |s.workers| ==> InputPlaced(s, w)
  }

  predicate FetcherHolds<A, B>(s: State<A, B>, o: nat) { s.fetcher.SendGlobal? && s.fetcher.out == o }

  /** Every output token is in exactly one place, and empty and not done unless it is posted. */
  predicate OutputPlaced<A, B>(s: State<A, B>, o: nat) {
    && o < |s.outputs| && o < |s.done|
    && One(o in s.outputCh) + One(FetcherHolds(s, o)) + One(s.caller == ReturnOutput(o)) + One(o in Posted(s)) == 1
    && (o !in Posted(s) ==> s.outputs[o] == None && !s.done[o])
  }

  predicate OutputsOK<A, B>(s: State<A, B>) {
    && Sizes(s)
    && Distinct(s.outputCh) && Below(s.outputCh, |s.workers|)
    && Distinct(Posted(s)) && Below(Posted(s), |s.workers|)
    && (s.fetcher.SendGlobal? ==> s.fetcher.out < |s.workers|)
    && (s.caller.ReturnOutput? ==> s.caller.out < |s.workers|)
    && forall o :: 0 <= o < |s.workers| ==> OutputPlaced(s, o)
  }

  /** A worker has its tokens in the right order; only right before the fetcher sends the output is it without. */
  predicate WorkerOK<A, B>(s: State<A, B>, w: nat) {
    && w < |s.workers|
    && var me := s.workers[w];
    && (me.inputCh ==> me.phase == Idle)
    && (me.outputCh.Some? ==> me.inputCh || me.phase == HasInput)
    && ((me.inputCh || me.phase == HasInput) && me.outputCh == None <==> s.fetcher.SendOutput? && s.fetcher.inp == w)
  }

  predicate WorkersOK<A, B>(s: State<A, B>) {
    && (forall w :: 0 <= w < |s.workers| ==> WorkerOK(s, w))
    && (s.fetcher.SendOutput? ==> s.fetcher.inp < |s.workers|)
  }

  /** Posted rounds and fetched chunks keep step. */
  predicate RoundsOK<A, B>(s: State<A, B>) {
    && s.fetched <= |s.child|
    && Taken(s) + |Posted(s)| == s.fetched + One(s.fetcher.CallChild? || s.fetcher.SignalEnd? || s.fetcher.Exited?)
    && (s.fetcher.SignalEnd? || s.fetcher.Exited? ==> s.fetched == |s.child|)
    && (s.fetcher.SendInput? || s.fetcher.SendOutput? ==> s.fetched >= 1)
  }

  /** A worker's output token belongs to its round, is not done, and its input token carries that chunk. */
  predicate JobOK<A(==), B(==)>(s: State<A, B>, w: nat) {
    && Sizes(s) && w < |s.workers|
    && var me := s.workers[w];
    Job(me).Some? ==>
      && Outstanding(s, me.round) && me.round < s.fetched <= |s.child|
      && Slot(s, me.round) == Job(me).value < |s.workers|
      && !s.done[Job(me).value] && s.outputs[Job(me).value] == None
      && s.inputs[w] == Some(s.child[me.round])
  }

  predicate JobsOK<A(==), B(==)>(s: State<A, B>) {
    && Sizes(s)
    && (forall w :: 0 <= w < |s.workers| ==> JobOK(s, w))
    && (forall v, w :: 0 <= v < w < |s.workers| && Job(s.workers[v]).Some? && Job(s.workers[w]).Some? ==>
          s.workers[v].round != s.workers[w].round)
  }

  /** The fetcher is working on the last posted output. */
  predicate FetcherOK<A(==), B(==)>(s: State<A, B>) {
    Sizes(s) && (s.fetcher.CallChild? || s.fetcher.SendInput? || s.fetcher.SendOutput? || s.fetcher.SignalEnd? ==>
      && Posted(s) != [] && Posted(s)[|Posted(s)| - 1] == s.fetcher.out < |s.workers|
      && !s.done[s.fetcher.out] && s.outputs[s.fetcher.out] == None
      && (s.fetcher.SendInput? || s.fetcher.SendOutput? ==>
            && s.fetcher.inp < |s.workers| && 1 <= s.fetched <= |s.child|
            && s.inputs[s.fetcher.inp] == Some(s.child[s.fetched - 1])
            && forall w :: 0 <= w < |s.workers| && Job(s.workers[w]).Some? ==> s.workers[w].round != s.fetched - 1))
  }

  /** Somebody is still working on output `o`. */
  predicate InWork<A, B>(s: State<A, B>, o: nat) {
    || (exists w :: 0 <= w < |s.workers| && Job(s.workers[w]) == Some(o))
    || ((s.fetcher.SendInput? || s.fetcher.SendOutput?) && s.fetcher.out == o)
  }

  /** A posted output is either done and holds the result of its round, or somebody is working on it; the
      round after the last chunk ends up done and empty. */
  predicate SlotOK<A(==), B(==)>(s: State<A, B>, t: nat, eval: A -> B) {
    && Sizes(s) && Outstanding(s, t) && Slot(s, t) < |s.workers| && s.fetched <= |s.child|
    && var o := Slot(s, t);
    if t < s.fetched then
      if s.done[o] then s.outputs[o] == Some(eval(s.child[t])) else s.outputs[o] == None && InWork(s, o)
    else s.outputs[o] == None && (s.done[o] <==> s.fetcher.Exited?)
  }

  predicate SlotsOK<A(==), B(==)>(s: State<A, B>, eval: A -> B) {
    forall t :: Taken(s) <= t < Taken(s) + |Posted(s)| ==> SlotOK(s, t, eval)
  }

  /** What the k-th call of Next must return. */
  function Expected<A, B>(child: seq<A>, eval: A -> B, k: nat): Option<B> {
    if k < |child| then Some(eval(child[k])) else None
  }

  predicate ReturnedOK<A, B(==)>(s: State<A, B>, eval: A -> B) {
    forall k :: 0 <= k < |s.returned| ==> s.returned[k] == Expected(s.child, eval, k)
  }

  predicate Inv<A(==), B(==)>(s: State<A, B>, eval: A -> B) {
    && Sizes(s) && InputsOK(s) && OutputsOK(s) && WorkersOK(s) && RoundsOK(s) && JobsOK(s) && FetcherOK(s)
    && SlotsOK(s, eval) && ReturnedOK(s, eval)
  }

  // ------------------------------------------------------------------ queues

  lemma {:induction false} PopFront(q: seq<nat>)
    requires Distinct(q) && q != []
    ensures Distinct(q[1..]) && q[0] !in q[1..]
    ensures forall x :: x in q <==> x == q[0] || x in q[1..]
  {
    assert q == [q[0]] + q[1..];
  }

  lemma {:induction false} PushBack(q: seq<nat>, x: nat)
    requires Distinct(q) && x !in q
    ensures Distinct(q + [x])
  {
  }

  /** A queue of distinct tokens that lacks one of `n` has room for it. */
  lemma {:induction false} HasRoom(q: seq<nat>, n: nat, x: nat)
    requires Distinct(q) && Below(q, n) && x < n && x !in q
    ensures |q| < n
  {
    PushBack(q, x);
    Pigeonhole(q + [x], n);
  }

  lemma {:induction false} FirstBelow(q: seq<nat>, n: nat)
    requires Below(q, n)
    ensures |q| > 0 ==> n > 0
  {
    assert |q| > 0 ==> q[0] < n;
  }

  lemma {:induction false} Pigeonhole(q: seq<nat>, n: nat)
    requires Distinct(q) && Below(q, n)
    ensures |q| <= n
    decreases n
  {
    FirstBelow(q, n);
    if n == 0 {
    } else if n - 1 in q {
      var k :| 0 <= k < |q| && q[k] == n - 1;
      Pigeonhole(q[..k] + q[k + 1..], n - 1);
    } else {
      Pigeonhole(q, n - 1);
    }
  }

  // ------------------------------------------------------------------ no send ever blocks

  /** Whenever the fetcher is about to send, the channel has room. */
  lemma {:induction false} FetcherSends<A(!new), B(!new)>(s: State<A, B>, eval: A -> B)
    requires Inv(s, eval)
    ensures FetcherReady(s) || s.fetcher.ReadInput? || s.fetcher.ReadOutput? || s.fetcher.Exited?
  {
    match s.fetcher {
      case SendGlobal(_, o) =>
        assert OutputPlaced(s, o);
        InGlobal(s, o);
        HasRoom(s.globalCh, |s.workers|, o);
      case SendInput(i, _) => assert InputPlaced(s, i);
      case SendOutput(i, _) => assert WorkerOK(s, i);
      case _ =>
    }
  }

  lemma {:induction false} InGlobal<A, B>(s: State<A, B>, o: nat)
    requires Distinct(Posted(s)) && Below(Posted(s), |s.workers|)
    ensures Distinct(s.globalCh) && Below(s.globalCh, |s.workers|)
    ensures o !in Posted(s) ==> o !in s.globalCh
  {
    var p := Posted(s);
    if s.caller.WaitDone? {
      assert p[1..] == s.globalCh;
      PopFront(p);
    } else {
      assert p == s.globalCh;
    }
    forall i | 0 <= i < |s.globalCh|
      ensures s.globalCh[i] in p && s.globalCh[i] < |s.workers|
    {
      assert s.globalCh[i] == p[|p| - |s.globalCh| + i];
    }
  }

  /** Whenever a worker is about to send, the channel has room. */
  lemma {:induction false} WorkerSends<A(!new), B(!new)>(s: State<A, B>, w: nat, eval: A -> B)
    requires Inv(s, eval) && w < |s.workers|
    ensures s.workers[w].phase.HasBoth? || s.workers[w].phase.GiveBack? ==> WorkerReady(s, w)
  {
    assert JobOK(s, w);
    assert InputPlaced(s, w);
    if s.workers[w].phase.GiveBack? {
      HasRoom(s.inputCh, |s.workers|, w);
    }
  }

  /** Whenever the caller gives an output back, the channel has room. */
  lemma {:induction false} CallerSends<A(!new), B(!new)>(s: State<A, B>, eval: A -> B)
    requires Inv(s, eval) && s.caller.ReturnOutput?
    ensures CallerReady(s)
  {
    assert OutputPlaced(s, s.caller.out);
    HasRoom(s.outputCh, |s.workers|, s.caller.out);
  }

  // ------------------------------------------------------------------ no deadlock

  /** The fetcher or a worker can move. */
  ghost predicate OthersMove<A, B>(s: State<A, B>) {
    FetcherReady(s) || exists w :: 0 <= w < |s.workers| && WorkerReady(s, w)
  }

  ghost predicate SomebodyMoves<A, B>(s: State<A, B>) { OthersMove(s) || CallerReady(s) }

  /** A worker that has its input token, with the fetcher not in the middle of sending to it, can move. */
  lemma {:induction false} BusyWorkerMoves<A(!new), B(!new)>(s: State<A, B>, w: nat, eval: A -> B)
    requires Inv(s, eval) && w < |s.workers| && Busy(s.workers[w]) && !s.fetcher.SendOutput?
    ensures WorkerReady(s, w)
  {
    assert WorkerOK(s, w);
    WorkerSends(s, w, eval);
  }

  /** As long as the caller waits in Next, some process can move. */
  lemma {:induction false} NeverStuck<A(!new), B(!new)>(s: State<A, B>, eval: A -> B)
    requires Inv(s, eval)
    ensures SomebodyMoves(s)
  {
    FetcherSends(s, eval);
    if s.caller.ReturnOutput? {
      CallerSends(s, eval);
    } else if !FetcherReady(s) && !CallerReady(s) {
      if s.fetcher.ReadInput? {
        assert InputPlaced(s, 0);
        BusyWorkerMoves(s, 0, eval);
      } else {
        WaitingForWork(s, eval);
      }
    }
  }

  /** With the fetcher out of output tokens or gone, the output the caller waits for is with a worker. */
  lemma {:induction false} WaitingForWork<A(!new), B(!new)>(s: State<A, B>, eval: A -> B)
    requires Inv(s, eval) && !FetcherReady(s) && !CallerReady(s)
    requires s.caller.WaitOutput? || s.caller.WaitDone?
    requires s.fetcher.ReadOutput? || s.fetcher.Exited?
    ensures exists w :: 0 <= w < |s.workers| && WorkerReady(s, w)
  {
    assert OutputPlaced(s, 0);
    assert Posted(s) != [];
    assert s.caller.WaitDone?;
    var o := s.caller.out;
    assert Posted(s)[0] == o;
    assert SlotOK(s, Taken(s), eval);
    var w :| 0 <= w < |s.workers| && Job(s.workers[w]) == Some(o);
    assert WorkerOK(s, w);
    BusyWorkerMoves(s, w, eval);
  }

  // ------------------------------------------------------------------ the invariant holds

  lemma {:induction false} InitInv<A(!new), B(!new)>(s: State<A, B>, n: nat, eval: A -> B)
    requires Init(s, n)
    ensures Inv(s, eval)
  {
    assert forall w :: 0 <= w < n ==> s.inputCh[w] == w && s.outputCh[w] == w;
    forall w | 0 <= w < n
      ensures InputPlaced(s, w) && OutputPlaced(s, w) && WorkerOK(s, w) && JobOK(s, w)
    {
      assert s.inputCh[w] == w && s.outputCh[w] == w;
    }
  }

  /** Where the tokens are. */
  predicate Tokens<A(==), B(==)>(s: State<A, B>) {
    Sizes(s) && InputsOK(s) && OutputsOK(s) && WorkersOK(s) && RoundsOK(s)
  }

  /** What the tokens carry. */
  predicate Contents<A(==), B(==)>(s: State<A, B>, eval: A -> B) {
    JobsOK(s) && FetcherOK(s) && SlotsOK(s, eval) && ReturnedOK(s, eval)
  }

  lemma {:induction false} InvIs<A(!new), B(!new)>(s: State<A, B>, eval: A -> B)
    ensures Inv(s, eval) <==> Tokens(s) && Contents(s, eval)
  {
  }

  // ------------------------------------------------------------------ quiet steps

  predicate Sending(f: Fetcher) { f.SendInput? || f.SendOutput? }

  predicate Opening(f: Fetcher) { f.CallChild? || f.SignalEnd? }

  /** The fetcher is at the same point of the same round, as far as the contents are concerned. */
  predicate SameTask(f: Fetcher, g: Fetcher) {
    && Sending(f) == Sending(g) && Opening(f) == Opening(g) && f.Exited? == g.Exited?
    && (Sending(f) ==> f.inp == g.inp && f.out == g.out)
    && (Opening(f) ==> f.out == g.out)
  }

  /** Tokens move, but nothing they carry changes and no round begins or ends. */
  ghost predicate Quiet<A(!new), B(!new)>(s: State<A, B>, s': State<A, B>) {
    && s'.child == s.child && s'.fetched == s.fetched && s'.inputs == s.inputs && s'.outputs == s.outputs && s'.done == s.done
    && Posted(s') == Posted(s) && Taken(s') == Taken(s)
    && |s'.workers| == |s.workers|
    && (forall w :: 0 <= w < |s.workers| ==> Job(s'.workers[w]) == Job(s.workers[w]) && s'.workers[w].round == s.workers[w].round)
    && SameTask(s.fetcher, s'.fetcher)
  }

  /** Work on an output goes on if every worker keeps its job and the fetcher its own. */
  lemma {:induction false} WorkKept<A(!new), B(!new)>(s: State<A, B>, s': State<A, B>, o: nat)
    requires |s'.workers| == |s.workers| && (forall w :: 0 <= w < |s.workers| ==> Job(s'.workers[w]) == Job(s.workers[w]))
    requires Sending(s.fetcher) && s.fetcher.out == o ==> Sending(s'.fetcher) && s'.fetcher.out == o
    ensures InWork(s, o) ==> InWork(s', o)
  {
    if w :| 0 <= w < |s.workers| && Job(s.workers[w]) == Some(o) {
      assert Job(s'.workers[w]) == Some(o);
    }
  }

  lemma {:induction false} QuietJobs<A(!new), B(!new)>(s: State<A, B>, s': State<A, B>)
    requires Sizes(s) && Sizes(s') && JobsOK(s) && FetcherOK(s) && Quiet(s, s')
    ensures JobsOK(s') && FetcherOK(s')
  {
    hide Posted;
    forall w | 0 <= w < |s.workers|
      ensures JobOK(s', w)
    {
      assert JobOK(s, w);
    }
  }

  lemma {:induction false} QuietSlots<A(!new), B(!new)>(s: State<A, B>, s': State<A, B>, eval: A -> B)
    requires Tokens(s) && Tokens(s') && SlotsOK(s, eval) && Quiet(s, s')
    ensures SlotsOK(s', eval)
  {
    hide Posted, Tokens, Taken, InWork;
    SizesOf(s);
    SizesOf(s');
    forall t | Taken(s') <= t < Taken(s') + |Posted(s')|
      ensures SlotOK(s', t, eval)
    {
      assert SlotOK(s, t, eval);
      WorkKept(s, s', Slot(s, t));
    }
  }

  lemma {:induction false} SizesOf<A(!new), B(!new)>(s: State<A, B>)
    requires Tokens(s)
    ensures Sizes(s) && OutputsOK(s) && s.fetched <= |s.child|
  {
  }

  lemma {:induction false} QuietContents<A(!new), B(!new)>(s: State<A, B>, s': State<A, B>, eval: A -> B)
    requires Tokens(s) && Tokens(s') && Contents(s, eval) && Quiet(s, s') && ReturnedOK(s', eval)
    ensures Contents(s', eval)
  {
    hide Tokens, JobsOK, FetcherOK, SlotsOK, ReturnedOK, Quiet;
    SizesOf(s);
    SizesOf(s');
    QuietJobs(s, s');
    QuietSlots(s, s', eval);
  }

  lemma {:induction false} ReadInputTokens<A(!new), B(!new)>(s: State<A, B>, eval: A -> B)
    requires Tokens(s) && Contents(s, eval) && s.fetcher.ReadInput? && FetcherReady(s)
    ensures Tokens(FetcherStep(s))
  {
    hide SlotsOK, ReturnedOK;
    var s' := FetcherStep(s);
    PopFront(s.inputCh);
    assert Posted(s') == Posted(s);
    forall w | 0 <= w < |s.workers|
      ensures InputPlaced(s', w) && OutputPlaced(s', w) && WorkerOK(s', w)
    {
      assert InputPlaced(s, w) && OutputPlaced(s, w) && WorkerOK(s, w) && JobOK(s, w);
    }
  }

  /** The fetcher takes an input token. */
  lemma {:induction false} ReadInputKeeps<A(!new), B(!new)>(s: State<A, B>, eval: A -> B)
    requires Tokens(s) && Contents(s, eval) && s.fetcher.ReadInput? && FetcherReady(s)
    ensures Tokens(FetcherStep(s)) && Contents(FetcherStep(s), eval)
  {
    ReadInputTokens(s, eval);
    var s' := FetcherStep(s);
    assert Quiet(s, s') by {
      hide SlotsOK, ReturnedOK, JobsOK, FetcherOK;
      assert Posted(s') == Posted(s);
    }
    hide Tokens, Quiet;
    QuietContents(s, s', eval);
  }

  lemma {:induction false} ReadOutputTokens<A(!new), B(!new)>(s: State<A, B>, eval: A -> B)
    requires Tokens(s) && Contents(s, eval) && s.fetcher.ReadOutput? && FetcherReady(s)
    ensures Tokens(FetcherStep(s))
  {
    hide SlotsOK, ReturnedOK;
    var s' := FetcherStep(s);
    PopFront(s.outputCh);
    assert Posted(s') == Posted(s);
    forall w | 0 <= w < |s.workers|
      ensures InputPlaced(s', w) && OutputPlaced(s', w) && WorkerOK(s', w)
    {
      assert InputPlaced(s, w) && OutputPlaced(s, w) && WorkerOK(s, w) && JobOK(s, w);
    }
  }

  /** The fetcher takes an output token. */
  lemma {:induction false} ReadOutputKeeps<A(!new), B(!new)>(s: State<A, B>, eval: A -> B)
    requires Tokens(s) && Contents(s, eval) && s.fetcher.ReadOutput? && FetcherReady(s)
    ensures Tokens(FetcherStep(s)) && Contents(FetcherStep(s), eval)
  {
    ReadOutputTokens(s, eval);
    var s' := FetcherStep(s);
    assert Quiet(s, s') by {
      hide SlotsOK, ReturnedOK, JobsOK, FetcherOK;
      assert Posted(s') == Posted(s);
    }
    hide Tokens, Quiet;
    QuietContents(s, s', eval);
  }

  lemma {:induction false} SendInputTokens<A(!new), B(!new)>(s: State<A, B>, eval: A -> B)
    requires Tokens(s) && Contents(s, eval) && s.fetcher.SendInput? && FetcherReady(s)
    ensures Tokens(FetcherStep(s))
  {
    hide SlotsOK, ReturnedOK;
    var s' := FetcherStep(s);
    assert Posted(s') == Posted(s);
    forall w | 0 <= w < |s.workers|
      ensures InputPlaced(s', w) && OutputPlaced(s', w) && WorkerOK(s', w)
    {
      assert InputPlaced(s, w) && OutputPlaced(s, w) && WorkerOK(s, w) && JobOK(s, w);
    }
  }

  /** The fetcher hands the input to the worker it is bound to. */
  lemma {:induction false} SendInputKeeps<A(!new), B(!new)>(s: State<A, B>, eval: A -> B)
    requires Tokens(s) && Contents(s, eval) && s.fetcher.SendInput? && FetcherReady(s)
    ensures Tokens(FetcherStep(s)) && Contents(FetcherStep(s), eval)
  {
    SendInputTokens(s, eval);
    var s' := FetcherStep(s);
    assert Quiet(s, s') by {
      hide SlotsOK, ReturnedOK, JobsOK, FetcherOK;
      assert Posted(s') == Posted(s);
    }
    hide Tokens, Quiet;
    QuietContents(s, s', eval);
  }

  lemma {:induction false} TakeInputTokens<A(!new), B(!new)>(s: State<A, B>, w0: nat, eval: A -> B)
    requires Tokens(s) && Contents(s, eval) && w0 < |s.workers| && s.workers[w0].phase.Idle? && WorkerReady(s, w0)
    ensures Tokens(WorkerStep(s, w0, eval))
  {
    hide SlotsOK, ReturnedOK, FetcherOK, Distinct, Below;
    var s' := WorkerStep(s, w0, eval);
    assert Posted(s') == Posted(s);
    hide Posted;
    forall w | 0 <= w < |s.workers|
      ensures InputPlaced(s', w) && OutputPlaced(s', w) && WorkerOK(s', w)
    {
      assert InputPlaced(s, w) && OutputPlaced(s, w) && WorkerOK(s, w) && JobOK(s, w);
    }
  }

  /** A worker takes its input. */
  lemma {:induction false} TakeInputKeeps<A(!new), B(!new)>(s: State<A, B>, w0: nat, eval: A -> B)
    requires Tokens(s) && Contents(s, eval) && w0 < |s.workers| && s.workers[w0].phase.Idle? && WorkerReady(s, w0)
    ensures Tokens(WorkerStep(s, w0, eval)) && Contents(WorkerStep(s, w0, eval), eval)
  {
    TakeInputTokens(s, w0, eval);
    var s' := WorkerStep(s, w0, eval);
    assert Quiet(s, s') by {
      hide SlotsOK, ReturnedOK, JobsOK, FetcherOK;
      assert Posted(s') == Posted(s);
    }
    hide Tokens, Quiet;
    QuietContents(s, s', eval);
  }

  lemma {:induction false} TakeOutputTokens<A(!new), B(!new)>(s: State<A, B>, w0: nat, eval: A -> B)
    requires Tokens(s) && Contents(s, eval) && w0 < |s.workers| && s.workers[w0].phase.HasInput? && WorkerReady(s, w0)
    ensures Tokens(WorkerStep(s, w0, eval))
  {
    hide SlotsOK, ReturnedOK;
    var s' := WorkerStep(s, w0, eval);
    assert Posted(s') == Posted(s);
    forall w | 0 <= w < |s.workers|
      ensures InputPlaced(s', w) && OutputPlaced(s', w) && WorkerOK(s', w)
    {
      assert InputPlaced(s, w) && OutputPlaced(s, w) && WorkerOK(s, w) && JobOK(s, w);
    }
  }

  /** A worker takes its output. */
  lemma {:induction false} TakeOutputKeeps<A(!new), B(!new)>(s: State<A, B>, w0: nat, eval: A -> B)
    requires Tokens(s) && Contents(s, eval) && w0 < |s.workers| && s.workers[w0].phase.HasInput? && WorkerReady(s, w0)
    ensures Tokens(WorkerStep(s, w0, eval)) && Contents(WorkerStep(s, w0, eval), eval)
  {
    TakeOutputTokens(s, w0, eval);
    var s' := WorkerStep(s, w0, eval);
    assert Quiet(s, s') by {
      hide SlotsOK, ReturnedOK, JobsOK, FetcherOK;
      assert Posted(s') == Posted(s);
    }
    hide Tokens, Quiet;
    QuietContents(s, s', eval);
  }

  lemma {:induction false} GiveBackTokens<A(!new), B(!new)>(s: State<A, B>, w0: nat, eval: A -> B)
    requires Tokens(s) && Contents(s, eval) && w0 < |s.workers| && s.workers[w0].phase.GiveBack? && WorkerReady(s, w0)
    ensures Tokens(WorkerStep(s, w0, eval))
  {
    hide SlotsOK, ReturnedOK;
    var s' := WorkerStep(s, w0, eval);
    assert Posted(s') == Posted(s);
    assert InputPlaced(s, w0);
    PushBack(s.inputCh, w0);
    forall w | 0 <= w < |s.workers|
      ensures InputPlaced(s', w) && OutputPlaced(s', w) && WorkerOK(s', w)
    {
      assert InputPlaced(s, w) && OutputPlaced(s, w) && WorkerOK(s, w) && JobOK(s, w);
    }
  }

  /** A worker returns its input. */
  lemma {:induction false} GiveBackKeeps<A(!new), B(!new)>(s: State<A, B>, w0: nat, eval: A -> B)
    requires Tokens(s) && Contents(s, eval) && w0 < |s.workers| && s.workers[w0].phase.GiveBack? && WorkerReady(s, w0)
    ensures Tokens(WorkerStep(s, w0, eval)) && Contents(WorkerStep(s, w0, eval), eval)
  {
    GiveBackTokens(s, w0, eval);
    GiveBackIsQuiet(s, w0, eval);
    hide Tokens, Quiet, WorkerStep, Contents;
    QuietContents(s, WorkerStep(s, w0, eval), eval);
  }

  lemma {:induction false} GiveBackIsQuiet<A(!new), B(!new)>(s: State<A, B>, w0: nat, eval: A -> B)
    requires Tokens(s) && Contents(s, eval) && w0 < |s.workers| && s.workers[w0].phase.GiveBack? && WorkerReady(s, w0)
    ensures Quiet(s, WorkerStep(s, w0, eval))
  {
    hide SlotsOK, ReturnedOK, JobsOK, FetcherOK;
    assert Posted(WorkerStep(s, w0, eval)) == Posted(s);
  }

  lemma {:induction false} CallNextTokens<A(!new), B(!new)>(s: State<A, B>, eval: A -> B)
    requires Tokens(s) && Contents(s, eval) && s.caller.Away? && CallerReady(s)
    ensures Tokens(CallerStep(s))
  {
    hide SlotsOK, ReturnedOK;
    var s' := CallerStep(s);
    assert Posted(s') == Posted(s);
    forall w | 0 <= w < |s.workers|
      ensures InputPlaced(s', w) && OutputPlaced(s', w) && WorkerOK(s', w)
    {
      assert InputPlaced(s, w) && OutputPlaced(s, w) && WorkerOK(s, w) && JobOK(s, w);
    }
  }

  /** The parent calls Next. */
  lemma {:induction false} CallNextKeeps<A(!new), B(!new)>(s: State<A, B>, eval: A -> B)
    requires Tokens(s) && Contents(s, eval) && s.caller.Away? && CallerReady(s)
    ensures Tokens(CallerStep(s)) && Contents(CallerStep(s), eval)
  {
    CallNextTokens(s, eval);
    var s' := CallerStep(s);
    assert Quiet(s, s') by {
      hide SlotsOK, ReturnedOK, JobsOK, FetcherOK;
      assert Posted(s') == Posted(s);
    }
    hide Tokens, Quiet;
    QuietContents(s, s', eval);
  }

  lemma {:induction false} ReceiveTokens<A(!new), B(!new)>(s: State<A, B>, eval: A -> B)
    requires Tokens(s) && Contents(s, eval) && s.caller.WaitOutput? && CallerReady(s)
    ensures Tokens(CallerStep(s))
  {
    var s' := CallerStep(s);
    assert Taken(s') == Taken(s);
    assert Posted(s') == Posted(s);
    hide SlotsOK, ReturnedOK, JobsOK, FetcherOK, Posted, Taken, InputPlaced, OutputPlaced, WorkerOK;
    forall w | 0 <= w < |s.workers|
      ensures InputPlaced(s', w) && OutputPlaced(s', w) && WorkerOK(s', w)
    {
      ReceivePlaced(s, eval, w);
    }
  }

  lemma {:induction false} ReceivePlaced<A(!new), B(!new)>(s: State<A, B>, eval: A -> B, w: nat)
    requires Tokens(s) && Contents(s, eval) && w < |s.workers| && s.caller.WaitOutput? && CallerReady(s)
    ensures InputPlaced(CallerStep(s), w) && OutputPlaced(CallerStep(s), w) && WorkerOK(CallerStep(s), w)
  {
    assert Taken(CallerStep(s)) == Taken(s);
    assert Posted(CallerStep(s)) == Posted(s);
    hide SlotsOK, ReturnedOK, JobsOK, FetcherOK, RoundsOK, Posted, Taken;
    assert InputPlaced(s, w) && OutputPlaced(s, w) && WorkerOK(s, w);
  }

  lemma {:induction false} ReceiveIsQuiet<A(!new), B(!new)>(s: State<A, B>)
    requires RoundsOK(s) && s.caller.WaitOutput? && CallerReady(s)
    ensures Quiet(s, CallerStep(s))
  {
    assert Posted(CallerStep(s)) == Posted(s);
  }

  lemma {:induction false} ReceiveReturns<A(!new), B(!new)>(s: State<A, B>, eval: A -> B)
    requires RoundsOK(s) && ReturnedOK(s, eval) && s.caller.WaitOutput? && CallerReady(s)
    ensures ReturnedOK(CallerStep(s), eval)
  {
  }

  /** The caller receives the next output, or finds the channel closed. */
  lemma {:induction false} ReceiveKeeps<A(!new), B(!new)>(s: State<A, B>, eval: A -> B)
    requires Tokens(s) && Contents(s, eval) && s.caller.WaitOutput? && CallerReady(s)
    ensures Tokens(CallerStep(s)) && Contents(CallerStep(s), eval)
  {
    ReceiveTokens(s, eval);
    ReceiveIsQuiet(s);
    ReceiveReturns(s, eval);
    hide Tokens, Quiet, CallerStep, Contents;
    QuietContents(s, CallerStep(s), eval);
  }

  lemma {:induction false} ReturnTokenTokens<A(!new), B(!new)>(s: State<A, B>, eval: A -> B)
    requires Tokens(s) && Contents(s, eval) && s.caller.ReturnOutput? && CallerReady(s)
    ensures Tokens(CallerStep(s))
  {
    hide SlotsOK, ReturnedOK;
    var s' := CallerStep(s);
    var o := s.caller.out;
    assert OutputPlaced(s, o);
    PushBack(s.outputCh, o);
    assert Posted(s') == Posted(s);
    forall w | 0 <= w < |s.workers|
      ensures InputPlaced(s', w) && OutputPlaced(s', w) && WorkerOK(s', w)
    {
      assert InputPlaced(s, w) && OutputPlaced(s, w) && WorkerOK(s, w) && JobOK(s, w);
    }
  }

  /** The caller gives the output token back. */
  lemma {:induction false} ReturnTokenKeeps<A(!new), B(!new)>(s: State<A, B>, eval: A -> B)
    requires Tokens(s) && Contents(s, eval) && s.caller.ReturnOutput? && CallerReady(s)
    ensures Tokens(CallerStep(s)) && Contents(CallerStep(s), eval)
  {
    ReturnTokenTokens(s, eval);
    var s' := CallerStep(s);
    assert Quiet(s, s') by {
      hide SlotsOK, ReturnedOK, JobsOK, FetcherOK;
      assert Posted(s') == Posted(s);
    }
    hide Tokens, Quiet;
    QuietContents(s, s', eval);
  }

  lemma {:induction false} SendGlobalPlaced<A(!new), B(!new)>(s: State<A, B>, w: nat)
    requires Sizes(s) && s.fetcher.SendGlobal? && FetcherReady(s) && w < |s.workers|
    requires InputPlaced(s, w) && OutputPlaced(s, w) && WorkerOK(s, w)
    requires Posted(FetcherStep(s)) == Posted(s) + [s.fetcher.out]
    ensures var s' := FetcherStep(s);
            |s'.workers| == |s'.outputs| == |s'.done| == |s.workers| && InputPlaced(s', w) && OutputPlaced(s', w) && WorkerOK(s', w)
  {
    assert w in Posted(FetcherStep(s)) <==> w in Posted(s) || w == s.fetcher.out;
  }

  lemma {:induction false} SendGlobalTokens<A(!new), B(!new)>(s: State<A, B>, eval: A -> B)
    requires Tokens(s) && Contents(s, eval) && s.fetcher.SendGlobal? && FetcherReady(s)
    ensures Tokens(FetcherStep(s))
  {
    hide SlotsOK, ReturnedOK, JobsOK, InputPlaced, WorkerOK;
    var s' := FetcherStep(s);
    assert Posted(s') == Posted(s) + [s.fetcher.out];
    assert OutputPlaced(s, s.fetcher.out);
    PushBack(Posted(s), s.fetcher.out);
    hide OutputPlaced, Distinct, Below;
    forall w | 0 <= w < |s.workers|
      ensures InputPlaced(s', w) && OutputPlaced(s', w) && WorkerOK(s', w)
    {
      SendGlobalPlaced(s, w);
    }
  }

  lemma {:induction false} SendGlobalJobs<A(!new), B(!new)>(s: State<A, B>, eval: A -> B)
    requires Tokens(s) && Contents(s, eval) && s.fetcher.SendGlobal? && FetcherReady(s) && Tokens(FetcherStep(s))
    ensures JobsOK(FetcherStep(s)) && FetcherOK(FetcherStep(s))
  {
    hide SlotsOK, ReturnedOK;
    var s' := FetcherStep(s);
    assert Posted(s') == Posted(s) + [s.fetcher.out];
    assert OutputPlaced(s, s.fetcher.out);
    forall w | 0 <= w < |s.workers|
      ensures JobOK(s', w)
    {
      assert JobOK(s, w);
    }
  }

  lemma {:induction false} SendGlobalSlots<A(!new), B(!new)>(s: State<A, B>, eval: A -> B)
    requires Tokens(s) && Contents(s, eval) && s.fetcher.SendGlobal? && FetcherReady(s) && Tokens(FetcherStep(s))
    ensures SlotsOK(FetcherStep(s), eval)
  {
    hide InWork;
    var s' := FetcherStep(s);
    assert Posted(s') == Posted(s) + [s.fetcher.out];
    assert OutputPlaced(s, s.fetcher.out);
    forall t | Taken(s') <= t < Taken(s') + |Posted(s')|
      ensures SlotOK(s', t, eval)
    {
      if t < Taken(s) + |Posted(s)| {
        assert SlotOK(s, t, eval);
        WorkKept(s, s', Slot(s, t));
      }
    }
  }

  /** The fetcher posts the output: a new round begins. */
  lemma {:induction false} SendGlobalKeeps<A(!new), B(!new)>(s: State<A, B>, eval: A -> B)
    requires Tokens(s) && Contents(s, eval) && s.fetcher.SendGlobal? && FetcherReady(s)
    ensures Tokens(FetcherStep(s)) && Contents(FetcherStep(s), eval)
  {
    SendGlobalTokens(s, eval);
    SendGlobalJobs(s, eval);
    SendGlobalSlots(s, eval);
    assert ReturnedOK(FetcherStep(s), eval);
    hide Tokens, JobsOK, FetcherOK, SlotsOK;
  }

  lemma {:induction false} CallChildTokens<A(!new), B(!new)>(s: State<A, B>, eval: A -> B)
    requires Tokens(s) && Contents(s, eval) && s.fetcher.CallChild? && FetcherReady(s)
    ensures Tokens(FetcherStep(s))
  {
    hide SlotsOK, ReturnedOK;
    var s' := FetcherStep(s);
    assert Posted(s') == Posted(s);
    forall w | 0 <= w < |s.workers|
      ensures InputPlaced(s', w) && OutputPlaced(s', w) && WorkerOK(s', w)
    {
      assert InputPlaced(s, w) && OutputPlaced(s, w) && WorkerOK(s, w) && JobOK(s, w);
    }
  }

  lemma {:induction false} CallChildJobs<A(!new), B(!new)>(s: State<A, B>, eval: A -> B)
    requires Tokens(s) && Contents(s, eval) && s.fetcher.CallChild? && FetcherReady(s) && Tokens(FetcherStep(s))
    ensures JobsOK(FetcherStep(s)) && FetcherOK(FetcherStep(s))
  {
    hide SlotsOK, ReturnedOK;
    var s' := FetcherStep(s);
    assert Posted(s') == Posted(s);
    assert InputPlaced(s, s.fetcher.inp);
    forall w | 0 <= w < |s.workers| && Job(s.workers[w]).Some?
      ensures s.workers[w].round != s.fetched
    {
      assert JobOK(s, w);
    }
    forall w | 0 <= w < |s.workers|
      ensures JobOK(s', w)
    {
      assert JobOK(s, w);
      assert WorkerOK(s, w) && InputPlaced(s, w);
    }
  }

  lemma {:induction false} CallChildSlots<A(!new), B(!new)>(s: State<A, B>, eval: A -> B)
    requires Tokens(s) && Contents(s, eval) && s.fetcher.CallChild? && FetcherReady(s) && Tokens(FetcherStep(s))
    ensures SlotsOK(FetcherStep(s), eval)
  {
    hide InWork;
    var s' := FetcherStep(s);
    assert Posted(s') == Posted(s);
    forall t | Taken(s') <= t < Taken(s') + |Posted(s')|
      ensures SlotOK(s', t, eval)
    {
      assert SlotOK(s, t, eval);
      if t < s.fetched {
        WorkKept(s, s', Slot(s, t));
      } else if s'.fetcher.SendInput? {
        StartsWork(s', Slot(s, t));
      }
    }
  }

  /** The fetcher reads the child: a chunk, or the end. */
  lemma {:induction false} CallChildKeeps<A(!new), B(!new)>(s: State<A, B>, eval: A -> B)
    requires Tokens(s) && Contents(s, eval) && s.fetcher.CallChild? && FetcherReady(s)
    ensures Tokens(FetcherStep(s)) && Contents(FetcherStep(s), eval)
  {
    CallChildTokens(s, eval);
    CallChildJobs(s, eval);
    CallChildSlots(s, eval);
    assert ReturnedOK(FetcherStep(s), eval);
    hide Tokens, JobsOK, FetcherOK, SlotsOK;
  }

  lemma {:induction false} StartsWork<A(!new), B(!new)>(s: State<A, B>, o: nat)
    requires Sending(s.fetcher) && s.fetcher.out == o
    ensures InWork(s, o)
  {
  }

  lemma {:induction false} SendOutputTokens<A(!new), B(!new)>(s: State<A, B>, eval: A -> B)
    requires Tokens(s) && Contents(s, eval) && s.fetcher.SendOutput? && FetcherReady(s)
    ensures Tokens(FetcherStep(s))
  {
    hide SlotsOK, ReturnedOK;
    var s' := FetcherStep(s);
    assert Posted(s') == Posted(s);
    forall w | 0 <= w < |s.workers|
      ensures InputPlaced(s', w) && OutputPlaced(s', w) && WorkerOK(s', w)
    {
      assert InputPlaced(s, w) && OutputPlaced(s, w) && WorkerOK(s, w) && JobOK(s, w);
    }
  }

  lemma {:induction false} SendOutputJobs<A(!new), B(!new)>(s: State<A, B>, eval: A -> B)
    requires Tokens(s) && Contents(s, eval) && s.fetcher.SendOutput? && FetcherReady(s) && Tokens(FetcherStep(s))
    ensures JobsOK(FetcherStep(s)) && FetcherOK(FetcherStep(s))
  {
    hide SlotsOK, ReturnedOK;
    var s' := FetcherStep(s);
    assert Posted(s') == Posted(s);
    var i, o := s.fetcher.inp, s.fetcher.out;
    assert WorkerOK(s, i) && JobOK(s, i) && Job(s'.workers[i]) == Some(o);
    forall w | 0 <= w < |s.workers|
      ensures JobOK(s', w)
    {
      assert JobOK(s, w);
    }
  }

  lemma {:induction false} SendOutputSlots<A(!new), B(!new)>(s: State<A, B>, eval: A -> B)
    requires Tokens(s) && Contents(s, eval) && s.fetcher.SendOutput? && FetcherReady(s) && Tokens(FetcherStep(s))
    ensures SlotsOK(FetcherStep(s), eval)
  {
    hide InWork;
    var s' := FetcherStep(s);
    assert Posted(s') == Posted(s);
    forall t | Taken(s') <= t < Taken(s') + |Posted(s')|
      ensures SlotOK(s', t, eval)
    {
      assert SlotOK(s, t, eval);
      if InWork(s, Slot(s, t)) {
        WorkHandedOver(s, Slot(s, t));
      }
    }
  }

  /** The fetcher hands the output to the same worker. */
  lemma {:induction false} SendOutputKeeps<A(!new), B(!new)>(s: State<A, B>, eval: A -> B)
    requires Tokens(s) && Contents(s, eval) && s.fetcher.SendOutput? && FetcherReady(s)
    ensures Tokens(FetcherStep(s)) && Contents(FetcherStep(s), eval)
  {
    SendOutputTokens(s, eval);
    SendOutputJobs(s, eval);
    SendOutputSlots(s, eval);
    assert ReturnedOK(FetcherStep(s), eval);
    hide Tokens, JobsOK, FetcherOK, SlotsOK;
  }

  lemma {:induction false} WorkHandedOver<A(!new), B(!new)>(s: State<A, B>, o: nat)
    requires Tokens(s) && s.fetcher.SendOutput? && FetcherReady(s) && InWork(s, o)
    ensures InWork(FetcherStep(s), o)
  {
    var s' := FetcherStep(s);
    assert WorkerOK(s, s.fetcher.inp);
    if s.fetcher.out == o {
      assert Job(s'.workers[s.fetcher.inp]) == Some(o);
    } else {
      var w :| 0 <= w < |s.workers| && Job(s.workers[w]) == Some(o);
      assert Job(s'.workers[w]) == Some(o);
    }
  }

  lemma {:induction false} SignalEndTokens<A(!new), B(!new)>(s: State<A, B>, eval: A -> B)
    requires Tokens(s) && Contents(s, eval) && s.fetcher.SignalEnd? && FetcherReady(s)
    ensures Tokens(FetcherStep(s))
  {
    hide SlotsOK, ReturnedOK;
    var s' := FetcherStep(s);
    assert Posted(s') == Posted(s);
    forall w | 0 <= w < |s.workers|
      ensures InputPlaced(s', w) && OutputPlaced(s', w) && WorkerOK(s', w)
    {
      assert InputPlaced(s, w) && OutputPlaced(s, w) && WorkerOK(s, w) && JobOK(s, w);
    }
  }

  lemma {:induction false} SignalEndJobs<A(!new), B(!new)>(s: State<A, B>, eval: A -> B)
    requires Tokens(s) && Contents(s, eval) && s.fetcher.SignalEnd? && FetcherReady(s) && Tokens(FetcherStep(s))
    ensures JobsOK(FetcherStep(s)) && FetcherOK(FetcherStep(s))
  {
    hide SlotsOK, ReturnedOK;
    var s' := FetcherStep(s);
    assert Posted(s') == Posted(s);
    forall w | 0 <= w < |s.workers|
      ensures JobOK(s', w)
    {
      assert JobOK(s, w);
      assert Job(s.workers[w]).Some? ==> Slot(s, s.workers[w].round) != s.fetcher.out;
    }
  }

  lemma {:induction false} SignalEndSlots<A(!new), B(!new)>(s: State<A, B>, eval: A -> B)
    requires Tokens(s) && Contents(s, eval) && s.fetcher.SignalEnd? && FetcherReady(s) && Tokens(FetcherStep(s))
    ensures SlotsOK(FetcherStep(s), eval)
  {
    hide InWork;
    var s' := FetcherStep(s);
    assert Posted(s') == Posted(s);
    forall t | Taken(s') <= t < Taken(s') + |Posted(s')|
      ensures SlotOK(s', t, eval)
    {
      assert SlotOK(s, t, eval);
      assert t < s.fetched ==> Slot(s, t) != s.fetcher.out;
      WorkKept(s, s', Slot(s, t));
    }
  }

  /** The fetcher marks the last output done and exits. */
  lemma {:induction false} SignalEndKeeps<A(!new), B(!new)>(s: State<A, B>, eval: A -> B)
    requires Tokens(s) && Contents(s, eval) && s.fetcher.SignalEnd? && FetcherReady(s)
    ensures Tokens(FetcherStep(s)) && Contents(FetcherStep(s), eval)
  {
    SignalEndTokens(s, eval);
    SignalEndJobs(s, eval);
    SignalEndSlots(s, eval);
    assert ReturnedOK(FetcherStep(s), eval);
    hide Tokens, JobsOK, FetcherOK, SlotsOK;
  }

  lemma {:induction false} ComputeTokens<A(!new), B(!new)>(s: State<A, B>, w0: nat, eval: A -> B)
    requires Tokens(s) && Contents(s, eval) && w0 < |s.workers| && s.workers[w0].phase.HasBoth? && WorkerReady(s, w0)
    ensures Tokens(WorkerStep(s, w0, eval))
  {
    hide SlotsOK, ReturnedOK;
    var s' := WorkerStep(s, w0, eval);
    assert Posted(s') == Posted(s);
    assert JobOK(s, w0);
    var o := s.workers[w0].phase.out;
    assert Posted(s)[s.workers[w0].round - Taken(s)] == o;
    forall w | 0 <= w < |s.workers|
      ensures InputPlaced(s', w) && OutputPlaced(s', w) && WorkerOK(s', w)
    {
      assert InputPlaced(s, w) && OutputPlaced(s, w) && WorkerOK(s, w) && JobOK(s, w);
    }
  }

  lemma {:induction false} JobsApart<A(!new), B(!new)>(s: State<A, B>, v: nat, w: nat)
    requires Sizes(s) && JobsOK(s) && v < |s.workers| && w < |s.workers| && v != w
    requires Job(s.workers[v]).Some? && Job(s.workers[w]).Some?
    ensures s.workers[v].round != s.workers[w].round
  {
  }

  lemma {:induction false} SlotsApart<A(!new), B(!new)>(s: State<A, B>, t: nat, u: nat)
    requires Distinct(Posted(s)) && Outstanding(s, t) && Outstanding(s, u) && t != u
    ensures Slot(s, t) != Slot(s, u)
  {
  }

  lemma {:induction false} ComputeJobs<A(!new), B(!new)>(s: State<A, B>, w0: nat, eval: A -> B)
    requires Tokens(s) && Contents(s, eval) && w0 < |s.workers| && s.workers[w0].phase.HasBoth? && WorkerReady(s, w0) && Tokens(WorkerStep(s, w0, eval))
    ensures JobsOK(WorkerStep(s, w0, eval)) && FetcherOK(WorkerStep(s, w0, eval))
  {
    hide SlotsOK, ReturnedOK, InputPlaced, OutputPlaced, Below;
    var s' := WorkerStep(s, w0, eval);
    assert Posted(s') == Posted(s);
    assert JobOK(s, w0) && WorkerOK(s, w0);
    var o, r := s.workers[w0].phase.out, s.workers[w0].round;
    assert Slot(s, r) == o;
    forall w | 0 <= w < |s.workers|
      ensures JobOK(s', w)
    {
      assert JobOK(s, w);
      if w != w0 && Job(s.workers[w]).Some? {
        JobsApart(s, w, w0);
        SlotsApart(s, s.workers[w].round, r);
      }
    }
  }

  lemma {:induction false} ComputeSlots<A(!new), B(!new)>(s: State<A, B>, w0: nat, eval: A -> B)
    requires Tokens(s) && Contents(s, eval) && w0 < |s.workers| && s.workers[w0].phase.HasBoth? && WorkerReady(s, w0) && Tokens(WorkerStep(s, w0, eval))
    ensures SlotsOK(WorkerStep(s, w0, eval), eval)
  {
    hide InWork;
    var s' := WorkerStep(s, w0, eval);
    assert Posted(s') == Posted(s);
    assert JobOK(s, w0);
    var o, r := s.workers[w0].phase.out, s.workers[w0].round;
    assert Slot(s, r) == o;
    forall t | Taken(s') <= t < Taken(s') + |Posted(s')|
      ensures SlotOK(s', t, eval)
    {
      assert SlotOK(s, t, eval);
      if t != r {
        assert Slot(s, t) != o;
        WorkOfOthers(s, s', w0, Slot(s, t));
      }
    }
  }

  /** A worker computes the result of its round and marks it done. */
  lemma {:induction false} ComputeKeeps<A(!new), B(!new)>(s: State<A, B>, w0: nat, eval: A -> B)
    requires Tokens(s) && Contents(s, eval) && w0 < |s.workers| && s.workers[w0].phase.HasBoth? && WorkerReady(s, w0)
    ensures Tokens(WorkerStep(s, w0, eval)) && Contents(WorkerStep(s, w0, eval), eval)
  {
    ComputeTokens(s, w0, eval);
    ComputeJobs(s, w0, eval);
    ComputeSlots(s, w0, eval);
    assert ReturnedOK(WorkerStep(s, w0, eval), eval);
    hide Tokens, JobsOK, FetcherOK, SlotsOK;
  }

  lemma {:induction false} WorkOfOthers<A(!new), B(!new)>(s: State<A, B>, s': State<A, B>, w0: nat, o: nat)
    requires w0 < |s.workers| == |s'.workers| && s'.fetcher == s.fetcher && Job(s.workers[w0]) != Some(o)
    requires forall w :: 0 <= w < |s.workers| && w != w0 ==> s'.workers[w] == s.workers[w]
    ensures InWork(s, o) ==> InWork(s', o)
  {
    if w :| 0 <= w < |s.workers| && Job(s.workers[w]) == Some(o) {
      assert Job(s'.workers[w]) == Some(o);
    }
  }

  /** Taking a chunk ends the oldest round; the others keep their slots. */
  lemma {:induction false} TakeChunkShifts<A(!new), B(!new)>(s: State<A, B>, eval: A -> B)
    requires Tokens(s) && s.caller.WaitDone? && CallerReady(s)
    ensures var s' := CallerStep(s);
            && Posted(s) != [] && Posted(s)[0] == s.caller.out && Posted(s') == Posted(s)[1..]
            && Taken(s') == Taken(s) + 1 == |s.returned| + 1
            && Distinct(Posted(s'))
            && forall x :: x in Posted(s) <==> x == s.caller.out || x in Posted(s')
  {
    assert Posted(CallerStep(s)) == Posted(s)[1..];
    PopFront(Posted(s));
  }

  lemma {:induction false} TakeChunkPlaced<A(!new), B(!new)>(s: State<A, B>, w: nat)
    requires Sizes(s) && s.caller.WaitDone? && CallerReady(s) && w < |s.workers|
    requires InputPlaced(s, w) && OutputPlaced(s, w) && WorkerOK(s, w) && Distinct(Posted(s))
    requires Posted(s) != [] && Posted(s)[0] == s.caller.out && Posted(CallerStep(s)) == Posted(s)[1..]
    ensures var s' := CallerStep(s);
            |s'.workers| == |s'.outputs| == |s'.done| == |s.workers| && InputPlaced(s', w) && OutputPlaced(s', w) && WorkerOK(s', w)
  {
    hide Posted;
    assert w in Posted(s)[1..] <==> w in Posted(s) && w != s.caller.out;
  }

  lemma {:induction false} TakeChunkTokens<A(!new), B(!new)>(s: State<A, B>, eval: A -> B)
    requires Tokens(s) && Contents(s, eval) && s.caller.WaitDone? && CallerReady(s)
    ensures Tokens(CallerStep(s))
  {
    TakeChunkShifts(s, eval);
    hide SlotsOK, ReturnedOK, JobsOK, FetcherOK, Posted, Taken, InputPlaced, OutputPlaced, WorkerOK;
    var s' := CallerStep(s);
    forall w | 0 <= w < |s.workers|
      ensures InputPlaced(s', w) && OutputPlaced(s', w) && WorkerOK(s', w)
    {
      TakeChunkPlaced(s, w);
    }
  }

  /** What a step of the caller that takes a chunk changes, slot by slot. */
  predicate Shifted<A(==), B(==)>(s: State<A, B>, s': State<A, B>, o: nat) {
    && o < |s.done| && o < |s.outputs|
    && s' == s.(caller := s'.caller, done := s.done[o := false], returned := s'.returned, outputs := s.outputs[o := None])
    && Posted(s) != [] && Posted(s)[0] == o && Posted(s') == Posted(s)[1..] && Taken(s') == Taken(s) + 1
  }

  lemma {:induction false} IsShifted<A(!new), B(!new)>(s: State<A, B>, eval: A -> B)
    requires Tokens(s) && s.caller.WaitDone? && CallerReady(s)
    ensures Shifted(s, CallerStep(s), s.caller.out)
  {
    TakeChunkShifts(s, eval);
    hide Tokens, Posted, Taken;
  }

  lemma {:induction false} ShiftedJob<A(!new), B(!new)>(s: State<A, B>, s': State<A, B>, o: nat, w: nat)
    requires Sizes(s) && Sizes(s') && Shifted(s, s', o) && w < |s.workers| && JobOK(s, w)
    requires Job(s.workers[w]).Some? ==> s.workers[w].round != Taken(s)
    ensures JobOK(s', w)
  {
    hide Posted, Taken;
  }

  lemma {:induction false} ShiftedFetcher<A(!new), B(!new)>(s: State<A, B>, s': State<A, B>, o: nat)
    requires Sizes(s) && Sizes(s') && Shifted(s, s', o) && FetcherOK(s) && s.done[o]
    ensures FetcherOK(s')
  {
    hide Posted, Taken;
  }

  lemma {:induction false} ShiftedSlot<A(!new), B(!new)>(s: State<A, B>, s': State<A, B>, o: nat, t: nat, eval: A -> B)
    requires Sizes(s) && Sizes(s') && Shifted(s, s', o) && Distinct(Posted(s)) && s.fetched <= |s.child|
    requires Outstanding(s', t) && Outstanding(s, t) && Slot(s, t) < |s.workers| && SlotOK(s, t, eval)
    ensures Slot(s', t) == Slot(s, t) && SlotOK(s', t, eval)
  {
    hide Posted, Taken, InWork, Distinct, SlotOK, Shifted;
    ShiftedPlace(s, s', o, t);
    ShiftedFields(s, s', o, Slot(s, t));
    SlotCarries(s, s', t, eval);
  }

  lemma {:induction false} ShiftedFields<A(!new), B(!new)>(s: State<A, B>, s': State<A, B>, o: nat, x: nat)
    requires Sizes(s) && Shifted(s, s', o) && x < |s.workers| && x != o
    ensures s'.fetched == s.fetched && s'.child == s.child && s'.fetcher == s.fetcher && s'.workers == s.workers
    ensures |s'.done| == |s.done| && |s'.outputs| == |s.outputs| && s'.done[x] == s.done[x] && s'.outputs[x] == s.outputs[x]
  {
    hide Posted, Taken;
  }

  /** A slot stays as it is if neither its token nor the work on it changes. */
  lemma {:induction false} SlotCarries<A(!new), B(!new)>(s: State<A, B>, s': State<A, B>, t: nat, eval: A -> B)
    requires Sizes(s) && Sizes(s') && Outstanding(s, t) && Outstanding(s', t) && Slot(s', t) == Slot(s, t) < |s.workers|
    requires s'.fetched == s.fetched <= |s.child| && s'.child == s.child && s'.fetcher == s.fetcher && s'.workers == s.workers
    requires s'.done[Slot(s, t)] == s.done[Slot(s, t)] && s'.outputs[Slot(s, t)] == s.outputs[Slot(s, t)]
    requires SlotOK(s, t, eval)
    ensures SlotOK(s', t, eval)
  {
    hide Posted, Taken, InWork;
    WorkKept(s, s', Slot(s, t));
  }

  lemma {:induction false} ShiftedPlace<A(!new), B(!new)>(s: State<A, B>, s': State<A, B>, o: nat, t: nat)
    requires Shifted(s, s', o) && Distinct(Posted(s)) && Outstanding(s', t) && Outstanding(s, t)
    ensures Slot(s', t) == Slot(s, t) != o
  {
    hide Posted, Taken;
    SlotsApart(s, t, Taken(s));
  }

  lemma {:induction false} TakeChunkJobs<A(!new), B(!new)>(s: State<A, B>, eval: A -> B)
    requires Tokens(s) && Contents(s, eval) && s.caller.WaitDone? && CallerReady(s) && Tokens(CallerStep(s))
    ensures JobsOK(CallerStep(s)) && FetcherOK(CallerStep(s))
  {
    IsShifted(s, eval);
    NotWorkedOn(s, eval);
    SizesOf(s);
    SizesOf(CallerStep(s));
    var s', o := CallerStep(s), s.caller.out;
    ShiftedFetcher(s, s', o);
    hide Tokens, SlotsOK, ReturnedOK, Posted, Taken, FetcherOK, JobOK, Shifted;
    forall w | 0 <= w < |s.workers|
      ensures JobOK(s', w)
    {
      assert JobOK(s, w);
      ShiftedJob(s, s', o, w);
    }
  }

  lemma {:induction false} TakeChunkSlots<A(!new), B(!new)>(s: State<A, B>, eval: A -> B)
    requires Tokens(s) && Contents(s, eval) && s.caller.WaitDone? && CallerReady(s) && Tokens(CallerStep(s))
    ensures SlotsOK(CallerStep(s), eval)
  {
    TakeChunkShifts(s, eval);
    IsShifted(s, eval);
    SizesOf(s);
    SizesOf(CallerStep(s));
    hide Tokens, JobsOK, ReturnedOK, Posted, Taken, FetcherOK, SlotOK, Shifted, Distinct;
    var s', o := CallerStep(s), s.caller.out;
    forall t | Taken(s') <= t < Taken(s') + |Posted(s')|
      ensures SlotOK(s', t, eval)
    {
      assert SlotOK(s, t, eval);
      ShiftedSlot(s, s', o, t, eval);
    }
  }

  lemma {:induction false} TakeChunkReturns<A(!new), B(!new)>(s: State<A, B>, eval: A -> B)
    requires Tokens(s) && Contents(s, eval) && s.caller.WaitDone? && CallerReady(s)
    ensures ReturnedOK(CallerStep(s), eval)
  {
    TakeChunkShifts(s, eval);
    hide InWork, JobsOK, FetcherOK, Posted, Taken;
    assert SlotOK(s, Taken(s), eval);
  }

  /** The caller takes the chunk of a finished round. */
  lemma {:induction false} TakeChunkKeeps<A(!new), B(!new)>(s: State<A, B>, eval: A -> B)
    requires Tokens(s) && Contents(s, eval) && s.caller.WaitDone? && CallerReady(s)
    ensures Tokens(CallerStep(s)) && Contents(CallerStep(s), eval)
  {
    TakeChunkTokens(s, eval);
    TakeChunkJobs(s, eval);
    TakeChunkSlots(s, eval);
    TakeChunkReturns(s, eval);
    hide Tokens, JobsOK, FetcherOK, SlotsOK, ReturnedOK;
  }

  /** Nobody is working on the round the caller takes. */
  predicate JobsBehind<A, B>(s: State<A, B>) {
    forall w :: 0 <= w < |s.workers| && Job(s.workers[w]).Some? ==> s.workers[w].round != Taken(s)
  }

  lemma {:induction false} NotWorkedOn<A(!new), B(!new)>(s: State<A, B>, eval: A -> B)
    requires Tokens(s) && Contents(s, eval) && s.caller.WaitDone? && CallerReady(s)
    ensures JobsBehind(s)
  {
    hide SlotsOK, ReturnedOK, FetcherOK;
    assert Posted(s)[0] == s.caller.out;
    forall w | 0 <= w < |s.workers| && Job(s.workers[w]).Some?
      ensures s.workers[w].round != Taken(s)
    {
      assert JobOK(s, w);
    }
  }

  // ------------------------------------------------------------------ runs

  lemma {:induction false} FetcherKeepsInv<A(!new), B(!new)>(s: State<A, B>, eval: A -> B)
    requires Inv(s, eval) && FetcherReady(s)
    ensures Inv(FetcherStep(s), eval)
  {
    hide Inv, Tokens, Contents, FetcherReady, FetcherStep;
    InvIs(s, eval);
    InvIs(FetcherStep(s), eval);
    match s.fetcher {
      case ReadInput => ReadInputKeeps(s, eval);
      case ReadOutput(_) => ReadOutputKeeps(s, eval);
      case SendGlobal(_, _) => SendGlobalKeeps(s, eval);
      case CallChild(_, _) => CallChildKeeps(s, eval);
      case SendInput(_, _) => SendInputKeeps(s, eval);
      case SendOutput(_, _) => SendOutputKeeps(s, eval);
      case SignalEnd(_, _) => SignalEndKeeps(s, eval);
      case Exited(_) => ExitedIsLast(s);
    }
  }

  lemma {:induction false} ExitedIsLast<A, B>(s: State<A, B>)
    requires s.fetcher.Exited?
    ensures !FetcherReady(s)
  {
  }

  lemma {:induction false} WorkerKeepsInv<A(!new), B(!new)>(s: State<A, B>, w: nat, eval: A -> B)
    requires Inv(s, eval) && w < |s.workers| && WorkerReady(s, w)
    ensures Inv(WorkerStep(s, w, eval), eval)
  {
    hide Inv, Tokens, Contents, WorkerReady, WorkerStep;
    InvIs(s, eval);
    InvIs(WorkerStep(s, w, eval), eval);
    match s.workers[w].phase {
      case Idle => TakeInputKeeps(s, w, eval);
      case HasInput => TakeOutputKeeps(s, w, eval);
      case HasBoth(_) => ComputeKeeps(s, w, eval);
      case GiveBack => GiveBackKeeps(s, w, eval);
    }
  }

  lemma {:induction false} CallerKeepsInv<A(!new), B(!new)>(s: State<A, B>, eval: A -> B)
    requires Inv(s, eval) && CallerReady(s)
    ensures Inv(CallerStep(s), eval)
  {
    hide Inv, Tokens, Contents, CallerReady, CallerStep;
    InvIs(s, eval);
    InvIs(CallerStep(s), eval);
    match s.caller {
      case Away => CallNextKeeps(s, eval);
      case WaitOutput => ReceiveKeeps(s, eval);
      case WaitDone(_) => TakeChunkKeeps(s, eval);
      case ReturnOutput(_) => ReturnTokenKeeps(s, eval);
    }
  }

  lemma {:induction false} RunKeepsInv<A(!new), B(!new)>(run: seq<State<A, B>>, n: nat, eval: A -> B, i: nat)
    requires Run(run, n, eval) && i < |run|
    ensures Inv(run[i], eval) && run[i].child == run[0].child
    decreases i
  {
    hide Inv, Init, FetcherReady, WorkerReady, CallerReady;
    if i == 0 {
      InitInv(run[0], n, eval);
    } else {
      RunKeepsInv(run, n, eval, i - 1);
      assert Next(run[i - 1], run[i], eval);
      var s := run[i - 1];
      if FetcherReady(s) && run[i] == FetcherStep(s) {
        FetcherKeepsInv(s, eval);
      } else if CallerReady(s) && run[i] == CallerStep(s) {
        CallerKeepsInv(s, eval);
      } else {
        var w :| 0 <= w < |s.workers| && WorkerReady(s, w) && run[i] == WorkerStep(s, w, eval);
        WorkerKeepsInv(s, w, eval);
      }
    }
  }

  /** Order: whatever the interleaving, the k-th call of Next returns the k-th chunk of the child mapped through
      the evaluator, and every call after the last chunk returns an empty one. */
  lemma {:induction false} ChunksInOrder<A(!new), B(!new)>(run: seq<State<A, B>>, n: nat, eval: A -> B, i: nat, k: nat)
    requires Run(run, n, eval) && i < |run| && k < |run[i].returned|
    ensures run[i].returned[k] == Expected(run[0].child, eval, k)
  {
    RunKeepsInv(run, n, eval, i);
  }

  /** No send ever blocks, in any process, in any reachable state. */
  lemma {:induction false} SendsNeverBlock<A(!new), B(!new)>(run: seq<State<A, B>>, n: nat, eval: A -> B, i: nat)
    requires Run(run, n, eval) && i < |run|
    ensures run[i].fetcher.SendGlobal? || run[i].fetcher.SendInput? || run[i].fetcher.SendOutput? || run[i].fetcher.SignalEnd? ==>
              FetcherReady(run[i])
    ensures forall w :: 0 <= w < |run[i].workers| && (run[i].workers[w].phase.HasBoth? || run[i].workers[w].phase.GiveBack?) ==>
              WorkerReady(run[i], w)
    ensures run[i].caller.ReturnOutput? ==> CallerReady(run[i])
  {
    hide Inv, FetcherReady, WorkerReady, CallerReady;
    RunKeepsInv(run, n, eval, i);
    var s := run[i];
    FetcherSends(s, eval);
    if s.caller.ReturnOutput? {
      CallerSends(s, eval);
    }
    forall w | 0 <= w < |s.workers| && (s.workers[w].phase.HasBoth? || s.workers[w].phase.GiveBack?)
      ensures WorkerReady(s, w)
    {
      WorkerSends(s, w, eval);
    }
  }

  /** The pipeline never deadlocks: in every reachable state some process can move. */
  lemma {:induction false} NeverDeadlocks<A(!new), B(!new)>(run: seq<State<A, B>>, n: nat, eval: A -> B, i: nat)
    requires Run(run, n, eval) && i < |run|
    ensures SomebodyMoves(run[i])
  {
    hide Inv;
    RunKeepsInv(run, n, eval, i);
    NeverStuck(run[i], eval);
  }

  // ------------------------------------------------------------------ Next always returns

  /** How many steps a worker has left before it is idle again. */
  function WorkerWeight(w: Worker): nat {
    match w.phase
    case Idle => if w.inputCh then 4 else 0
    case HasInput => 3
    case HasBoth(_) => 2
    case GiveBack => 1
  }

  function Weights(ws: seq<Worker>): nat {
    if ws == [] then 0 else Weights(ws[..|ws| - 1]) + WorkerWeight(ws[|ws| - 1])
  }

  lemma {:induction false} WeightsUpdate(ws: seq<Worker>, i: nat, w: Worker)
    requires i < |ws|
    ensures Weights(ws[i := w]) + WorkerWeight(ws[i]) == Weights(ws) + WorkerWeight(w)
    decreases |ws|
  {
    var last := |ws| - 1;
    if i == last {
      assert ws[i := w][..last] == ws[..last];
    } else {
      WeightsUpdate(ws[..last], i, w);
      assert ws[i := w][..last] == ws[..last][i := w];
    }
  }

  /** A bound on the steps that fetcher and workers can still take. */
  function Work<A, B>(s: State<A, B>): int {
    var rounds := |s.child| - s.fetched + 1;
    Weights(s.workers) +
    match s.fetcher
    case ReadInput => 11 * rounds
    case ReadOutput(_) => 11 * rounds - 1
    case SendGlobal(_, _) => 11 * rounds - 2
    case CallChild(_, _) => 11 * rounds - 3
    case SendInput(_, _) => 11 * rounds + 7
    case SendOutput(_, _) => 11 * rounds + 2
    case SignalEnd(_, _) => 11 * rounds - 4
    case Exited(_) => 0
  }

  lemma {:induction false} FetcherUsesWork<A(!new), B(!new)>(s: State<A, B>, eval: A -> B)
    requires Inv(s, eval) && FetcherReady(s)
    ensures 0 <= Work(FetcherStep(s)) < Work(s)
  {
    hide SlotsOK, JobsOK, ReturnedOK, OutputsOK;
    if s.fetcher.CallChild? {
      assert InputPlaced(s, s.fetcher.inp);
    } else if s.fetcher.SendInput? || s.fetcher.SendOutput? {
      var i := s.fetcher.inp;
      assert InputPlaced(s, i) && WorkerOK(s, i);
      WeightsUpdate(s.workers, i, FetcherStep(s).workers[i]);
    }
  }

  lemma {:induction false} WorkerUsesWork<A(!new), B(!new)>(s: State<A, B>, w: nat, eval: A -> B)
    requires Inv(s, eval) && w < |s.workers| && WorkerReady(s, w)
    ensures 0 <= Work(WorkerStep(s, w, eval)) < Work(s)
  {
    hide SlotsOK, JobsOK, ReturnedOK, OutputsOK, InputsOK, FetcherOK;
    assert WorkerOK(s, w);
    WeightsUpdate(s.workers, w, WorkerStep(s, w, eval).workers[w]);
  }

  /** Next always returns: whatever the interleaving, every step of the fetcher or a worker uses up some of a
      bounded amount of work that no step of the caller adds to, and while the caller waits somebody can step. */
  lemma {:induction false} WaitingEnds<A(!new), B(!new)>(run: seq<State<A, B>>, n: nat, eval: A -> B, i: nat)
    requires Run(run, n, eval) && 0 < i < |run|
    ensures 0 <= Work(run[i]) <= Work(run[i - 1])
    ensures Work(run[i]) == Work(run[i - 1]) ==> CallerReady(run[i - 1]) && run[i] == CallerStep(run[i - 1])
    ensures !CallerReady(run[i - 1]) ==> OthersMove(run[i - 1])
  {
    hide Inv, FetcherReady, WorkerReady, CallerReady, Work, OthersMove;
    var s := run[i - 1];
    RunKeepsInv(run, n, eval, i - 1);
    NeverStuck(s, eval);
    assert Next(s, run[i], eval);
    if FetcherReady(s) && run[i] == FetcherStep(s) {
      FetcherUsesWork(s, eval);
    } else if CallerReady(s) && run[i] == CallerStep(s) {
      CallerUsesNoWork(s, eval);
    } else {
      var w :| 0 <= w < |s.workers| && WorkerReady(s, w) && run[i] == WorkerStep(s, w, eval);
      WorkerUsesWork(s, w, eval);
    }
  }

  /** The steps a call of Next has left before it returns. */
  function Left(c: Caller): nat {
    match c
    case Away => 0
    case WaitOutput => 3
    case WaitDone(_) => 2
    case ReturnOutput(_) => 1
  }

  /** Between a call of Next and its return all processes together take at most as many steps as there was work
      when it was called and three of its own. */
  lemma {:induction false} CallEnds<A(!new), B(!new)>(run: seq<State<A, B>>, n: nat, eval: A -> B, i: nat, j: nat)
    requires Run(run, n, eval) && i <= j < |run| && forall k :: i <= k < j ==> !run[k].caller.Away?
    ensures j - i <= Work(run[i]) + Left(run[i].caller) - Work(run[j]) - Left(run[j].caller)
    ensures 0 <= Work(run[j]) && j - i <= Work(run[i]) + Left(run[i].caller)
    ensures !run[j].caller.Away? ==> SomebodyMoves(run[j])
    decreases j - i
  {
    hide Inv, FetcherReady, WorkerReady, CallerReady, Work, OthersMove, Next, CallerStep, FetcherStep, WorkerStep;
    if i == j {
      RunKeepsInv(run, n, eval, i);
      WorkRemains(run[i], eval);
      NeverStuck(run[i], eval);
    } else {
      CallEnds(run, n, eval, i + 1, j);
      WaitingEnds(run, n, eval, i + 1);
      OwnStep(run, n, eval, i);
    }
  }

  lemma {:induction false} WorkRemains<A(!new), B(!new)>(s: State<A, B>, eval: A -> B)
    requires Inv(s, eval)
    ensures 0 <= Work(s)
  {
    hide SlotsOK, JobsOK, ReturnedOK, OutputsOK, InputsOK;
  }

  /** A step of the caller gets it closer to its return; the others leave it where it is. */
  lemma {:induction false} OwnStep<A(!new), B(!new)>(run: seq<State<A, B>>, n: nat, eval: A -> B, i: nat)
    requires Run(run, n, eval) && i + 1 < |run| && !run[i].caller.Away?
    ensures Left(run[i + 1].caller) <= Left(run[i].caller)
    ensures CallerReady(run[i]) && run[i + 1] == CallerStep(run[i]) ==> Left(run[i + 1].caller) < Left(run[i].caller)
  {
    hide Init;
    assert Next(run[i + 1 - 1], run[i + 1], eval);
  }

  lemma {:induction false} CallerUsesNoWork<A(!new), B(!new)>(s: State<A, B>, eval: A -> B)
    requires Inv(s, eval) && CallerReady(s)
    ensures 0 <= Work(CallerStep(s)) == Work(s)
  {
    hide SlotsOK, JobsOK, ReturnedOK, OutputsOK, InputsOK, FetcherOK;
  }
}
