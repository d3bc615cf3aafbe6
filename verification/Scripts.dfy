/**
 Runs written out: what a worker gets done when its socket behaves, and how a server with one
 client gets a request to it. They show that the states other modules speak of are reached.
 */
module Scripts {
  import opened Packets
  import opened Responses
  import opened Connection
  import opened Server
  import opened Runs

  lemma {:induction false} Joined(s: Server, a: seq<Step>, b: seq<Step>)
    requires Legal(s, a) && Legal(After(s, a), b)
    ensures Legal(s, a + b) && After(s, a + b) == After(After(s, a), b)
    decreases a
  {
    if a == [] {
      assert a + b == b;
    } else {
      assert (a + b)[1..] == a[1..] + b;
      Joined(Next(s, a[0]), a[1..], b);
    }
  }

  // ---------- a worker whose socket behaves ----------

  /** The write or read succeeds, and the response asked for is delivered. */
  function Good(k: Client): Io
    requires Bounded(k)
  {
    Io(true, [Delivered(if k.pc.Validating? then ResponseType(k.txs[k.pc.tx].request) else 0, [])])
  }

  /** Nothing stands in the worker's way. */
  ghost predicate Fit(k: Client) {
    ClientInv(k) && !k.stop && !Broken(k) && !k.lock.GameThread?
  }

  /** How far the worker is from an empty queue, in its own steps. */
  function Ahead(k: Client): nat {
    10 * |k.queue| + match k.pc
      case Popped(_) => 9
      case Writing(_) => 8
      case Reading(_) => 7
      case Validating(_) => 6
      case Releasing(_, _) => 5
      case SizeCheck(_) => 4
      case AtLoop => 3
      case Locking => 2
      case _ => 1
  }

  lemma FitMoves(k: Client)
    requires Fit(k)
    ensures Bounded(k) && Enabled(k) && !k.pc.Stopping? && !k.pc.Closing?
  {
    InvBounded(k);
  }

  lemma GoodAhead(k: Client)
    requires Bounded(k) && Enabled(k) && !k.stop && !k.pc.Stopping? && !k.pc.Closing? && (k.pc.Holding? ==> k.queue != [])
    requires PoppedScheduled(k) && (k.pc.SizeCheck? ==> k.txs[k.pc.tx].responseSize > 0)
    requires k.pc.Releasing? ==> !k.pc.next.ToStop?
    ensures Ahead(WorkerStep(k, Good(k))) < Ahead(k)
  {
  }

  predicate PoppedScheduled(k: Client)
    requires Bounded(k)
  {
    k.pc.Popped? ==> k.txs[k.pc.tx].state.SCHEDULED?
  }

  lemma FitFacts(k: Client)
    requires Fit(k) && Bounded(k)
    ensures PoppedScheduled(k) && (k.pc.SizeCheck? ==> k.txs[k.pc.tx].responseSize > 0)
    ensures k.pc.Busy() ==> !Fatal(k.txs[k.pc.tx])
    ensures k.pc.Releasing? ==> !k.pc.next.ToStop?
  {
    if k.pc.Touches() {
      assert k.pushed[k.popped - 1] == k.pc.tx;
    }
  }

  /** A good step keeps the worker fit. */
  lemma GoodStep(k: Client)
    requires Fit(k)
    ensures Bounded(k) && Enabled(k) && Fit(WorkerStep(k, Good(k)))
  {
    FitMoves(k);
    FitFacts(k);
    StepInv(k, Good(k));
    GoodFlags(k);
    GoodOutcome(k);
  }

  lemma GoodFlags(k: Client)
    requires Bounded(k) && Enabled(k) && !k.stop && !k.pc.Stopping? && !k.lock.GameThread?
    ensures !WorkerStep(k, Good(k)).stop && !WorkerStep(k, Good(k)).lock.GameThread?
  {
  }

  lemma GoodAccepted(kind: nat)
    ensures Accepts(kind, [Delivered(kind, [])])
  {
    assert [Delivered(kind, [])][0].kind == kind;
  }

  lemma GoodServed(k: Client)
    requires Bounded(k) && Enabled(k) && k.pc.Busy() && !Fatal(k.txs[k.pc.tx])
    ensures |WorkerStep(k, Good(k)).txs| == |k.txs| && !Fatal(WorkerStep(k, Good(k)).txs[k.pc.tx])
  {
    GoodAccepted(ResponseType(k.txs[k.pc.tx].request));
    if Serves(k) {
      ServingStep(k, Good(k));
    } else {
      QuietStep(k, Good(k));
    }
  }

  lemma GoodQuiet(k: Client)
    requires Bounded(k) && Enabled(k) && PoppedScheduled(k) && (!k.pc.Busy() || k.pc.Popped?)
    ensures var n := WorkerStep(k, Good(k)); n.pushed == k.pushed && n.txs == k.txs
  {
    QuietStep(k, Good(k));
    QuietFrame(k, Good(k));
  }

  lemma GoodCount(k: Client)
    requires Bounded(k) && Enabled(k) && PoppedScheduled(k) && (!k.pc.Busy() || k.pc.Popped?)
    ensures AttemptedCount(WorkerStep(k, Good(k))) == AttemptedCount(k)
  {
  }

  lemma GoodServing(k: Client)
    requires Bounded(k) && k.pc.Busy() && !k.pc.Popped?
    ensures var n := WorkerStep(k, Good(k)); n.pushed == k.pushed && n.popped == k.popped && !n.pc.Popped? && !n.pc.Writing?
  {
    ServingFrame(k, Good(k));
  }

  lemma ServedBroken(k: Client, n: Client)
    requires OrderInv(k) && OrderInv(n) && k.pc.Busy() && !n.pc.Popped? && !n.pc.Writing?
    requires n.pushed == k.pushed && n.popped == k.popped && |n.txs| == |k.txs| && !Fatal(n.txs[k.pc.tx])
    ensures !Broken(n)
  {
    assert k.pushed[k.popped - 1] == k.pc.tx;
  }

  lemma GoodOutcome(k: Client)
    requires OrderInv(k) && Bounded(k) && Enabled(k) && !Broken(k) && PoppedScheduled(k)
    requires OrderInv(WorkerStep(k, Good(k)))
    requires k.pc.Busy() ==> !Fatal(k.txs[k.pc.tx])
    ensures !Broken(WorkerStep(k, Good(k)))
  {
    if k.pc.Busy() && !k.pc.Popped? {
      GoodServing(k);
      GoodServed(k);
      ServedBroken(k, WorkerStep(k, Good(k)));
    } else {
      GoodQuiet(k);
      GoodCount(k);
    }
  }

  // ---------- the same on the server ----------

  /** Steps that are neither calls, nor connections, nor waits that expire. */
  predicate Inner(a: seq<Step>) {
    forall n :: 0 <= n < |a| ==> Patient(a[n]) && !a[n].GameCalls? && !a[n].AcceptorMoves?
  }

  /** Such steps lead from `s` to `n`. */
  ghost predicate Leads(s: Server, a: seq<Step>, n: Server) {
    Legal(s, a) && Inner(a) && After(s, a) == n
  }

  lemma Nothing(s: Server)
    ensures Leads(s, [], s)
  {
  }

  lemma First(s: Server, step: Step, b: seq<Step>, n: Server)
    requires Sound(s) && Possible(s, step) && Inner([step]) && Leads(Next(s, step), b, n)
    ensures Leads(s, [step] + b, n)
  {
    assert ([step] + b)[1..] == b;
    assert Patient([step][0]);
  }

  lemma Then(s: Server, a: seq<Step>, m: Server, b: seq<Step>, n: Server)
    requires Leads(s, a, m) && Leads(m, b, n)
    ensures Leads(s, a + b, n)
  {
    Joined(s, a, b);
  }

  /** One more step at the end. */
  lemma Play(s: Server, a: seq<Step>, m: Server, step: Step, n: Server)
    requires Leads(s, a, m) && Sound(m) && Possible(m, step) && Inner([step]) && Next(m, step) == n
    ensures Leads(s, a + [step], n)
  {
    Nothing(n);
    First(m, step, [], n);
    Then(s, a, m, [step], n);
  }

  /** One good step of the worker of client `id`. */
  function GoodMove(s: Server, id: nat): Step
    requires id in s.clients && Bounded(s.clients[id])
  {
    WorkerMoves(id, Good(s.clients[id]))
  }

  function Moved(s: Server, id: nat, k: Client): Server {
    s.(clients := s.clients[id := k])
  }

  lemma GoodPossible(s: Server, id: nat)
    requires Sound(s) && id in s.clients && Enabled(s.clients[id])
    ensures Possible(s, GoodMove(s, id)) && Inner([GoodMove(s, id)])
    ensures Next(s, GoodMove(s, id)) == Moved(s, id, WorkerStep(s.clients[id], Good(s.clients[id])))
  {
    assert Patient([GoodMove(s, id)][0]);
  }

  /** The server after one good step, and the facts a next one needs. */
  lemma GoodServer(s: Server, id: nat)
    requires Inv(s) && id in s.clients && Fit(s.clients[id])
    ensures Sound(s) && Possible(s, GoodMove(s, id)) && Inner([GoodMove(s, id)])
    ensures var n := WorkerStep(s.clients[id], Good(s.clients[id]));
      Next(s, GoodMove(s, id)) == Moved(s, id, n) && Inv(Moved(s, id, n)) && Fit(n)
  {
    InvSound(s);
    GoodStep(s.clients[id]);
    GoodPossible(s, id);
    NextInv(s, GoodMove(s, id));
  }

  /** A good step first, then what leads on from there. */
  lemma GoodFirst(s: Server, id: nat, b: seq<Step>, n: Client)
    requires Inv(s) && id in s.clients && Fit(s.clients[id])
    requires Bounded(s.clients[id]) && Enabled(s.clients[id])
    requires var k := WorkerStep(s.clients[id], Good(s.clients[id])); Leads(Moved(s, id, k), b, Moved(Moved(s, id, k), id, n))
    ensures Leads(s, [GoodMove(s, id)] + b, Moved(s, id, n))
  {
    GoodServer(s, id);
    var k := WorkerStep(s.clients[id], Good(s.clients[id]));
    MovedTwice(s, id, k, n);
    First(s, GoodMove(s, id), b, Moved(s, id, n));
  }

  lemma MovedTwice(s: Server, id: nat, k: Client, n: Client)
    ensures Moved(Moved(s, id, k), id, n) == Moved(s, id, n)
  {
  }

  lemma NotMoved(s: Server, id: nat)
    requires id in s.clients
    ensures Moved(s, id, s.clients[id]) == s
  {
  }

  // Where it leads: to the write of a transaction, ...

  /** Transaction `i` is queued, or popped and not yet written. */
  predicate Coming(k: Client, i: nat) {
    i in k.queue || ((k.pc.Popped? || k.pc.Writing?) && k.pc.tx == i)
  }

  /** As many transactions as before, and transaction `i` as the game thread knows it. */
  predicate SameTx(k: Client, n: Client, i: nat) {
    |n.txs| == |k.txs| && (i < |k.txs| ==> SameOutside(k.txs[i], n.txs[i]))
  }

  lemma ComingOn(k: Client, i: nat)
    requires Bounded(k) && Enabled(k) && Coming(k, i) && PoppedScheduled(k) && k.pc != Writing(i)
    ensures Coming(WorkerStep(k, Good(k)), i)
  {
    if k.pc.Holding? && k.queue != [] {
      assert k.queue == [k.queue[0]] + k.queue[1..];
    }
  }

  lemma ComingCloser(k: Client, i: nat)
    requires Fit(k) && Coming(k, i) && k.pc != Writing(i)
    ensures Bounded(k) && Enabled(k)
    ensures Ahead(WorkerStep(k, Good(k))) < Ahead(k) && Coming(WorkerStep(k, Good(k)), i)
    ensures SameTx(k, WorkerStep(k, Good(k)), i)
  {
    WorkerEvolves(k, Good(k));
    FitMoves(k);
    FitFacts(k);
    GoodAhead(k);
    ComingOn(k, i);
  }

  lemma SameTxTwice(k: Client, l: Client, n: Client, i: nat)
    requires SameTx(k, l, i) && SameTx(l, n, i)
    ensures SameTx(k, n, i)
  {
  }

  /** All that is queued for a fit worker can come to be written. */
  lemma {:induction false} CanWrite(s: Server, id: nat, i: nat) returns (a: seq<Step>, n: Client)
    requires Inv(s) && id in s.clients && Fit(s.clients[id]) && Coming(s.clients[id], i)
    ensures Leads(s, a, Moved(s, id, n)) && Inv(Moved(s, id, n)) && Fit(n) && n.pc == Writing(i)
    ensures SameTx(s.clients[id], n, i)
    decreases Ahead(s.clients[id])
  {
    if s.clients[id].pc == Writing(i) {
      a, n := [], s.clients[id];
      NotMoved(s, id);
      Nothing(s);
    } else {
      GoodServer(s, id);
      ComingCloser(s.clients[id], i);
      var k := WorkerStep(s.clients[id], Good(s.clients[id]));
      var b;
      b, n := CanWrite(Moved(s, id, k), id, i);
      SameTxTwice(s.clients[id], k, n, i);
      GoodFirst(s, id, b, n);
      MovedTwice(s, id, k, n);
      a := [GoodMove(s, id)] + b;
    }
  }

  lemma WriteAttempts(k: Client, io: Io)
    requires Bounded(k) && k.pc.Writing?
    ensures k.pc.tx in WorkerStep(k, io).attempted
  {
  }

  /** So it can come to be attempted. */
  lemma CanAttempt(s: Server, id: nat, i: nat) returns (a: seq<Step>)
    requires Inv(s) && id in s.clients && Fit(s.clients[id]) && Coming(s.clients[id], i)
    ensures Legal(s, a) && id in After(s, a).clients && i in After(s, a).clients[id].attempted
  {
    var b, n := CanWrite(s, id, i);
    var m := Moved(s, id, n);
    assert m.clients[id] == n;
    GoodServer(m, id);
    WriteAttempts(n, Good(n));
    a := b + [GoodMove(m, id)];
    Play(s, b, m, GoodMove(m, id), Next(m, GoodMove(m, id)));
  }

  // ... back to the queue, ...

  lemma GoodCloser(k: Client)
    requires Fit(k) && (k.pc.Holding? ==> k.queue != [])
    ensures Bounded(k) && Enabled(k) && Ahead(WorkerStep(k, Good(k))) < Ahead(k)
  {
    FitMoves(k);
    FitFacts(k);
    GoodAhead(k);
  }

  /** Only the game thread destroys a queue or evicts. */
  lemma WorkerTenure(k: Client, io: Io)
    requires Bounded(k) && Enabled(k)
    ensures WorkerStep(k, io).queueGone == k.queueGone && WorkerStep(k, io).evicted == k.evicted
  {
    if Serves(k) {
      ServingFrame(k, io);
    } else {
      QuietFrame(k, io);
    }
  }

  /** A fit worker can come to use its queue again. */
  lemma {:induction false} CanLock(s: Server, id: nat) returns (a: seq<Step>, n: Client)
    requires Inv(s) && id in s.clients && Fit(s.clients[id])
    ensures Leads(s, a, Moved(s, id, n)) && (n.pc.Locking? || n.pc.Holding?) && n.queueGone == s.clients[id].queueGone
    decreases Ahead(s.clients[id])
  {
    if s.clients[id].pc.Locking? || s.clients[id].pc.Holding? {
      a, n := [], s.clients[id];
      NotMoved(s, id);
      Nothing(s);
    } else {
      GoodServer(s, id);
      GoodCloser(s.clients[id]);
      WorkerTenure(s.clients[id], Good(s.clients[id]));
      var k := WorkerStep(s.clients[id], Good(s.clients[id]));
      var b;
      b, n := CanLock(Moved(s, id, k), id);
      GoodFirst(s, id, b, n);
      a := [GoodMove(s, id)] + b;
    }
  }

  // ... to the look at the response size after the release, ...

  predicate Serving(k: Client, i: nat) {
    i in k.queue || (k.pc.Busy() && k.pc.tx == i)
  }

  lemma ServingOn(k: Client, i: nat)
    requires Bounded(k) && Enabled(k) && Serving(k, i) && PoppedScheduled(k) && i < |k.txs|
    requires k.pc.Releasing? && k.pc.tx == i ==> k.pc.next.ToSizeCheck?
    requires k.pc.Writing? && k.pc.tx == i ==> k.txs[i].responseSize > 0
    ensures Serving(WorkerStep(k, Good(k)), i) || WorkerStep(k, Good(k)).pc == SizeCheck(i)
  {
    if k.pc.Holding? && k.queue != [] {
      assert k.queue == [k.queue[0]] + k.queue[1..];
    }
  }

  lemma ServingFacts(k: Client, i: nat)
    requires Fit(k) && Serving(k, i) && i < |k.txs| && ResponseSize(k.txs[i].request) > 0
    ensures k.pc.Releasing? && k.pc.tx == i ==> k.pc.next.ToSizeCheck?
    ensures k.pc.Writing? && k.pc.tx == i ==> k.txs[i].responseSize > 0
    ensures k.pc.Holding? ==> k.queue != []
  {
    FitMoves(k);
    FitFacts(k);
  }

  /** One good step towards the look at the response size. */
  lemma CheckStep(k: Client, i: nat)
    requires Fit(k) && Serving(k, i) && i < |k.txs| && ResponseSize(k.txs[i].request) > 0
    ensures Bounded(k) && Enabled(k)
    ensures var l := WorkerStep(k, Good(k));
      && Ahead(l) < Ahead(k) && (Serving(l, i) || l.pc == SizeCheck(i))
      && SameTx(k, l, i)
  {
    ServingFacts(k, i);
    GoodCloser(k);
    FitFacts(k);
    ServingOn(k, i);
    WorkerEvolves(k, Good(k));
  }

  lemma {:induction false} CanCheck(s: Server, id: nat, i: nat) returns (a: seq<Step>, n: Client)
    requires Inv(s) && id in s.clients && Fit(s.clients[id]) && Serving(s.clients[id], i)
    requires i < |s.clients[id].txs| && ResponseSize(s.clients[id].txs[i].request) > 0
    ensures Leads(s, a, Moved(s, id, n)) && Inv(Moved(s, id, n)) && Fit(n) && n.pc == SizeCheck(i)
    ensures SameTx(s.clients[id], n, i)
    decreases Ahead(s.clients[id])
  {
    GoodServer(s, id);
    CheckStep(s.clients[id], i);
    var k := WorkerStep(s.clients[id], Good(s.clients[id]));
    var b: seq<Step> := [];
    if k.pc == SizeCheck(i) {
      n := k;
      NotMoved(Moved(s, id, k), id);
      Nothing(Moved(s, id, k));
    } else {
      b, n := CanCheck(Moved(s, id, k), id, i);
      MovedTwice(s, id, k, n);
    }
    GoodFirst(s, id, b, n);
    a := [GoodMove(s, id)] + b;
  }

  // ... and to the head of the loop with nothing left to do.

  predicate Unfailed(t: Tx) {
    t.outcome.Pending? || t.outcome.Sent? || t.outcome.Accepted?
  }

  /** Nothing the worker took ever failed. */
  predicate Pleased(k: Client)
    requires OrderInv(k)
  {
    forall n :: 0 <= n < k.popped ==> Unfailed(k.txs[k.pushed[n]])
  }

  lemma GoodUnfailed(k: Client)
    requires Bounded(k) && k.pc.Busy() && !k.pc.Popped? && Unfailed(k.txs[k.pc.tx])
    ensures |WorkerStep(k, Good(k)).txs| == |k.txs| && Unfailed(WorkerStep(k, Good(k)).txs[k.pc.tx])
  {
    GoodAccepted(ResponseType(k.txs[k.pc.tx].request));
  }

  lemma GoodPopped(k: Client)
    requires Bounded(k) && Enabled(k) && (!k.pc.Busy() || k.pc.Popped?)
    ensures WorkerStep(k, Good(k)).popped == if k.pc.Holding? && k.queue != [] then k.popped + 1 else k.popped
  {
  }

  lemma GoodPleased(k: Client)
    requires OrderInv(k) && Pleased(k) && Bounded(k) && Enabled(k) && OrderInv(WorkerStep(k, Good(k)))
    requires PoppedScheduled(k)
    requires k.pc.Holding? && k.queue != [] ==> k.txs[k.queue[0]].outcome.Pending?
    ensures Pleased(WorkerStep(k, Good(k)))
  {
    var n := WorkerStep(k, Good(k));
    if k.pc.Busy() && !k.pc.Popped? {
      GoodServing(k);
      assert k.pushed[k.popped - 1] == k.pc.tx;
      GoodUnfailed(k);
      forall m | 0 <= m < k.popped ensures Unfailed(n.txs[k.pushed[m]]) {
        if k.pushed[m] != k.pc.tx {
          OthersUntouched(k, Good(k), k.pushed[m]);
        }
      }
    } else {
      GoodQuiet(k);
      GoodPopped(k);
    }
  }

  predicate Rested(k: Client) {
    k.pc.AtLoop? && k.queue == []
  }

  lemma QueuePending(k: Client)
    requires OrderInv(k) && TableInv(k)
    ensures k.queue != [] ==> k.txs[k.queue[0]].outcome.Pending?
  {
    if k.queue != [] {
      assert k.pushed[k.popped] == k.queue[0];
    }
  }

  /** One good step towards rest. */
  lemma RestStep(k: Client)
    requires Fit(k) && Pleased(k) && !Rested(k)
    ensures Bounded(k) && Enabled(k)
    ensures var l := WorkerStep(k, Good(k));
      && (OrderInv(l) ==> Pleased(l)) && Evolved(k, l)
      && if k.pc.Holding? && k.queue == [] then Rested(l) else Ahead(l) < Ahead(k)
  {
    FitMoves(k);
    FitFacts(k);
    QueuePending(k);
    WorkerEvolves(k, Good(k));
    if OrderInv(WorkerStep(k, Good(k))) {
      GoodPleased(k);
    }
    if !(k.pc.Holding? && k.queue == []) {
      GoodCloser(k);
    }
  }

  lemma EvolvedTwice(k: Client, l: Client, n: Client)
    requires Evolved(k, l) && Evolved(l, n)
    ensures Evolved(k, n)
  {
  }

  lemma {:induction false} CanRest(s: Server, id: nat) returns (a: seq<Step>, n: Client)
    requires Inv(s) && id in s.clients && Fit(s.clients[id]) && Pleased(s.clients[id])
    ensures Leads(s, a, Moved(s, id, n)) && Inv(Moved(s, id, n)) && Fit(n) && Pleased(n) && Rested(n)
    ensures Evolved(s.clients[id], n)
    decreases Ahead(s.clients[id]), if Rested(s.clients[id]) then 0 else 1
  {
    var k := s.clients[id];
    if Rested(k) {
      a, n := [], k;
      NotMoved(s, id);
      Nothing(s);
    } else {
      GoodServer(s, id);
      RestStep(k);
      var l := WorkerStep(k, Good(k));
      var b: seq<Step> := [];
      if Rested(l) {
        n := l;
        NotMoved(Moved(s, id, l), id);
        Nothing(Moved(s, id, l));
      } else {
        b, n := CanRest(Moved(s, id, l), id);
        EvolvedTwice(k, l, n);
        MovedTwice(s, id, l, n);
      }
      GoodFirst(s, id, b, n);
      a := [GoodMove(s, id)] + b;
    }
  }

  // ---------- the game thread at work ----------

  /** A client with a new transaction in its queue. */
  function Fed(k: Client, owner: nat, request: Packet): Client {
    k.(txs := k.txs + [NewTx(owner, request).(state := SCHEDULED)],
       queue := k.queue + [|k.txs|], pushed := k.pushed + [|k.txs|])
  }

  const GAME := GameMoves(false)

  /** The game thread's next step leads to `n`. */
  ghost predicate Goes(s: Server, n: Server) {
    Sound(s) && GameCanMove(s, false) && GameStep(s, false) == n && Inv(n)
  }

  lemma OneGoes(s: Server, n: Server)
    requires Goes(s, n)
    ensures Leads(s, [GAME], n)
  {
    assert Patient([GAME][0]);
    assert [GAME][1..] == [];
  }

  lemma ThreeGo(s: Server, s1: Server, s2: Server, s3: Server) returns (a: seq<Step>)
    requires Goes(s, s1) && Goes(s1, s2) && Goes(s2, s3)
    ensures Leads(s, a, s3)
  {
    OneGoes(s, s1);
    OneGoes(s1, s2);
    OneGoes(s2, s3);
    Then(s, [GAME], s1, [GAME], s2);
    Then(s, [GAME] + [GAME], s2, [GAME], s3);
    a := [GAME] + [GAME] + [GAME];
  }

  /** `try_emplace`, after the first look at `active`. */
  lemma EmplaceGoes(s: Server, id: nat, owner: nat, request: Packet, rest: seq<nat>, batch: seq<Ref>)
    requires Inv(s) && id in s.clients && s.clients[id].active
    requires s.game == Scheduling(Job(owner, request, [id] + rest, batch))
    ensures Goes(s, s.(clients := s.clients[id := Created(s.clients[id], owner, request)],
                       game := Emplaced(Job(owner, request, rest, batch + [Ref(id, |s.clients[id].txs|)]))))
  {
    InvSound(s);
    ScheduleStepInv(s);
    assert ([id] + rest)[1..] == rest;
  }

  /** The transaction on its way is the newest of client `id`, and nothing holds it up. */
  predicate OnItsWay(s: Server, id: nat, job: Job) {
    && id in s.clients && s.clients[id].active && s.clients[id].txs != []
    && job.batch != [] && job.batch[|job.batch| - 1] == Ref(id, |s.clients[id].txs| - 1)
  }

  lemma MarkGoes(s: Server, id: nat, job: Job)
    requires Inv(s) && s.game == Emplaced(job) && OnItsWay(s, id, job)
    ensures Goes(s, s.(clients := s.clients[id := Scheduled(s.clients[id], |s.clients[id].txs| - 1)], game := WantsQueue(job)))
  {
    InvSound(s);
    EnqueueInv(s);
  }

  lemma LockGoes(s: Server, id: nat, job: Job)
    requires Inv(s) && s.game == WantsQueue(job) && OnItsWay(s, id, job) && s.clients[id].lock.Nobody?
    ensures Goes(s, s.(clients := s.clients[id := QueueLocked(s.clients[id])], game := HasQueue(job)))
  {
    InvSound(s);
    EnqueueInv(s);
  }

  lemma PushGoes(s: Server, id: nat, job: Job)
    requires Inv(s) && s.game == HasQueue(job) && OnItsWay(s, id, job)
    ensures Goes(s, s.(clients := s.clients[id := QueuePushed(s.clients[id], |s.clients[id].txs| - 1)], game := Scheduling(job)))
  {
    InvSound(s);
    EnqueueInv(s);
  }

  /** The server while a transaction is on its way to client `id`. */
  function Transit(s: Server, id: nat, k: Client, game: GamePc): Server {
    s.(clients := s.clients[id := k], game := game)
  }

  lemma TransitTwice(s: Server, id: nat, k: Client, g: GamePc, n: Client, h: GamePc)
    ensures Transit(Transit(s, id, k, g), id, n, h) == Transit(s, id, n, h)
  {
  }

  // The same for a client given by name.

  predicate Last(job: Job, id: nat, k: Client) {
    k.active && k.txs != [] && job.batch != [] && job.batch[|job.batch| - 1] == Ref(id, |k.txs| - 1)
  }

  lemma Marks(s: Server, id: nat, k: Client, job: Job)
    requires Inv(Transit(s, id, k, Emplaced(job))) && Last(job, id, k)
    ensures Goes(Transit(s, id, k, Emplaced(job)), Transit(s, id, Scheduled(k, |k.txs| - 1), WantsQueue(job)))
  {
    MarkGoes(Transit(s, id, k, Emplaced(job)), id, job);
    TransitTwice(s, id, k, Emplaced(job), Scheduled(k, |k.txs| - 1), WantsQueue(job));
  }

  lemma Locks(s: Server, id: nat, k: Client, job: Job)
    requires Inv(Transit(s, id, k, WantsQueue(job))) && Last(job, id, k) && k.lock.Nobody?
    ensures Goes(Transit(s, id, k, WantsQueue(job)), Transit(s, id, QueueLocked(k), HasQueue(job)))
  {
    LockGoes(Transit(s, id, k, WantsQueue(job)), id, job);
    TransitTwice(s, id, k, WantsQueue(job), QueueLocked(k), HasQueue(job));
  }

  lemma Queues(s: Server, id: nat, k: Client, job: Job)
    requires Inv(Transit(s, id, k, HasQueue(job))) && Last(job, id, k)
    ensures Goes(Transit(s, id, k, HasQueue(job)), Transit(s, id, QueuePushed(k, |k.txs| - 1), Scheduling(job)))
  {
    PushGoes(Transit(s, id, k, HasQueue(job)), id, job);
    TransitTwice(s, id, k, HasQueue(job), QueuePushed(k, |k.txs| - 1), Scheduling(job));
  }

  lemma TwoGo(s: Server, s1: Server, s2: Server)
    requires Goes(s, s1) && Goes(s1, s2)
    ensures Leads(s, [GAME] + [GAME], s2) && Inv(s2)
  {
    OneGoes(s, s1);
    OneGoes(s1, s2);
    Then(s, [GAME], s1, [GAME], s2);
  }

  lemma LeadsOn(s: Server, a: seq<Step>, m: Server, n: Server)
    requires Leads(s, a, m) && Goes(m, n)
    ensures Leads(s, a + [GAME], n) && Inv(n)
  {
    OneGoes(m, n);
    Then(s, a, m, [GAME], n);
  }

  lemma MarksAndLocks(s: Server, id: nat, k: Client, job: Job)
    requires Inv(Transit(s, id, k, Emplaced(job))) && Last(job, id, k) && k.lock.Nobody?
    ensures var n := Transit(s, id, QueueLocked(Scheduled(k, |k.txs| - 1)), HasQueue(job));
      Leads(Transit(s, id, k, Emplaced(job)), [GAME] + [GAME], n) && Inv(n)
  {
    var k1 := Scheduled(k, |k.txs| - 1);
    Marks(s, id, k, job);
    Locks(s, id, k1, job);
    TwoGo(Transit(s, id, k, Emplaced(job)), Transit(s, id, k1, WantsQueue(job)), Transit(s, id, QueueLocked(k1), HasQueue(job)));
  }

  /** `ConnectionClient::runTransaction` for a client that is still active. */
  lemma Enqueues(s: Server, id: nat, k: Client, job: Job) returns (a: seq<Step>)
    requires Inv(Transit(s, id, k, Emplaced(job))) && Last(job, id, k) && k.lock.Nobody?
    ensures var n := Transit(s, id, QueuePushed(QueueLocked(Scheduled(k, |k.txs| - 1)), |k.txs| - 1), Scheduling(job));
      Leads(Transit(s, id, k, Emplaced(job)), a, n) && Inv(n)
  {
    var k2 := QueueLocked(Scheduled(k, |k.txs| - 1));
    MarksAndLocks(s, id, k, job);
    Queues(s, id, k2, job);
    a := [GAME] + [GAME] + [GAME];
    LeadsOn(Transit(s, id, k, Emplaced(job)), [GAME] + [GAME], Transit(s, id, k2, HasQueue(job)),
            Transit(s, id, QueuePushed(k2, |k.txs| - 1), Scheduling(job)));
  }

  lemma FedInSteps(k: Client, owner: nat, request: Packet)
    requires k.lock.Nobody?
    ensures QueuePushed(QueueLocked(Scheduled(Created(k, owner, request), |k.txs|)), |k.txs|) == Fed(k, owner, request)
  {
    var t := NewTx(owner, request);
    assert (k.txs + [t])[|k.txs| := t.(state := SCHEDULED)] == k.txs + [t.(state := SCHEDULED)];
  }

  /** An active client with a free queue is given its transaction, in four steps. */
  lemma Pushes(s: Server, id: nat, owner: nat, request: Packet, rest: seq<nat>, batch: seq<Ref>) returns (a: seq<Step>)
    requires Inv(s) && id in s.clients && s.clients[id].active && s.clients[id].lock.Nobody?
    requires s.game == Scheduling(Job(owner, request, [id] + rest, batch))
    ensures var n := Transit(s, id, Fed(s.clients[id], owner, request),
                             Scheduling(Job(owner, request, rest, batch + [Ref(id, |s.clients[id].txs|)])));
      Leads(s, a, n) && Inv(n)
  {
    var k := s.clients[id];
    var job := Job(owner, request, rest, batch + [Ref(id, |k.txs|)]);
    var k1 := Created(k, owner, request);
    var s1 := Transit(s, id, k1, Emplaced(job));
    EmplaceGoes(s, id, owner, request, rest, batch);
    OneGoes(s, s1);
    var b := Enqueues(s, id, k1, job);
    FedInSteps(k, owner, request);
    Then(s, [GAME], s1, b, Transit(s, id, Fed(k, owner, request), Scheduling(job)));
    a := [GAME] + b;
  }

  lemma TakeGoes(s: Server, r: Ref, count: nat)
    requires Inv(s) && s.game == Waiting([r], 0, count) && Exists(s.clients, r) && TxOf(s.clients, r).signal > 0
    ensures Goes(s, s.(clients := s.clients[r.client := Acquired(s.clients[r.client], r.tx)], game := Judging([r], 0, count)))
  {
    InvSound(s);
    WaitInv(s, false);
  }

  /** The game thread has taken the signal of the only transaction it waits for. */
  function Taken(s: Server, r: Ref): Server
    requires Exists(s.clients, r) && TxOf(s.clients, r).signal > 0
  {
    s.(clients := s.clients[r.client := Acquired(s.clients[r.client], r.tx)], game := Judging([r], 0, 0))
  }

  lemma JudgeStep(s: Server, r: Ref, count: nat)
    requires Sound(s) && s.game == Judging([r], 0, count) && Exists(s.clients, r)
    ensures GameCanMove(s, false)
    ensures GameStep(s, false) == s.(game := Waiting([r], 1, if TxOf(s.clients, r).state.DONE? then count + 1 else count))
  {
  }

  lemma JudgeGoes(s: Server, r: Ref, count: nat)
    requires Inv(s) && s.game == Judging([r], 0, count) && Exists(s.clients, r)
    ensures Goes(s, s.(game := Waiting([r], 1, if TxOf(s.clients, r).state.DONE? then count + 1 else count)))
  {
    InvSound(s);
    JudgeStep(s, r, count);
    JudgedInv(s);
  }

  lemma WaitedGoes(s: Server, batch: seq<Ref>, count: nat)
    requires Inv(s) && s.game == Waiting(batch, |batch|, count)
    ensures Goes(s, s.(game := Idle(Counted(batch, count))))
  {
    InvSound(s);
    WaitedInv(s);
  }

  lemma TakenFacts(s: Server, r: Ref)
    requires Exists(s.clients, r) && TxOf(s.clients, r).signal > 0
    ensures Exists(Taken(s, r).clients, r) && TxOf(Taken(s, r).clients, r).state == TxOf(s.clients, r).state
  {
  }

  /** The signal of the only transaction of a batch is taken, and the wait is over. */
  lemma Takes(s: Server, r: Ref) returns (a: seq<Step>)
    requires Inv(s) && s.game == Waiting([r], 0, 0) && Exists(s.clients, r) && TxOf(s.clients, r).signal > 0
    ensures var n := Transit(s, r.client, Acquired(s.clients[r.client], r.tx),
                             Idle(Counted([r], if TxOf(s.clients, r).state.DONE? then 1 else 0)));
      Leads(s, a, n) && Inv(n)
  {
    var s1 := Taken(s, r);
    var m := if TxOf(s.clients, r).state.DONE? then 1 else 0;
    TakeGoes(s, r, 0);
    TakenFacts(s, r);
    JudgeGoes(s1, r, 0);
    var s2 := s1.(game := Waiting([r], 1, m));
    WaitedGoes(s2, [r], m);
    a := ThreeGo(s, s1, s2, s2.(game := Idle(Counted([r], m))));
  }

  // ---------- a server with one client ----------

  function Solo(limit: nat, k: Client, lock: ClientsLock, game: GamePc): Server {
    Server(limit, {0}, map[0 := k], 1, lock, game, Accepting)
  }

  const CONNECT := AcceptorMoves(true, true)

  /** A client connects to an empty server that has room. */
  lemma Connects(limit: nat)
    requires limit > 0
    ensures Legal(Start(limit), [CONNECT, CONNECT, CONNECT])
    ensures After(Start(limit), [CONNECT, CONNECT, CONNECT]) == Solo(limit, NewClient(), Free, Idle(NoAnswer))
    ensures Inv(Solo(limit, NewClient(), Free, Idle(NoAnswer)))
  {
    var s := Start(limit);
    var s1 := s.(acceptor := WantsClients);
    var s2 := s1.(lock := ByAcceptor, acceptor := Inserting);
    assert Next(s, CONNECT) == s1;
    assert Next(s1, CONNECT) == s2;
    assert Next(s2, CONNECT) == Solo(limit, NewClient(), Free, Idle(NoAnswer));
    assert After(s2, [CONNECT]) == Solo(limit, NewClient(), Free, Idle(NoAnswer));
    assert [CONNECT, CONNECT][1..] == [CONNECT];
    assert [CONNECT, CONNECT, CONNECT][1..] == [CONNECT, CONNECT];
    ReachableInv(limit, [CONNECT, CONNECT, CONNECT]);
  }

  /** A transaction for the one client there is. */
  predicate ToSolo(call: Call) {
    call.Broadcast? || (call.Single? && call.id == 0)
  }

  lemma SoloDropped(k: Client, owner: nat)
    ensures DroppedAll(map[0 := k], owner) == map[0 := Dropped(k, owner)]
  {
  }

  lemma SoloBegun(limit: nat, k: Client, call: Call)
    requires ToSolo(call)
    ensures Begin(Solo(limit, k, Free, Calling(call)), call)
         == Solo(limit, Dropped(k, call.owner), ByGame, Scheduling(Job(call.owner, call.request, [0] + [], [])))
  {
    SoloDropped(k, call.owner);
    assert Ids({0}, 1) == [0] + [] == [0];
  }

  lemma BeginGoes(limit: nat, k: Client, call: Call)
    requires Inv(Solo(limit, k, Free, Calling(call))) && ToSolo(call)
    ensures Goes(Solo(limit, k, Free, Calling(call)),
                 Solo(limit, Dropped(k, call.owner), ByGame, Scheduling(Job(call.owner, call.request, [0] + [], []))))
  {
    var s := Solo(limit, k, Free, Calling(call));
    InvSound(s);
    BeginInv(s, call);
    SoloBegun(limit, k, call);
  }

  lemma ScheduledGoes(limit: nat, k: Client, owner: nat, request: Packet, batch: seq<Ref>)
    requires Inv(Solo(limit, k, ByGame, Scheduling(Job(owner, request, [], batch))))
    ensures Goes(Solo(limit, k, ByGame, Scheduling(Job(owner, request, [], batch))), Solo(limit, k, Free, Waiting(batch, 0, 0)))
  {
    var s := Solo(limit, k, ByGame, Scheduling(Job(owner, request, [], batch)));
    InvSound(s);
    ScheduleStepInv(s);
  }

  lemma SoloTransit(limit: nat, k: Client, lock: ClientsLock, g: GamePc, n: Client, h: GamePc)
    ensures Transit(Solo(limit, k, lock, g), 0, n, h) == Solo(limit, n, lock, h)
  {
  }

  /** A call puts its request into the queue of the one client, if that is still active. */
  lemma Feeds(limit: nat, k: Client, call: Call) returns (a: seq<Step>)
    requires Inv(Solo(limit, k, Free, Calling(call))) && ToSolo(call) && k.active && k.lock.Nobody?
    ensures var n := Solo(limit, Fed(Dropped(k, call.owner), call.owner, call.request), Free, Waiting([Ref(0, |k.txs|)], 0, 0));
      Leads(Solo(limit, k, Free, Calling(call)), a, n) && Inv(n)
  {
    var s := Solo(limit, k, Free, Calling(call));
    var d := Dropped(k, call.owner);
    var f := Fed(d, call.owner, call.request);
    var s1 := Solo(limit, d, ByGame, Scheduling(Job(call.owner, call.request, [0] + [], [])));
    var batch := [] + [Ref(0, |k.txs|)];
    BeginGoes(limit, k, call);
    OneGoes(s, s1);
    var b := Pushes(s1, 0, call.owner, call.request, [], []);
    SoloTransit(limit, d, ByGame, s1.game, f, Scheduling(Job(call.owner, call.request, [], batch)));
    var s2 := Solo(limit, f, ByGame, Scheduling(Job(call.owner, call.request, [], batch)));
    Then(s, [GAME], s1, b, s2);
    ScheduledGoes(limit, f, call.owner, call.request, batch);
    LeadsOn(s, [GAME] + b, s2, Solo(limit, f, Free, Waiting(batch, 0, 0)));
    assert batch == [Ref(0, |k.txs|)];
    a := [GAME] + b + [GAME];
  }

  // ---------- whole runs ----------

  /** A run without expiries leads from an empty server to `s`. */
  ghost predicate Reaches(limit: nat, a: seq<Step>, s: Server) {
    Legal(Start(limit), a) && AllPatient(a) && After(Start(limit), a) == s && Inv(s)
  }

  lemma ReachesOn(limit: nat, a: seq<Step>, s: Server, b: seq<Step>, n: Server)
    requires Reaches(limit, a, s) && Leads(s, b, n)
    ensures Reaches(limit, a + b, n)
  {
    Joined(Start(limit), a, b);
    RunInv(s, b);
  }

  lemma ReachesBy(limit: nat, a: seq<Step>, s: Server, step: Step, n: Server)
    requires Reaches(limit, a, s) && Sound(s) && Possible(s, step) && Patient(step) && Next(s, step) == n
    ensures Reaches(limit, a + [step], n)
  {
    OneStep(s, step);
    Joined(Start(limit), a, [step]);
    PatientMore(a, step);
    NextInv(s, step);
  }

  lemma OneStep(s: Server, step: Step)
    requires Sound(s) && Possible(s, step)
    ensures Legal(s, [step]) && After(s, [step]) == Next(s, step)
  {
    assert [step][1..] == [];
  }

  lemma PatientMore(a: seq<Step>, step: Step)
    requires AllPatient(a) && Patient(step)
    ensures AllPatient(a + [step])
  {
  }

  lemma ReachesCall(limit: nat, a: seq<Step>, s: Server, call: Call)
    requires Reaches(limit, a, s) && s.game.Idle?
    ensures Reaches(limit, a + [GameCalls(call)], s.(game := Calling(call)))
  {
    InvSound(s);
    ReachesBy(limit, a, s, GameCalls(call), s.(game := Calling(call)));
  }

  /** A first client has connected and been handed a request. */
  lemma FirstRequest(limit: nat, request: Packet) returns (a: seq<Step>)
    requires limit > 0
    ensures Reaches(limit, a, Solo(limit, Fed(NewClient(), 0, request), Free, Waiting([Ref(0, 0)], 0, 0)))
  {
    var s := Solo(limit, NewClient(), Free, Idle(NoAnswer));
    Connects(limit);
    a := [CONNECT, CONNECT, CONNECT] + [GameCalls(Broadcast(0, request))];
    ReachesCall(limit, [CONNECT, CONNECT, CONNECT], s, Broadcast(0, request));
    var b := Feeds(limit, NewClient(), Broadcast(0, request));
    assert Dropped(NewClient(), 0) == NewClient();
    ReachesOn(limit, a, s.(game := Calling(Broadcast(0, request))), b,
              Solo(limit, Fed(NewClient(), 0, request), Free, Waiting([Ref(0, 0)], 0, 0)));
    a := a + b;
  }

  lemma FirstIsFit(limit: nat, request: Packet)
    requires Inv(Solo(limit, Fed(NewClient(), 0, request), Free, Waiting([Ref(0, 0)], 0, 0)))
    ensures var k := Fed(NewClient(), 0, request);
      Fit(k) && Pleased(k) && k.queue == [0] && k.txs == [NewTx(0, request).(state := SCHEDULED)]
  {
    var s := Solo(limit, Fed(NewClient(), 0, request), Free, Waiting([Ref(0, 0)], 0, 0));
    assert s.clients[0] == Fed(NewClient(), 0, request);
  }

  lemma SoloMoved(limit: nat, k: Client, lock: ClientsLock, g: GamePc, n: Client)
    ensures Moved(Solo(limit, k, lock, g), 0, n) == Solo(limit, n, lock, g)
  {
  }

  /** The wait for the one client's transaction ends. */
  lemma SoloTakes(limit: nat, k: Client, i: nat, m: nat) returns (a: seq<Step>)
    requires i < |k.txs| && k.txs[i].signal > 0 && Inv(Solo(limit, k, Free, Waiting([Ref(0, i)], 0, 0)))
    requires m == if k.txs[i].state.DONE? then 1 else 0
    ensures Leads(Solo(limit, k, Free, Waiting([Ref(0, i)], 0, 0)), a, Solo(limit, Acquired(k, i), Free, Idle(Counted([Ref(0, i)], m))))
    ensures Inv(Solo(limit, Acquired(k, i), Free, Idle(Counted([Ref(0, i)], m))))
  {
    var s := Solo(limit, k, Free, Waiting([Ref(0, i)], 0, 0));
    assert s.clients[0] == k && TxOf(s.clients, Ref(0, i)) == k.txs[i];
    a := Takes(s, Ref(0, i));
    SoloTransit(limit, k, Free, s.game, Acquired(k, i), Idle(Counted([Ref(0, i)], m)));
  }

  lemma SoloClient(limit: nat, k: Client, g: GamePc)
    requires Inv(Solo(limit, k, Free, g))
    ensures ClientInv(k) && Bounded(k) && (k.active <==> !k.pc.Exited?)
    ensures !k.lock.GameThread? && (k.lock.Worker? <==> k.pc.Holding?)
  {
    assert Solo(limit, k, Free, g).clients[0] == k;
    InvSound(Solo(limit, k, Free, g));
  }

  // ---------- a client that always answers ----------

  /** Idle, in good health, and with nothing left in its queue. */
  ghost predicate Ready(k: Client) {
    Fit(k) && Pleased(k) && Rested(k)
  }

  lemma FedPleased(k: Client, owner: nat, request: Packet)
    requires Ready(k)
    ensures var f := Fed(Dropped(k, owner), owner, request);
      OrderInv(f) ==>
        !f.stop && !f.lock.GameThread? && AttemptedCount(f) == AttemptedCount(k) && Pleased(f) && |f.txs| == |k.txs| + 1
  {
  }

  lemma FedFit(k: Client, f: Client)
    requires Ready(k) && ClientInv(f) && !f.stop && !f.lock.GameThread?
    requires AttemptedCount(f) == AttemptedCount(k) && Pleased(f)
    requires f.popped == k.popped && f.pc == k.pc
    ensures Fit(f)
  {
  }

  /** Once at rest, the newest transaction has been answered and its signal is there. */
  lemma NewestDone(k: Client, i: nat)
    requires ClientInv(k) && Pleased(k) && Rested(k) && i < |k.txs| && i in k.pushed && k.txs[i].acquired == 0
    ensures k.txs[i].signal == 1 && k.txs[i].state.DONE?
  {
    var n :| 0 <= n < |k.pushed| && k.pushed[n] == i;
    assert Connection.Final(k.txs[k.pushed[n]]);
  }

  lemma AcquiredReady(k: Client, i: nat)
    requires Ready(k) && i < |k.txs| && k.txs[i].signal > 0 && ClientInv(Acquired(k, i))
    ensures Ready(Acquired(k, i))
  {
  }

  /** A whole call to the one client: it is given its request, answers, and is counted. */
  lemma Round(limit: nat, k: Client, call: Call) returns (a: seq<Step>, n: Client)
    requires Inv(Solo(limit, k, Free, Calling(call))) && ToSolo(call) && Ready(k)
    ensures Leads(Solo(limit, k, Free, Calling(call)), a, Solo(limit, n, Free, Idle(Counted([Ref(0, |k.txs|)], 1)))) && Ready(n)
  {
    var i := |k.txs|;
    var f := Fed(Dropped(k, call.owner), call.owner, call.request);
    var g := Waiting([Ref(0, i)], 0, 0);
    SoloClient(limit, k, Calling(call));
    var a0 := Feeds(limit, k, call);
    SoloClient(limit, f, g);
    FedPleased(k, call.owner, call.request);
    FedFit(k, f);
    var a1;
    a1, n := RestsSolo(limit, f, g);
    a := a0 + a1;
    Then(Solo(limit, k, Free, Calling(call)), a0, Solo(limit, f, Free, g), a1, Solo(limit, n, Free, g));
    FedEvolved(f, n, i);
    NewestDone(n, i);
    var a2 := SoloTakes(limit, n, i, 1);
    Then(Solo(limit, k, Free, Calling(call)), a, Solo(limit, n, Free, g), a2,
         Solo(limit, Acquired(n, i), Free, Idle(Counted([Ref(0, i)], 1))));
    SoloClient(limit, Acquired(n, i), Idle(Counted([Ref(0, i)], 1)));
    AcquiredReady(n, i);
    a := a + a2;
    n := Acquired(n, i);
  }

  lemma FedEvolved(f: Client, n: Client, i: nat)
    requires Evolved(f, n) && i < |f.txs| && i in f.pushed && f.txs[i].acquired == 0
    ensures i < |n.txs| && i in n.pushed && n.txs[i].acquired == 0
  {
  }

  lemma RestsSolo(limit: nat, k: Client, g: GamePc) returns (a: seq<Step>, n: Client)
    requires Inv(Solo(limit, k, Free, g)) && Fit(k) && Pleased(k)
    ensures Leads(Solo(limit, k, Free, g), a, Solo(limit, n, Free, g)) && Inv(Solo(limit, n, Free, g))
    ensures Ready(n) && Evolved(k, n)
  {
    assert Solo(limit, k, Free, g).clients[0] == k;
    a, n := CanRest(Solo(limit, k, Free, g), 0);
    SoloMoved(limit, k, Free, g, n);
  }
}
