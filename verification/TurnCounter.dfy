/** The counter of tracked HTTP turns and the tombstones that let an interrupt arrive before its turn. */
module TurnCounter {
  import opened Common
  import opened Recency

  const MAX_TOMBSTONES: nat := 1024

  datatype Identity = Identity(threadId: string, turnId: string)

  datatype Turn = Turn(identity: Option<Identity>, abort: Option<string>)

  /** The tombstone key: both ids joined by U+0000. */
  function KeyOf(i: Identity): string {
    i.threadId + ['\0'] + i.turnId
  }

  /** A cancellation under way: the turns it matched, those not yet released, and how often it has settled. */
  datatype Cancellation = Cancellation(matched: set<nat>, left: set<nat>, settled: nat)

  /** A turn that is tracked is active until it is released; `released` lists the ids in release order. */
  datatype State = State(
    active: map<nat, Turn>,
    tombstones: seq<Entry<string, string>>,
    nextId: nat,
    released: seq<nat>,
    cancellations: seq<Cancellation>)

  const START: State := State(map[], [], 1, [], [])

  /** A cancellation waits for every turn it matches; with none it settles at once. */
  function Begin(matched: set<nat>): Cancellation {
    Cancellation(matched, matched, if matched == {} then 1 else 0)
  }

  /** The release of a turn settles the cancellations that waited for it alone. */
  function Finished(c: Cancellation, id: nat): Cancellation {
    if id in c.left then c.(left := c.left - {id}, settled := if c.left == {id} then c.settled + 1 else c.settled)
    else c
  }

  function FinishedAll(cs: seq<Cancellation>, id: nat): seq<Cancellation> {
    seq(|cs|, i requires 0 <= i < |cs| => Finished(cs[i], id))
  }

  datatype Op =
    | Track
    | Bind(id: nat, who: Identity)
    | Interrupt(target: Identity, reason: string)
    | CancelAll(reason: string)
    | ClientAbort(id: nat, reason: string)
    | Release(id: nat)

  predicate BindAllowed(t: Turn, who: Identity) {
    !Blank(who.threadId) && !Blank(who.turnId) && (t.identity.None? || t.identity.value == who)
  }

  function Abort(t: Turn, reason: string): Turn {
    if t.abort.None? then t.(abort := Some(reason)) else t
  }

  function Bound(s: State, t: Turn, who: Identity): Turn {
    var t' := t.(identity := Some(who));
    match Find(s.tombstones, KeyOf(who))
    case None => t'
    case Some(reason) => Abort(t', reason)
  }

  function Matching(s: State, who: Identity): set<nat> {
    set id | id in s.active && s.active[id].identity == Some(who)
  }

  function AbortThese(active: map<nat, Turn>, ids: set<nat>, reason: string): map<nat, Turn> {
    map id | id in active :: if id in ids then Abort(active[id], reason) else active[id]
  }

  function Step(s: State, op: Op): State {
    match op
    case Track => s.(active := s.active[s.nextId := Turn(None, None)], nextId := s.nextId + 1)
    case Bind(id, who) =>
      if id in s.active && BindAllowed(s.active[id], who)
      then s.(active := s.active[id := Bound(s, s.active[id], who)]) else s
    case Interrupt(who, reason) =>
      State(AbortThese(s.active, Matching(s, who), reason),
            Store(s.tombstones, Entry(KeyOf(who), reason), MAX_TOMBSTONES), s.nextId, s.released,
            s.cancellations + [Begin(Matching(s, who))])
    case CancelAll(reason) =>
      s.(active := AbortThese(s.active, s.active.Keys, reason),
         cancellations := s.cancellations + [Begin(s.active.Keys)])
    case ClientAbort(id, reason) =>
      if id in s.active then s.(active := s.active[id := Abort(s.active[id], reason)]) else s
    case Release(id) =>
      if id in s.active
      then s.(active := s.active - {id}, released := s.released + [id],
          cancellations := FinishedAll(s.cancellations, id))
      else s
  }

  function Run(s: State, ops: seq<Op>): State {
    if ops == [] then s else Step(Run(s, ops[..|ops| - 1]), ops[|ops| - 1])
  }

  // ---- Release happens once ----

  predicate NoDuplicates(ids: seq<nat>) {
    forall i, j :: 0 <= i < j < |ids| ==> ids[i] != ids[j]
  }

  /** Every id ever given out is either active or released, and released once. */
  ghost predicate Accounted(s: State) {
    && s.nextId >= 1
    && NoDuplicates(s.released)
    && (forall id :: id in s.active ==> 1 <= id < s.nextId && id !in s.released)
    && (forall id :: 1 <= id < s.nextId ==> id in s.active || id in s.released)
    && (forall id :: id in s.released ==> 1 <= id < s.nextId)
  }

  lemma {:induction false} RunIsAccounted(ops: seq<Op>)
    ensures Accounted(Run(START, ops))
  {
    if ops != [] {
      RunIsAccounted(ops[..|ops| - 1]);
      StepIsAccounted(Run(START, ops[..|ops| - 1]), ops[|ops| - 1]);
    }
  }

  lemma {:induction false} StepIsAccounted(s: State, op: Op)
    requires Accounted(s)
    ensures Accounted(Step(s, op))
  {
    if op.Release? && op.id in s.active {
      assert forall id :: id in s.released + [op.id] <==> id in s.released || id == op.id;
    }
  }

  // ---- Cancellations settle once, when their turns are released ----

  /** What is left of a cancellation is what is still active, and it has settled once nothing is left. */
  ghost predicate Settling(s: State) {
    forall c :: 0 <= c < |s.cancellations| ==>
      var cancellation := s.cancellations[c];
      && (forall id :: id in cancellation.matched ==> 1 <= id < s.nextId)
      && cancellation.left == cancellation.matched * s.active.Keys
      && cancellation.settled == if cancellation.left == {} then 1 else 0
  }

  lemma {:induction false} StepSettles(s: State, op: Op)
    requires Accounted(s) && Settling(s)
    ensures Settling(Step(s, op))
  {
    hide Accounted, Bound, Abort;
    var s' := Step(s, op);
    ActiveIds(s);
    match op {
      case Track =>
        forall c | 0 <= c < |s'.cancellations|
          ensures s'.cancellations[c].matched * s'.active.Keys == s.cancellations[c].matched * s.active.Keys
        {
        }
      case Release(id) =>
        if id in s.active {
          forall c | 0 <= c < |s'.cancellations|
            ensures s'.cancellations[c].left == s'.cancellations[c].matched * s'.active.Keys
            ensures s'.cancellations[c].settled == if s'.cancellations[c].left == {} then 1 else 0
          {
            assert s'.cancellations[c] == Finished(s.cancellations[c], id);
            assert s'.active.Keys == s.active.Keys - {id};
          }
        }
      case Interrupt(who, reason) =>
        assert s'.active.Keys == s.active.Keys;
        assert Matching(s, who) * s.active.Keys == Matching(s, who);
      case CancelAll(reason) => assert s'.active.Keys == s.active.Keys;
      case Bind(id, who) => assert s'.active.Keys == s.active.Keys;
      case ClientAbort(id, reason) => assert s'.active.Keys == s.active.Keys;
    }
  }

  lemma {:induction false} ActiveIds(s: State)
    requires Accounted(s)
    ensures s.nextId !in s.active && forall id :: id in s.active ==> 1 <= id < s.nextId
  {
  }

  lemma {:induction false} RunSettles(ops: seq<Op>)
    ensures Settling(Run(START, ops)) && Accounted(Run(START, ops))
  {
    hide Settling, Accounted, Step;
    RunIsAccounted(ops);
    if ops != [] {
      RunSettles(ops[..|ops| - 1]);
      StepSettles(Run(START, ops[..|ops| - 1]), ops[|ops| - 1]);
    } else {
      NothingToSettle();
    }
  }

  lemma {:induction false} NothingToSettle()
    ensures Settling(START)
  {
  }

  /** What a cancellation matched stays on record. */
  lemma {:induction false} CancellationsStay(s: State, ops: seq<Op>, c: nat)
    requires c < |s.cancellations|
    ensures c < |Run(s, ops).cancellations| && Run(s, ops).cancellations[c].matched == s.cancellations[c].matched
  {
    if ops != [] {
      CancellationsStay(s, ops[..|ops| - 1], c);
    }
  }

  lemma {:induction false} RunTogether(ops: seq<Op>, op: Op, later: seq<Op>)
    ensures Run(START, ops + [op] + later) == Run(Step(Run(START, ops), op), later)
    decreases |later|
  {
    var all := ops + [op] + later;
    if later == [] {
      assert all == ops + [op] && all[..|ops|] == ops;
    } else {
      assert all[..|all| - 1] == ops + [op] + later[..|later| - 1];
      RunTogether(ops, op, later[..|later| - 1]);
    }
  }

  /**
   * Over every run, the settlement of an interrupt has come at most once, and has come exactly when every turn the
   * interrupt matched has been released.
   */
  lemma {:induction false} SettlementWaitsForAll(ops: seq<Op>, who: Identity, reason: string, later: seq<Op>)
    ensures var matched, c := Matching(Run(START, ops), who), |Run(START, ops).cancellations|;
      var s := Run(START, ops + [Interrupt(who, reason)] + later);
      && c < |s.cancellations| && s.cancellations[c].matched == matched && s.cancellations[c].settled <= 1
      && (s.cancellations[c].settled == 1 <==> forall id :: id in matched ==> id in s.released)
  {
    hide Settling, Accounted, Step, KeyOf;
    var s0 := Run(START, ops);
    var s1 := Step(s0, Interrupt(who, reason));
    var all := ops + [Interrupt(who, reason)] + later;
    RunTogether(ops, Interrupt(who, reason), later);
    InterruptBegins(s0, who, reason);
    CancellationsStay(s1, later, |s0.cancellations|);
    RunSettles(all);
    SettledMeans(Run(START, all), |s0.cancellations|);
  }

  lemma {:induction false} InterruptBegins(s: State, who: Identity, reason: string)
    ensures var s' := Step(s, Interrupt(who, reason));
      |s'.cancellations| == |s.cancellations| + 1 && s'.cancellations[|s.cancellations|].matched == Matching(s, who)
  {
    hide KeyOf;
  }

  lemma {:induction false} SettledMeans(s: State, c: nat)
    requires Settling(s) && Accounted(s) && c < |s.cancellations|
    ensures var cancellation := s.cancellations[c];
      && cancellation.settled <= 1
      && (cancellation.settled == 1 <==> forall id :: id in cancellation.matched ==> id in s.released)
  {
    var cancellation := s.cancellations[c];
    assert forall id :: id in cancellation.matched ==> (id in s.active || id in s.released);
    assert forall id :: id in s.active ==> id !in s.released;
    if cancellation.left == {} {
      assert forall id :: id in cancellation.matched && id in s.active.Keys ==> id in cancellation.left;
    } else {
      var id :| id in cancellation.left;
      assert id in cancellation.matched && id in s.active;
    }
  }

  lemma {:induction false} LaterIsAccounted(s: State, ops: seq<Op>)
    requires Accounted(s)
    ensures Accounted(Run(s, ops)) && s.nextId <= Run(s, ops).nextId
  {
    if ops != [] {
      LaterIsAccounted(s, ops[..|ops| - 1]);
      StepIsAccounted(Run(s, ops[..|ops| - 1]), ops[|ops| - 1]);
    }
  }

  // ---- Interrupts reach their turn ----

  /** The interrupts of a run, oldest first. */
  function Interrupts(ops: seq<Op>): seq<Entry<string, string>> {
    if ops == [] then []
    else
      var op := ops[|ops| - 1];
      Interrupts(ops[..|ops| - 1]) + if op.Interrupt? then [Entry(KeyOf(op.target), op.reason)] else []
  }

  lemma {:induction false} TombstonesFollowHistory(ops: seq<Op>)
    ensures Run(START, ops).tombstones == Memory(Interrupts(ops), MAX_TOMBSTONES)
  {
    if ops != [] {
      TombstonesFollowHistory(ops[..|ops| - 1]);
      var h, op := Interrupts(ops[..|ops| - 1]), ops[|ops| - 1];
      if op.Interrupt? {
        var e := Entry(KeyOf(op.target), op.reason);
        assert Interrupts(ops) == h + [e];
        assert (h + [e])[..|h|] == h;
      } else {
        assert Interrupts(ops) == h + [] == h;
      }
    }
  }

  /** An abort and an identity stay with a turn for as long as it is active. */
  lemma {:induction false} AbortIsSticky(s: State, ops: seq<Op>, id: nat)
    requires Accounted(s) && id in s.active && id in Run(s, ops).active
    ensures s.active[id].abort.Some? ==> Run(s, ops).active[id].abort == s.active[id].abort
    ensures s.active[id].identity.Some? ==> Run(s, ops).active[id].identity == s.active[id].identity
  {
    if ops != [] {
      var init := ops[..|ops| - 1];
      LaterIsAccounted(s, init);
      assert id in Run(s, init).active;
      AbortIsSticky(s, init, id);
    }
  }

  /** Interrupted while bound and active: aborted from then on, for as long as it is active. */
  lemma {:induction false} InterruptAfterBind(ops: seq<Op>, id: nat, who: Identity, reason: string, later: seq<Op>)
    requires id in Run(START, ops).active && Run(START, ops).active[id].identity == Some(who)
    ensures var s := Run(Step(Run(START, ops), Interrupt(who, reason)), later);
      id in s.active ==> s.active[id].abort.Some?
  {
    var s1 := Step(Run(START, ops), Interrupt(who, reason));
    RunIsAccounted(ops);
    StepIsAccounted(Run(START, ops), Interrupt(who, reason));
    if id in Run(s1, later).active {
      AbortIsSticky(s1, later, id);
    }
  }

  /**
   * Interrupted before binding: the bind aborts the turn exactly when at most 1,023 other identities
   * were interrupted since, or when something else had aborted it already.
   */
  lemma {:induction false} InterruptBeforeBind(ops: seq<Op>, id: nat, who: Identity)
    requires id in Run(START, ops).active && BindAllowed(Run(START, ops).active[id], who)
    ensures var s, s' := Run(START, ops), Step(Run(START, ops), Bind(id, who));
      var h := Interrupts(ops);
      && s'.active[id].identity == Some(who)
      && (s'.active[id].abort.Some? <==>
            s.active[id].abort.Some? || (Latest(h, KeyOf(who)).Some? && |Since(h, KeyOf(who))| <= 1023))
      && (s.active[id].abort.None? && s'.active[id].abort.Some? ==> s'.active[id].abort == Latest(h, KeyOf(who)))
  {
    TombstonesFollowHistory(ops);
    LookupAgreesWithHistory(Interrupts(ops), MAX_TOMBSTONES, KeyOf(who));
  }

  /** ... and that abort lasts. */
  lemma {:induction false} BindAbortLasts(ops: seq<Op>, id: nat, who: Identity, later: seq<Op>)
    requires id in Run(START, ops).active && BindAllowed(Run(START, ops).active[id], who)
    requires Latest(Interrupts(ops), KeyOf(who)).Some? && |Since(Interrupts(ops), KeyOf(who))| <= 1023
    ensures var s := Run(Step(Run(START, ops), Bind(id, who)), later);
      id in s.active ==> s.active[id].abort.Some? && s.active[id].identity == Some(who)
  {
    var s1 := Step(Run(START, ops), Bind(id, who));
    InterruptBeforeBind(ops, id, who);
    RunIsAccounted(ops);
    StepIsAccounted(Run(START, ops), Bind(id, who));
    if id in Run(s1, later).active {
      AbortIsSticky(s1, later, id);
    }
  }

  // ---- What each operation does to each turn ----

  /** Aborted with this reason, unless something had aborted it before. */
  predicate AbortedWith(before: Turn, after: Turn, reason: string) {
    after.abort == if before.abort.Some? then before.abort else Some(reason)
  }

  lemma {:induction false} AbortStays(ops: seq<Op>, op: Op, later: seq<Op>, id: nat)
    requires id in Step(Run(START, ops), op).active && id in Run(START, ops + [op] + later).active
    requires Step(Run(START, ops), op).active[id].abort.Some?
    ensures Run(START, ops + [op] + later).active[id].abort == Step(Run(START, ops), op).active[id].abort
  {
    RunTogether(ops, op, later);
    RunIsAccounted(ops);
    StepIsAccounted(Run(START, ops), op);
    AbortIsSticky(Step(Run(START, ops), op), later, id);
  }

  /** Over every run, a turn active when all are cancelled is aborted for that reason, and stays so while active. */
  lemma {:induction false} CancelAllAborts(ops: seq<Op>, reason: string, later: seq<Op>, id: nat)
    requires id in Run(START, ops).active
    ensures var s := Run(START, ops + [CancelAll(reason)] + later);
      id in s.active ==> AbortedWith(Run(START, ops).active[id], s.active[id], reason)
  {
    if id in Run(START, ops + [CancelAll(reason)] + later).active {
      AbortStays(ops, CancelAll(reason), later, id);
    }
  }

  /** Over every run, the client of an active turn aborts it, and no other. */
  lemma {:induction false} ClientAborts(ops: seq<Op>, id: nat, reason: string, later: seq<Op>)
    requires id in Run(START, ops).active
    ensures var s := Run(START, ops + [ClientAbort(id, reason)] + later);
      id in s.active ==> AbortedWith(Run(START, ops).active[id], s.active[id], reason)
    ensures forall other :: other in Run(START, ops).active && other != id ==>
      other in Step(Run(START, ops), ClientAbort(id, reason)).active
      && Step(Run(START, ops), ClientAbort(id, reason)).active[other] == Run(START, ops).active[other]
  {
    if id in Run(START, ops + [ClientAbort(id, reason)] + later).active {
      AbortStays(ops, ClientAbort(id, reason), later, id);
    }
  }

  /** Over every run, an interrupt aborts the active turns of its identity for its reason. */
  lemma {:induction false} InterruptAborts(ops: seq<Op>, who: Identity, reason: string, later: seq<Op>, id: nat)
    requires id in Run(START, ops).active && Run(START, ops).active[id].identity == Some(who)
    ensures var s := Run(START, ops + [Interrupt(who, reason)] + later);
      id in s.active ==> AbortedWith(Run(START, ops).active[id], s.active[id], reason)
  {
    hide KeyOf;
    if id in Run(START, ops + [Interrupt(who, reason)] + later).active {
      AbortStays(ops, Interrupt(who, reason), later, id);
    }
  }

  /** The settlement of a cancellation of all turns comes once, exactly when all of them are released. */
  lemma {:induction false} CancelAllSettles(ops: seq<Op>, reason: string, later: seq<Op>)
    ensures var matched, c := Run(START, ops).active.Keys, |Run(START, ops).cancellations|;
      var s := Run(START, ops + [CancelAll(reason)] + later);
      && c < |s.cancellations| && s.cancellations[c].matched == matched && s.cancellations[c].settled <= 1
      && (s.cancellations[c].settled == 1 <==> forall id :: id in matched ==> id in s.released)
  {
    hide Settling, Accounted, AbortThese;
    var s0 := Run(START, ops);
    var all := ops + [CancelAll(reason)] + later;
    RunTogether(ops, CancelAll(reason), later);
    CancellationsStay(Step(s0, CancelAll(reason)), later, |s0.cancellations|);
    RunSettles(all);
    SettledMeans(Run(START, all), |s0.cancellations|);
  }

  /** After a run, this operation aborts the active turn, for this reason. */
  ghost predicate Aborts(ops: seq<Op>, op: Op, id: nat, reason: string)
    requires id in Run(START, ops).active
  {
    || op == CancelAll(reason)
    || op == ClientAbort(id, reason)
    || (op.Interrupt? && op.reason == reason && Run(START, ops).active[id].identity == Some(op.target))
    || (op.Bind? && op.id == id && Interrupted(ops, op.who, reason))
  }

  /** The identity was interrupted in the run for this reason. */
  ghost predicate Interrupted(ops: seq<Op>, who: Identity, reason: string) {
    exists j ::
      0 <= j < |ops| && ops[j].Interrupt? && KeyOf(ops[j].target) == KeyOf(who) && ops[j].reason == reason
  }

  lemma {:induction false} LatestIsInterrupt(ops: seq<Op>, who: Identity)
    ensures Latest(Interrupts(ops), KeyOf(who)).Some? ==>
      Interrupted(ops, who, Latest(Interrupts(ops), KeyOf(who)).value)
  {
    hide KeyOf;
    if ops != [] {
      var init, op, h := ops[..|ops| - 1], ops[|ops| - 1], Interrupts(ops[..|ops| - 1]);
      LatestIsInterrupt(init, who);
      if op.Interrupt? {
        assert (h + [Entry(KeyOf(op.target), op.reason)])[..|h|] == h;
      } else {
        assert Interrupts(ops) == h + [] == h;
      }
      if Latest(Interrupts(ops), KeyOf(who)).Some? && !(op.Interrupt? && KeyOf(op.target) == KeyOf(who)) {
        var reason := Latest(h, KeyOf(who)).value;
        var j :|
          0 <= j < |init| && init[j].Interrupt? && KeyOf(init[j].target) == KeyOf(who) && init[j].reason == reason;
        assert ops[j] == init[j];
      }
    }
  }

  /** No turn is aborted without a cause: some earlier operation of the run aborted it, with that reason. */
  lemma {:induction false} AbortHasACause(ops: seq<Op>, id: nat) returns (k: nat)
    requires id in Run(START, ops).active && Run(START, ops).active[id].abort.Some?
    ensures k < |ops| && id in Run(START, ops[..k]).active && Run(START, ops[..k]).active[id].abort.None?
    ensures Aborts(ops[..k], ops[k], id, Run(START, ops).active[id].abort.value)
  {
    hide Memory, Store, Interrupted;
    var n := |ops| - 1;
    var s, op := Run(START, ops[..n]), ops[n];
    RunIsAccounted(ops[..n]);
    if id in s.active && s.active[id].abort.Some? {
      k := AbortHasACause(ops[..n], id);
      assert ops[..n][..k] == ops[..k];
      StepKeepsAbort(s, op, id);
    } else {
      k := n;
      if op.Bind? {
        TombstonesFollowHistory(ops[..n]);
        LookupAgreesWithHistory(Interrupts(ops[..n]), MAX_TOMBSTONES, KeyOf(op.who));
        LatestIsInterrupt(ops[..n], op.who);
      }
    }
  }

  lemma {:induction false} StepKeepsAbort(s: State, op: Op, id: nat)
    requires Accounted(s) && id in s.active && s.active[id].abort.Some? && id in Step(s, op).active
    ensures Step(s, op).active[id].abort == s.active[id].abort
  {
  }

  /** Tracking makes one new turn, never seen before, without an identity and not aborted. */
  lemma {:induction false} TrackedFresh(ops: seq<Op>) returns (id: nat)
    ensures var s, s' := Run(START, ops), Step(Run(START, ops), Track);
      && id !in s.active && id !in s.released && s'.active == s.active[id := Turn(None, None)]
      && s'.released == s.released
  {
    RunIsAccounted(ops);
    id := Run(START, ops).nextId;
  }

  /** Releasing an active turn ends it and leaves the others as they are; another release does nothing. */
  lemma {:induction false} ReleasedOnce(s: State, id: nat)
    ensures var s' := Step(s, Release(id));
      && id !in s'.active
      && (forall other :: other != id ==> (other in s'.active <==> other in s.active))
      && (forall other :: other != id && other in s.active ==> s'.active[other] == s.active[other])
      && s'.released == s.released + (if id in s.active then [id] else [])
      && Step(s', Release(id)) == s'
  {
  }

  predicate Visible(id: string) {
    exists i :: 0 <= i < |id| && !IsSpace(id[i])
  }

  /** A binding is accepted exactly with two visible ids and no other identity before. */
  lemma {:induction false} BindsExactlyWhen(s: State, id: nat, who: Identity)
    requires id in s.active
    ensures var s' := Step(s, Bind(id, who));
      && id in s'.active
      && (if Visible(who.threadId) && Visible(who.turnId) && s.active[id].identity in {None, Some(who)}
          then s'.active[id].identity == Some(who) else s' == s)
      && s'.released == s.released && s'.cancellations == s.cancellations && s'.tombstones == s.tombstones
  {
    hide IsSpace;
    assert Visible(who.threadId) <==> !Blank(who.threadId);
    assert Visible(who.turnId) <==> !Blank(who.turnId);
  }

  /** An interrupt touches no turn of another identity, and binding touches no other turn. */
  lemma {:induction false} OthersAreUntouched(s: State, op: Op, id: nat)
    requires Accounted(s) && id in s.active && (op.Interrupt? || op.Bind?)
    requires op.Interrupt? ==> s.active[id].identity != Some(op.target)
    requires op.Bind? ==> op.id != id
    ensures id in Step(s, op).active && Step(s, op).active[id] == s.active[id]
  {
  }

  lemma {:induction false} KeyParts(a: Identity)
    requires '\0' !in a.threadId
    ensures var k, n := KeyOf(a), |a.threadId|;
      k[n] == '\0' && (forall i :: 0 <= i < n ==> k[i] != '\0') && k[..n] == a.threadId && k[n + 1..] == a.turnId
  {
  }

  /** Ids without U+0000, as the interrupt route requires, have distinct tombstone keys. */
  lemma {:induction false} KeysSeparate(a: Identity, b: Identity)
    requires '\0' !in a.threadId && '\0' !in b.threadId
    ensures KeyOf(a) == KeyOf(b) <==> a == b
  {
    KeyParts(a);
    KeyParts(b);
  }

  // ---- The counter object ----

  class HttpTurnCounter {
    var active: map<nat, Turn>
    var interrupted: seq<Entry<string, string>>
    var nextId: nat
    var cancellations: seq<Cancellation>
    ghost var released: seq<nat>

    ghost function View(): State
      reads this
    {
      State(active, interrupted, nextId, released, cancellations)
    }

    constructor ()
      ensures View() == START
    {
      active, interrupted, nextId, released, cancellations := map[], [], 1, [], [];
    }

    method Count() returns (n: nat)
      ensures n == |active|
    {
      n := |active|;
    }

    method RememberInterrupted(who: Identity, reason: string)
      modifies this`interrupted
      ensures interrupted == Store(old(interrupted), Entry(KeyOf(who), reason), MAX_TOMBSTONES)
    {
      var all := Without(interrupted, KeyOf(who)) + [Entry(KeyOf(who), reason)];
      interrupted := all;
      while |interrupted| > MAX_TOMBSTONES
        invariant Newest(interrupted, MAX_TOMBSTONES) == Newest(all, MAX_TOMBSTONES)
        decreases |interrupted|
      {
        interrupted := interrupted[1..];
      }
    }

    /** Abort every turn in a set, one at a time. */
    method AbortTurns(ids: set<nat>, reason: string)
      requires ids <= active.Keys
      modifies this`active
      ensures active == AbortThese(old(active), ids, reason)
    {
      var left := ids;
      while left != {}
        invariant left <= ids && active.Keys == old(active).Keys
        invariant active == AbortThese(old(active), ids - left, reason)
        decreases |left|
      {
        var id :| id in left;
        active := active[id := Abort(active[id], reason)];
        left := left - {id};
      }
    }

    method BeginCancelTurn(who: Identity, reason: string) returns (matched: set<nat>)
      modifies this`active, this`interrupted, this`cancellations
      ensures View() == Step(old(View()), Interrupt(who, reason))
      ensures matched == Matching(old(View()), who)
    {
      RememberInterrupted(who, reason);
      matched := set id | id in active && active[id].identity == Some(who);
      cancellations := cancellations + [Begin(matched)];
      AbortTurns(matched, reason);
    }

    method CancelAllTurns(reason: string) returns (matched: set<nat>)
      modifies this`active, this`cancellations
      ensures View() == Step(old(View()), CancelAll(reason))
      ensures matched == old(active).Keys
    {
      matched := active.Keys;
      cancellations := cancellations + [Begin(matched)];
      AbortTurns(matched, reason);
    }

    method TrackTurn() returns (id: nat)
      modifies this`active, this`nextId
      ensures View() == Step(old(View()), Track) && id == old(nextId)
    {
      id := nextId;
      nextId := nextId + 1;
      active := active[id := Turn(None, None)];
    }

    method BindIdentity(id: nat, who: Identity) returns (ok: bool)
      modifies this`active
      ensures View() == Step(old(View()), Bind(id, who))
      ensures ok <==> id in old(active) && BindAllowed(old(active)[id], who)
    {
      if id !in active || Blank(who.threadId) || Blank(who.turnId) {
        return false;
      }
      var turn := active[id];
      if turn.identity.Some? && turn.identity.value != who {
        return false;
      }
      turn := turn.(identity := Some(who));
      var reason := Find(interrupted, KeyOf(who));
      if reason.Some? && turn.abort.None? {
        turn := turn.(abort := reason);
      }
      active := active[id := turn];
      ok := true;
    }

    method AbortByClient(id: nat, reason: string)
      modifies this`active
      ensures View() == Step(old(View()), ClientAbort(id, reason))
    {
      if id in active {
        active := active[id := Abort(active[id], reason)];
      }
    }

    method ReleaseTurn(id: nat)
      modifies this`active, this`released, this`cancellations
      ensures View() == Step(old(View()), Release(id))
    {
      if id !in active {
        return;
      }
      active := active - {id};
      released := released + [id];
      var before := cancellations;
      for i := 0 to |before|
        invariant active == old(active) - {id} && released == old(released) + [id]
        invariant |cancellations| == |before|
        invariant forall k :: 0 <= k < |before| ==>
          cancellations[k] == if k < i then Finished(before[k], id) else before[k]
      {
        cancellations := cancellations[i := Finished(before[i], id)];
      }
      assert cancellations == FinishedAll(before, id);
    }
  }
}
