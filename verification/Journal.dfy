/**
 * The integration journal is kept in two copies so that a stop at any point leaves it recoverable: a save
 * writes the recovery copy, the config and the primary copy, and a read repairs copies that differ.
 */
module Journal {
  import opened Common

  /** A journal file: absent, unreadable, or holding a journal. */
  datatype Copy<J> = Missing | Corrupt | Holds(journal: J)

  datatype Disk<J, C> = Disk(primary: Copy<J>, recovery: Copy<J>, config: C)

  /** Whether a journal describes a config. */
  datatype Matcher<!J, !C> = Matcher(matches: (J, C) -> bool)

  datatype Side = Primary | Recovery

  /** What a read decides: the journal, and the copies to rewrite with it, in order. */
  datatype Decision<J> = Decision(journal: J, writes: seq<Side>)

  function Decide<J(==), C>(d: Disk<J, C>, m: Matcher<J, C>): Result<Option<Decision<J>>> {
    if !d.primary.Holds? && !d.recovery.Holds? then
      if d.primary.Corrupt? || d.recovery.Corrupt? then Err("unreadable") else Ok(None)
    else if d.primary.Holds? && d.recovery.Holds? && d.primary.journal == d.recovery.journal then
      Ok(Some(Decision(d.primary.journal, [])))
    else if d.primary.Holds? && d.recovery.Missing? then
      Ok(Some(Decision(d.primary.journal, [Recovery])))
    else if d.recovery.Holds? && d.primary.Missing? then
      if m.matches(d.recovery.journal, d.config) then Ok(Some(Decision(d.recovery.journal, [Primary])))
      else Err("recovery does not match the config")
    else
      var primary := d.primary.Holds? && m.matches(d.primary.journal, d.config);
      var recovery := d.recovery.Holds? && m.matches(d.recovery.journal, d.config);
      if primary == recovery then Err("copies cannot be told apart")
      else Ok(Some(Decision(if primary then d.primary.journal else d.recovery.journal, [Recovery, Primary])))
  }

  function Rewrite<J, C>(d: Disk<J, C>, side: Side, j: J): Disk<J, C> {
    match side
    case Primary => d.(primary := Holds(j))
    case Recovery => d.(recovery := Holds(j))
  }

  /** The first `stop` of the rewrites. */
  function RewriteAll<J, C>(d: Disk<J, C>, writes: seq<Side>, j: J, stop: nat): Disk<J, C>
    decreases |writes|
  {
    if writes == [] || stop == 0 then d else RewriteAll(Rewrite(d, writes[0], j), writes[1..], j, stop - 1)
  }

  lemma {:induction false} RewriteOne<J, C>(d: Disk<J, C>, side: Side, j: J, stop: nat)
    ensures RewriteAll(d, [side], j, stop) == if stop == 0 then d else Rewrite(d, side, j)
  {
    assert [side][1..] == [];
  }

  lemma {:induction false} RewriteBoth<J, C>(d: Disk<J, C>, j: J, stop: nat)
    ensures RewriteAll(d, [Recovery, Primary], j, stop) ==
      if stop == 0 then d
      else if stop == 1 then Rewrite(d, Recovery, j)
      else Rewrite(Rewrite(d, Recovery, j), Primary, j)
  {
    assert [Recovery, Primary][1..] == [Primary];
    if stop > 0 {
      RewriteOne(Rewrite(d, Recovery, j), Primary, j, stop - 1);
    }
  }

  /** A read whose repair stops after some of its writes. */
  function Repair<J(==), C>(d: Disk<J, C>, m: Matcher<J, C>, stop: nat): Disk<J, C> {
    match Decide(d, m)
    case Ok(Some(decision)) => RewriteAll(d, decision.writes, decision.journal, stop)
    case _ => d
  }

  /** A save stopped after some of its three writes. */
  function Save<J, C>(d: Disk<J, C>, j: J, config: C, stop: nat): Disk<J, C> {
    var d1 := if stop >= 1 then d.(recovery := Holds(j)) else d;
    var d2 := if stop >= 2 then d1.(config := config) else d1;
    if stop >= 3 then d2.(primary := Holds(j)) else d2
  }

  /** A save that fails after some writes and is rolled back, newest first, the rollback stopped in turn. */
  function Undo<J, C>(d: Disk<J, C>, j: J, config: C, written: nat, undone: nat): Disk<J, C> {
    var s := Save(d, j, config, written);
    var d1 := if undone >= 1 then s.(primary := d.primary) else s;
    var d2 := if undone >= 2 then d1.(config := d.config) else d1;
    if undone >= 3 then d2.(recovery := d.recovery) else d2
  }

  // ---- Runs ----

  /** Every save starts with a completed read, as each operation of the integration does. */
  datatype Op<J, C> =
    | Read(stop: nat)
    | Write(journal: J, config: C, stop: nat)
    | FailedWrite(journal: J, config: C, written: nat, undone: nat)

  const ALL: nat := 2

  function Step<J(==), C>(d: Disk<J, C>, m: Matcher<J, C>, op: Op<J, C>): Disk<J, C> {
    match op
    case Read(stop) => Repair(d, m, stop)
    case Write(j, config, stop) => if Decide(d, m).Err? then d else Save(Repair(d, m, ALL), j, config, stop)
    case FailedWrite(j, config, written, undone) =>
      if Decide(d, m).Err? then d else Undo(Repair(d, m, ALL), j, config, written, undone)
  }

  function Run<J(==), C>(d: Disk<J, C>, m: Matcher<J, C>, ops: seq<Op<J, C>>): Disk<J, C> {
    if ops == [] then d else Step(Run(d, m, ops[..|ops| - 1]), m, ops[|ops| - 1])
  }

  /** What a run means, with no copies and no stops: a save counts once its config is written and not undone. */
  datatype State<J, C> = State(journal: J, config: C)

  function Meaning<J, C>(s: State<J, C>, ops: seq<Op<J, C>>): State<J, C> {
    if ops == [] then s
    else
      var before, op := Meaning(s, ops[..|ops| - 1]), ops[|ops| - 1];
      match op
      case Read(_) => before
      case Write(j, config, stop) => if stop >= 2 then State(j, config) else before
      case FailedWrite(j, config, written, undone) =>
        if written >= 2 && undone < 2 then State(j, config) else before
  }

  /** Each config matches its own journal and not the other's. */
  predicate Apart<J(==), C>(m: Matcher<J, C>, a: State<J, C>, b: State<J, C>) {
    && m.matches(a.journal, a.config) && m.matches(b.journal, b.config)
    && !m.matches(a.journal, b.config) && !m.matches(b.journal, a.config)
    && a.journal != b.journal
  }

  /** Every save of the run, failing or not, goes to a state apart from the one it starts in. */
  predicate Orderly<J(==), C>(m: Matcher<J, C>, s: State<J, C>, ops: seq<Op<J, C>>) {
    ops == [] ||
    var before, op := Meaning(s, ops[..|ops| - 1]), ops[|ops| - 1];
    && Orderly(m, s, ops[..|ops| - 1])
    && (op.Write? ==> Apart(m, before, State(op.journal, op.config)))
    && (op.FailedWrite? ==> Apart(m, before, State(op.journal, op.config)))
  }

  /** The copies a disk in state `s` may hold: both right, or one of them left over from a save or an undo. */
  ghost predicate Fits<J, C>(d: Disk<J, C>, m: Matcher<J, C>, s: State<J, C>) {
    && d.config == s.config && m.matches(s.journal, s.config)
    && d.primary.Holds? && d.recovery.Holds?
    && (d.primary == Holds(s.journal) || d.recovery == Holds(s.journal))
    && (d.primary.journal != s.journal ==> !m.matches(d.primary.journal, s.config))
    && (d.recovery.journal != s.journal ==> !m.matches(d.recovery.journal, s.config))
  }

  /** A read of such a disk returns the state's journal, and its completed repair leaves both copies equal to it. */
  lemma {:induction false} ReadIsRight<J, C>(d: Disk<J, C>, m: Matcher<J, C>, s: State<J, C>)
    requires Fits(d, m, s)
    ensures Decide(d, m).Ok? && Decide(d, m).value.Some? && Decide(d, m).value.value.journal == s.journal
    ensures Repair(d, m, ALL) == Disk(Holds(s.journal), Holds(s.journal), s.config)
  {
    RewriteBoth(d, s.journal, ALL);
  }

  // ---- Which copy a read trusts, on any disk ----

  /** A copy that holds a journal of the config as it stands. */
  predicate Describes<J, C>(copy: Copy<J>, m: Matcher<J, C>, config: C) {
    copy.Holds? && m.matches(copy.journal, config)
  }

  /**
   * A journal a read may return: both copies hold it; or the primary holds it and there is no recovery copy; or a copy
   * holds it, it describes the config, and no other copy does.
   */
  predicate Trusted<J(==), C>(d: Disk<J, C>, m: Matcher<J, C>, j: J) {
    || (d.primary == Holds(j) && d.recovery == Holds(j))
    || (d.primary == Holds(j) && d.recovery == Missing)
    || (m.matches(j, d.config) && d.recovery == Holds(j) && !Describes(d.primary, m, d.config))
    || (m.matches(j, d.config) && d.primary == Holds(j) && !Describes(d.recovery, m, d.config))
  }

  /**
   * On every disk a read gives the one trusted journal and its completed repair leaves both copies holding it; it gives
   * nothing exactly when there is no copy; and otherwise it is refused.
   */
  lemma {:induction false} ReadExactlyWhen<J, C>(d: Disk<J, C>, m: Matcher<J, C>)
    ensures forall j ::
      Trusted(d, m, j) <==> Decide(d, m).Ok? && Decide(d, m).value.Some? && Decide(d, m).value.value.journal == j
    ensures forall j :: Trusted(d, m, j) ==> Repair(d, m, ALL) == Disk(Holds(j), Holds(j), d.config)
    ensures Decide(d, m) == Ok(None) <==> d.primary.Missing? && d.recovery.Missing?
    ensures Decide(d, m).Err? ==> Repair(d, m, ALL) == d
  {
    forall j | Trusted(d, m, j)
      ensures Decide(d, m).Ok? && Decide(d, m).value.Some? && Decide(d, m).value.value.journal == j
      ensures Repair(d, m, ALL) == Disk(Holds(j), Holds(j), d.config)
    {
      RewriteOne(d, Recovery, j, ALL);
      RewriteOne(d, Primary, j, ALL);
      RewriteBoth(d, j, ALL);
    }
  }

  lemma {:induction false} RepairFits<J, C>(d: Disk<J, C>, m: Matcher<J, C>, s: State<J, C>, stop: nat)
    requires Fits(d, m, s)
    ensures Fits(Repair(d, m, stop), m, s)
  {
    ReadIsRight(d, m, s);
    RewriteBoth(d, s.journal, stop);
  }

  /** However a run is stopped, its disk fits its meaning. */
  lemma {:induction false} RunFits<J, C>(d: Disk<J, C>, m: Matcher<J, C>, s: State<J, C>, ops: seq<Op<J, C>>)
    requires Fits(d, m, s) && Orderly(m, s, ops)
    ensures Fits(Run(d, m, ops), m, Meaning(s, ops))
  {
    if ops != [] {
      var init, op := ops[..|ops| - 1], ops[|ops| - 1];
      RunFits(d, m, s, init);
      var d1, s1 := Run(d, m, init), Meaning(s, init);
      ReadIsRight(d1, m, s1);
      if op.Read? {
        RepairFits(d1, m, s1, op.stop);
      }
    }
  }

  /**
   * From equal copies, over any run of saves, failing saves and reads, each stopped at any point: a read
   * returns the journal of the last save that reached the config, and completing it leaves both copies equal.
   */
  lemma {:induction false} CrashesAreRecovered<J, C>(m: Matcher<J, C>, s: State<J, C>, ops: seq<Op<J, C>>)
    requires m.matches(s.journal, s.config) && Orderly(m, s, ops)
    ensures var d := Run(Disk(Holds(s.journal), Holds(s.journal), s.config), m, ops);
      var now := Meaning(s, ops);
      && d.config == now.config
      && Decide(d, m).Ok? && Decide(d, m).value.Some? && Decide(d, m).value.value.journal == now.journal
      && Repair(d, m, ALL) == Disk(Holds(now.journal), Holds(now.journal), now.config)
  {
    var d := Disk(Holds(s.journal), Holds(s.journal), s.config);
    RunFits(d, m, s, ops);
    ReadIsRight(Run(d, m, ops), m, Meaning(s, ops));
  }

  /**
   * The first save has no journal to fall back to: stopped before its config is written, it leaves a copy no read
   * accepts.
   */
  lemma {:induction false} FirstSave<J, C>(m: Matcher<J, C>, config: C, j: J, config': C, stop: nat)
    requires m.matches(j, config') && !m.matches(j, config)
    ensures var d := Save(Disk(Missing, Missing, config), j, config', stop);
      && (stop == 0 ==> Decide(d, m) == Ok(None))
      && (Decide(d, m).Err? <==> stop == 1)
      && (stop >= 2 ==> Decide(d, m).value.Some? && Decide(d, m).value.value.journal == j)
      && (stop >= 2 ==> Repair(d, m, ALL) == Disk(Holds(j), Holds(j), config'))
  {
    RewriteOne(Save(Disk(Missing, Missing, config), j, config', stop), Primary, j, ALL);
  }

  /** The same for a first save that fails and is rolled back, the rollback stopped in turn. */
  lemma {:induction false} FirstUndo<J, C>(m: Matcher<J, C>, config: C, j: J, config': C, written: nat, undone: nat)
    requires m.matches(j, config') && !m.matches(j, config)
    ensures var d := Undo(Disk(Missing, Missing, config), j, config', written, undone);
      && (Decide(d, m).Err? <==> 1 <= written && undone < 3 && (written >= 2 ==> undone >= 2))
      && (written >= 2 && undone < 2 ==> Repair(d, m, ALL) == Disk(Holds(j), Holds(j), config'))
      && (written == 0 || undone >= 3 ==> d == Disk(Missing, Missing, config) && Decide(d, m) == Ok(None))
      && (written < 2 || undone >= 2 ==> d.config == config)
  {
    var d := Undo(Disk(Missing, Missing, config), j, config', written, undone);
    RewriteOne(d, Primary, j, ALL);
  }

  // ---- The store ----

  class Store<J(==), C> {
    var primary: Copy<J>
    var recovery: Copy<J>
    const config: C

    function View(): Disk<J, C>
      reads this
    {
      Disk(primary, recovery, config)
    }

    constructor (primary: Copy<J>, recovery: Copy<J>, config: C)
      ensures View() == Disk(primary, recovery, config)
    {
      this.primary, this.recovery, this.config := primary, recovery, config;
    }

    method ReadJournal(m: Matcher<J, C>) returns (r: Result<Option<J>>)
      modifies this
      ensures View() == Repair(old(View()), m, ALL)
      ensures r.Err? <==> Decide(old(View()), m).Err?
      ensures r == Ok(None) <==> Decide(old(View()), m) == Ok(None)
      ensures r.Ok? && r.value.Some? ==> r.value.value == Decide(old(View()), m).value.value.journal
    {
      if !primary.Holds? && !recovery.Holds? {
        return if primary.Corrupt? || recovery.Corrupt? then Err("unreadable") else Ok(None);
      }
      if primary.Holds? && recovery.Holds? && primary.journal == recovery.journal {
        return Ok(Some(primary.journal));
      }
      if primary.Holds? && recovery.Missing? {
        RewriteOne(View(), Recovery, primary.journal, ALL);
        recovery := Holds(primary.journal);
        return Ok(Some(primary.journal));
      }
      if recovery.Holds? && primary.Missing? {
        if !m.matches(recovery.journal, config) {
          return Err("recovery does not match the config");
        }
        RewriteOne(View(), Primary, recovery.journal, ALL);
        primary := Holds(recovery.journal);
        return Ok(Some(recovery.journal));
      }
      var primaryMatches := primary.Holds? && m.matches(primary.journal, config);
      var recoveryMatches := recovery.Holds? && m.matches(recovery.journal, config);
      if primaryMatches == recoveryMatches {
        return Err("copies cannot be told apart");
      }
      var selected := if primaryMatches then primary.journal else recovery.journal;
      RewriteBoth(View(), selected, ALL);
      recovery := Holds(selected);
      primary := Holds(selected);
      r := Ok(Some(selected));
    }
  }
}
