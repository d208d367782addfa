/**
 * Connecting and disconnecting as transitions over the journal's two copies and the config. Each reads the
 * journal, edits the config and saves both, and may be stopped, or fail and be rolled back, at any point.
 */
module Connections {
  import opened Common
  import opened Document
  import opened ConfigEdit
  import opened RouteEdits
  import opened ConfigRoundTrip
  import opened Separation
  import opened InstallSucceeds
  import J = Journal

  /** The journal and config to save; `None` when there is nothing to change. */
  type Outcome = Result<Option<J.State<Journal, string>>>

  function Deactivate(j: Journal, text: string, c: Codec): Outcome {
    if !j.active then
      var _ :- VerifyRestoredRoute(SplitLines(text), j, c);
      Ok(None)
    else
      var restored :- Restore(text, j, c);
      Ok(Some(J.State(j.(active := false), restored)))
  }

  /** Connecting again keeps the route lines recorded at setup and records the features anew. */
  function Activate(j: Journal, text: string, c: Codec): Outcome {
    if j.active then
      var _ :- VerifyInstalledRoute(SplitLines(text), j, c);
      Ok(None)
    else
      var _ :- VerifyRestoredRoute(SplitLines(text), j, c);
      var (installed, found) :- Install(text, j.url, j.features.Some?, true, true, c);
      var _ :- Check(SameValue(found.before.base, j.before.base));
      var _ :- Check(SameValue(found.before.realtime, j.before.realtime)
          && SameLine(found.before.realtime, j.before.realtime));
      Ok(Some(J.State(found.(before := j.before), installed)))
  }

  /** How a save ends: after some of its three writes, or rolled back after some, the rollback itself stopped. */
  datatype Ending = Stopped(writes: nat) | RolledBack(writes: nat, undone: nat)

  datatype Event = Connect(ending: Ending) | Disconnect(ending: Ending) | Look(stop: nat)

  type Files = J.Disk<Journal, string>

  function SaveEnding(d: Files, s: J.State<Journal, string>, ending: Ending): Files {
    match ending
    case Stopped(writes) => J.Save(d, s.journal, s.config, writes)
    case RolledBack(writes, undone) => J.Undo(d, s.journal, s.config, writes, undone)
  }

  function Change(d: Files, connect: bool, ending: Ending, c: Codec): Files {
    match J.Decide(d, MatcherOf(c))
    case Err(_) => d
    case Ok(None) => d
    case Ok(Some(decision)) =>
      var d1 := J.Repair(d, MatcherOf(c), J.ALL);
      match if connect then Activate(decision.journal, d1.config, c) else Deactivate(decision.journal, d1.config, c)
      case Ok(Some(s)) => SaveEnding(d1, s, ending)
      case _ => d1
  }

  function Perform(d: Files, e: Event, c: Codec): Files {
    match e
    case Connect(ending) => Change(d, true, ending, c)
    case Disconnect(ending) => Change(d, false, ending, c)
    case Look(stop) => J.Repair(d, MatcherOf(c), stop)
  }

  function PerformAll(d: Files, events: seq<Event>, c: Codec): Files {
    if events == [] then d else Perform(PerformAll(d, events[..|events| - 1], c), events[|events| - 1], c)
  }

  // ---- The two states of an integration ----

  function Active(j: Journal, installed: string): J.State<Journal, string> {
    J.State(j, installed)
  }

  function Inactive(j: Journal, text: string): J.State<Journal, string> {
    J.State(j.(active := false), text)
  }

  /** Connecting and disconnecting lead from one state to the other and back. */
  predicate Reversible(j: Journal, text: string, installed: string, c: Codec) {
    && Distinct(installed, text, j, c)
    && Deactivate(j, installed, c) == Ok(Some(Inactive(j, text)))
    && Activate(j, installed, c) == Ok(None)
    && Activate(j.(active := false), text, c) == Ok(Some(Active(j, installed)))
    && Deactivate(j.(active := false), text, c) == Ok(None)
  }

  /** Permission to replace a route changes nothing where none was needed. */
  lemma {:induction false} ReplacingIsTheSame(text: string, url: string, compatibility: bool, replace: bool,
          replaceRealtime: bool, c: Codec)
    requires Install(text, url, compatibility, replace, replaceRealtime, c).Ok?
    ensures Install(text, url, compatibility, true, true, c)
      == Install(text, url, compatibility, replace, replaceRealtime, c)
  {
    hide ReadRoute, FindTop, PlaceRealtime, RemoveComments, InstallFeatures, Parse, Render;
  }

  lemma {:induction false} JournalOf(text: string, url: string, compatibility: bool, replace: bool,
          replaceRealtime: bool, c: Codec)
    requires Install(text, url, compatibility, replace, replaceRealtime, c).Ok?
    ensures var j := Install(text, url, compatibility, replace, replaceRealtime, c).value.1;
      j.active && j.url == url && (j.features.Some? <==> compatibility)
  {
    hide InstallRoute, InstallFeatures, Parse, Render;
  }

  lemma {:induction false} ActivateIs(j: Journal, text: string, installed: string, c: Codec)
    requires j.active && Install(text, j.url, j.features.Some?, true, true, c) == Ok((installed, j))
    requires Passes(j.(active := false), text, c)
    ensures Activate(j.(active := false), text, c) == Ok(Some(Active(j, installed)))
    ensures Deactivate(j.(active := false), text, c) == Ok(None)
  {
    hide Install, VerifyRestoredRoute, SplitLines;
  }

  lemma {:induction false} DeactivateIs(j: Journal, text: string, installed: string, c: Codec)
    requires j.active && Restore(installed, j, c) == Ok(text) && Passes(j, installed, c)
    ensures Deactivate(j, installed, c) == Ok(Some(Inactive(j, text)))
    ensures Activate(j, installed, c) == Ok(None)
  {
    hide Restore, VerifyInstalledRoute, SplitLines;
  }

  /** An installation is reversible exactly when it is native or the file as it was leaves no gap. */
  lemma {:induction false} ReversibleExactlyWhen(text: string, url: string, compatibility: bool, replace: bool,
          replaceRealtime: bool, c: Codec)
    requires Terminated(text) && NoMarkers(SplitLines(text)) && QuotedWell(c, url) && QuotedWell(c, REALTIME_URL)
    requires Install(text, url, compatibility, replace, replaceRealtime, c).Ok?
    ensures var (installed, j) := Install(text, url, compatibility, replace, replaceRealtime, c).value;
      Reversible(j, text, installed, c) <==> !(compatibility && WillLeaveGap(SplitLines(text), c))
  {
    hide *;
    var (installed, j) := Install(text, url, compatibility, replace, replaceRealtime, c).value;
    JournalOf(text, url, compatibility, replace, replaceRealtime, c);
    if compatibility {
      CompatibilityRoundTrip(text, url, replace, replaceRealtime, c);
      CompatibilitySeparates(text, url, replace, replaceRealtime, c);
      GapForeseen(text, url, replace, replaceRealtime, c);
    } else {
      NativeRoundTrip(text, url, replace, replaceRealtime, c);
      NativeSeparates(text, url, replace, replaceRealtime, c);
    }
    ReplacingIsTheSame(text, url, compatibility, replace, replaceRealtime, c);
    if Restore(installed, j, c) == Ok(text) {
      ReversibleWhen(j, text, installed, c);
    } else {
      ReversibleRestores(j, text, installed, c);
    }
  }

  lemma {:induction false} ReversibleRestores(j: Journal, text: string, installed: string, c: Codec)
    requires j.active
    ensures Reversible(j, text, installed, c) ==> Restore(installed, j, c) == Ok(text)
  {
    hide Restore, Activate, Passes;
  }

  lemma {:induction false} ReversibleWhen(j: Journal, text: string, installed: string, c: Codec)
    requires j.active && Install(text, j.url, j.features.Some?, true, true, c) == Ok((installed, j))
    requires Restore(installed, j, c) == Ok(text) && Distinct(installed, text, j, c)
    ensures Reversible(j, text, installed, c)
  {
    hide Install, Restore, Passes, Activate, Deactivate;
    ActivateIs(j, text, installed, c);
    DeactivateIs(j, text, installed, c);
  }

  // ---- Chains of states ----

  type Stage = J.State<Journal, string>

  /** The step that changes the state: disconnecting when connected, connecting when not. */
  function Move(s: Stage, c: Codec): Outcome {
    if s.journal.active then Deactivate(s.journal, s.config, c) else Activate(s.journal, s.config, c)
  }

  /** The step that does not. */
  function Stay(s: Stage, c: Codec): Outcome {
    if s.journal.active then Activate(s.journal, s.config, c) else Deactivate(s.journal, s.config, c)
  }

  predicate Linked(s: Stage, s': Stage, c: Codec) {
    && J.Apart(MatcherOf(c), s, s') && s'.journal.active != s.journal.active
    && Move(s, c) == Ok(Some(s')) && Stay(s, c) == Ok(None)
  }

  /** The state after `n` steps that change it. */
  function Chain(s: Stage, c: Codec, n: nat): Stage {
    if n == 0 then s
    else
      var before := Chain(s, c, n - 1);
      match Move(before, c)
      case Ok(Some(next)) => next
      case _ => before
  }

  predicate LinkedAt(s: Stage, c: Codec, n: nat) {
    Linked(Chain(s, c, n), Chain(s, c, n + 1), c)
  }

  ghost predicate Alternates(s: Stage, c: Codec) {
    forall n: nat :: LinkedAt(s, c, n)
  }

  function Equal(s: Stage): Files {
    J.Disk(J.Holds(s.journal), J.Holds(s.journal), s.config)
  }

  lemma {:induction false} SaveFits(d: Files, m: J.Matcher<Journal, string>, s: Stage, s': Stage, ending: Ending)
    requires d == Equal(s) && J.Apart(m, s, s')
    ensures var d' := SaveEnding(d, s', ending);
      s.config != s'.config && J.Fits(d', m, if d'.config == d.config then s else s')
    ensures ending == Stopped(3) ==> SaveEnding(d, s', ending) == Equal(s')
  {
  }

  /**
   * One event keeps the files recoverable and moves at most one state on, as the config shows; one that is not
   * stopped leaves both copies equal.
   */
  lemma {:induction false} EventFollows(d: Files, e: Event, s: Stage, s': Stage, c: Codec)
    requires J.Fits(d, MatcherOf(c), s) && Linked(s, s', c)
    ensures var d' := Perform(d, e, c); J.Fits(d', MatcherOf(c), if d'.config == d.config then s else s')
    ensures e == Connect(Stopped(3)) ==> Perform(d, e, c) == Equal(if s.journal.active then s else s')
    ensures e == Disconnect(Stopped(3)) ==> Perform(d, e, c) == Equal(if s.journal.active then s' else s)
  {
    hide Activate, Deactivate, Passes, MatcherOf, J.Decide, J.Repair, SaveEnding;
    var m := MatcherOf(c);
    J.ReadIsRight(d, m, s);
    var d1 := J.Repair(d, m, J.ALL);
    J.RepairFits(d, m, s, J.ALL);
    match e {
      case Look(stop) => J.RepairFits(d, m, s, stop);
      case Connect(ending) => SaveFits(d1, m, s, s', ending);
      case Disconnect(ending) => SaveFits(d1, m, s, s', ending);
    }
  }

  // ---- Runs ----

  /** How many events of a run changed the config. */
  function Changes(d: Files, events: seq<Event>, c: Codec): nat {
    if events == [] then 0
    else
      var init := events[..|events| - 1];
      Changes(d, init, c) + if PerformAll(d, events, c).config == PerformAll(d, init, c).config then 0 else 1
  }

  lemma {:induction false} RunFollows(s: Stage, events: seq<Event>, c: Codec)
    requires Alternates(s, c)
    ensures J.Fits(PerformAll(Equal(s), events, c), MatcherOf(c), Chain(s, c, Changes(Equal(s), events, c)))
  {
    hide Linked, Perform, J.Fits, Chain;
    if events == [] {
      assert LinkedAt(s, c, 0);
      EqualFits(s, Chain(s, c, 1), c);
    } else {
      var init := events[..|events| - 1];
      RunFollows(s, init, c);
      var n := Changes(Equal(s), init, c);
      assert LinkedAt(s, c, n);
      EventFollows(PerformAll(Equal(s), init, c), events[|events| - 1], Chain(s, c, n), Chain(s, c, n + 1), c);
    }
  }

  lemma {:induction false} EqualFits(s: Stage, s': Stage, c: Codec)
    requires Linked(Chain(s, c, 0), s', c)
    ensures Chain(s, c, 0) == s && J.Fits(Equal(s), MatcherOf(c), s)
  {
    hide Move, Stay;
  }

  /** What a run of events leaves, read off the chain. */
  lemma {:induction false} RunsAreRecovered(s: Stage, events: seq<Event>, c: Codec)
    requires Alternates(s, c)
    ensures var d, n := PerformAll(Equal(s), events, c), Changes(Equal(s), events, c);
      var now, next, read := Chain(s, c, n), Chain(s, c, n + 1), J.Decide(d, MatcherOf(c));
      && d.config == now.config && read.Ok? && read.value.Some? && read.value.value.journal == now.journal
      && Perform(d, Connect(Stopped(3)), c) == Equal(if now.journal.active then now else next)
      && Perform(d, Disconnect(Stopped(3)), c) == Equal(if now.journal.active then next else now)
  {
    hide Linked, Perform, Chain, J.Decide, MatcherOf;
    RunFollows(s, events, c);
    var d, n := PerformAll(Equal(s), events, c), Changes(Equal(s), events, c);
    J.ReadIsRight(d, MatcherOf(c), Chain(s, c, n));
    assert LinkedAt(s, c, n);
    EventFollows(d, Connect(Stopped(3)), Chain(s, c, n), Chain(s, c, n + 1), c);
    EventFollows(d, Disconnect(Stopped(3)), Chain(s, c, n), Chain(s, c, n + 1), c);
  }

  // ---- Without a gap: two states ----

  lemma {:induction false} TwoStates(j: Journal, text: string, installed: string, c: Codec, n: nat)
    requires Reversible(j, text, installed, c)
    ensures j.active && text != installed && LinkedAt(Active(j, installed), c, n)
    ensures Chain(Active(j, installed), c, n) == if n % 2 == 0 then Active(j, installed) else Inactive(j, text)
    decreases n
  {
    hide Activate, Deactivate, Passes;
    if n > 0 {
      TwoStates(j, text, installed, c, n - 1);
    }
  }

  /**
   * After an installation that leaves no gap, over any run of connects, disconnects and reads, each stopped or
   * rolled back anywhere: the config is the installed text or the original one, byte for byte; the read returns
   * the journal of exactly that text; and the next disconnect that is not stopped leaves the original text, with
   * both copies equal.
   */
  lemma {:induction false} ReversibleOverAllRuns(text: string, url: string, compatibility: bool, replace: bool,
          replaceRealtime: bool, c: Codec, events: seq<Event>)
    requires Terminated(text) && NoMarkers(SplitLines(text)) && QuotedWell(c, url) && QuotedWell(c, REALTIME_URL)
    requires Install(text, url, compatibility, replace, replaceRealtime, c).Ok?
    requires !(compatibility && WillLeaveGap(SplitLines(text), c))
    ensures var (installed, j) := Install(text, url, compatibility, replace, replaceRealtime, c).value;
      var d := PerformAll(Equal(Active(j, installed)), events, c);
      var read := J.Decide(d, MatcherOf(c));
      && j.active && text != installed && (d.config == text || d.config == installed)
      && read.Ok? && read.value.Some?
      && read.value.value.journal == (if d.config == installed then j else j.(active := false))
      && Perform(d, Disconnect(Stopped(3)), c) == Equal(Inactive(j, text))
      && Perform(d, Connect(Stopped(3)), c) == Equal(Active(j, installed))
  {
    hide *;
    var (installed, j) := Install(text, url, compatibility, replace, replaceRealtime, c).value;
    ReversibleExactlyWhen(text, url, compatibility, replace, replaceRealtime, c);
    TwoStatesRun(j, text, installed, c, events);
  }

  lemma {:induction false} TwoStatesRun(j: Journal, text: string, installed: string, c: Codec, events: seq<Event>)
    requires Reversible(j, text, installed, c)
    ensures var d := PerformAll(Equal(Active(j, installed)), events, c);
      var read := J.Decide(d, MatcherOf(c));
      && j.active && text != installed && (d.config == text || d.config == installed)
      && read.Ok? && read.value.Some?
      && read.value.value.journal == (if d.config == installed then j else j.(active := false))
      && Perform(d, Disconnect(Stopped(3)), c) == Equal(Inactive(j, text))
      && Perform(d, Connect(Stopped(3)), c) == Equal(Active(j, installed))
  {
    hide Reversible, Perform, J.Decide, MatcherOf, Chain, LinkedAt, PerformAll, Changes;
    var s := Active(j, installed);
    forall n: nat
      ensures LinkedAt(s, c, n)
    {
      TwoStates(j, text, installed, c, n);
    }
    RunsAreRecovered(s, events, c);
    var n := Changes(Equal(s), events, c);
    TwoStates(j, text, installed, c, n);
    TwoStates(j, text, installed, c, n + 1);
  }
}
