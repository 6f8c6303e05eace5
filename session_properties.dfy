/** What handleStateChange promises, proved of its model Step. */
module SessionProperties {
  import opened Wrappers
  import opened Text
  import opened Records
  import opened SessionMachine

  /** The snapshot (re)opens a session: menu state 2 after another state, or an in-place retry. */
  predicate Opens(e: Engine, snap: Snapshot) {
    && WellFormed(snap)
    && snap.menu.value.state == Playing
    && (|| e.lastMenuState != Playing
        || (&& e.session.Some?
            && !e.session.value.isReplay
            && !NameMismatch(snap.gameplay.value.name, snap.profileName)
            && IsRetry(e.live.time, snap.menu.value.currentTime, snap.gameplay.value.score)))
  }

  /** The combo fell from above 5 without a new miss: the slider-break pattern. */
  predicate ComboBroke(e: Engine, snap: Snapshot) {
    && WellFormed(snap)
    && snap.menu.value.state == Playing
    && snap.gameplay.value.combo < e.prevCombo
    && e.prevCombo > SliderBreakComboFloor
    && snap.gameplay.value.misses == e.live.misses
  }

  /** The machine starts in a consistent state and every snapshot keeps it consistent. */
  lemma StepKeepsConsistent(e: Engine, snap: Snapshot, now: int, id: int)
    requires Consistent(e)
    ensures Consistent(Step(e, snap, now, id))
  {
  }

  /** A malformed snapshot changes nothing. */
  lemma MalformedIgnored(e: Engine, snap: Snapshot, now: int, id: int)
    requires !WellFormed(snap)
    ensures Step(e, snap, now, id) == e
  {
  }

  /**
   * The store only grows at its end, by at most one record per snapshot, and every record
   * it gains has passed the noise filter.
   */
  lemma StepAppendsAtMostOne(e: Engine, snap: Snapshot, now: int, id: int)
    ensures var p := Step(e, snap, now, id).plays;
      && |e.plays| <= |p| <= |e.plays| + 1
      && p[..|e.plays|] == e.plays
      && (|p| == |e.plays| + 1 ==> Accepts(e.plays, p[|e.plays|]))
  {
  }

  /**
   * Slider breaks restart from 0 when a session (re)opens; otherwise the count never
   * falls and rises by one only on the slider-break pattern.
   */
  lemma SliderBreaksStep(e: Engine, snap: Snapshot, now: int, id: int)
    ensures var e' := Step(e, snap, now, id);
      && (Opens(e, snap) ==> e'.sliderBreaks == 0)
      && (!Opens(e, snap) ==>
            || e'.sliderBreaks == e.sliderBreaks
            || (e'.sliderBreaks == e.sliderBreaks + 1 && ComboBroke(e, snap)))
  {
  }

  /**
   * A snapshot that continues a recorded play (state 2 again, no replay, no retry) does the
   * in-play work: a slider-break pattern adds exactly one break, zero health with a score and
   * no "NF" sets the fail flag, and the best combo becomes the larger of the old best and the
   * current combo.
   */
  lemma InPlayUpdate(e: Engine, snap: Snapshot, now: int, id: int)
    requires WellFormed(snap) && snap.menu.value.state == Playing
    requires e.lastMenuState == Playing && e.session.Some? && !e.session.value.isReplay
    requires !NameMismatch(snap.gameplay.value.name, snap.profileName)
    requires !IsRetry(e.live.time, snap.menu.value.currentTime, snap.gameplay.value.score)
    ensures var e' := Step(e, snap, now, id);
      var g := snap.gameplay.value;
      && (ComboBroke(e, snap) ==> e'.sliderBreaks == e.sliderBreaks + 1)
      && (!ComboBroke(e, snap) ==> e'.sliderBreaks == e.sliderBreaks)
      && e'.session.Some?
      && (!Contains(e'.session.value.mods, "NF") && g.hpNormal == 0.0 && g.score > 0 ==> e'.hasFailed)
      && e'.maxCombo >= g.combo && e'.maxCombo >= e.maxCombo
      && (e'.maxCombo == e.maxCombo || e'.maxCombo == g.combo)
      && e'.live.n50 == g.n50 && e'.live.n100 == g.n100 && e'.live.n300 == g.n300
      && e'.live == LiveStats(g.pp, g.accuracy, g.score, g.misses, g.n50, g.n100, g.n300,
                              e'.sliderBreaks, g.unstableRate, snap.menu.value.currentTime)
      && e'.plays == e.plays && e'.lastMenuState == Playing
  {
  }

  /**
   * The first snapshot of a play that is not a replay opens the session and counts it at
   * once: the best combo is the current combo (or 0), no slider break yet, the fail flag
   * from this snapshot alone, and the session's mods are the snapshot's mods text.
   */
  lemma FirstInPlaySnapshot(e: Engine, snap: Snapshot, now: int, id: int)
    requires WellFormed(snap) && snap.menu.value.state == Playing
    requires e.lastMenuState != Playing
    requires !NameMismatch(snap.gameplay.value.name, snap.profileName)
    ensures var e' := Step(e, snap, now, id);
      var menu, g := snap.menu.value, snap.gameplay.value;
      && e'.session == Some(Session(now, menu.bm.value, menu.mods, false))
      && e'.maxCombo == Max(0, g.combo)
      && e'.sliderBreaks == 0
      && (e'.hasFailed <==> !Contains(menu.mods, "NF") && g.hpNormal == 0.0 && g.score > 0)
      && e'.plays == e.plays && e'.lastMenuState == Playing
  {
  }

  /**
   * The fail flag, once set, stays set until a session (re)opens; it is set only in play,
   * without "NF" in the session's mods, at zero health with a positive score.
   */
  lemma FailLatch(e: Engine, snap: Snapshot, now: int, id: int)
    ensures var e' := Step(e, snap, now, id);
      && (e.hasFailed && !Opens(e, snap) ==> e'.hasFailed)
      && (e'.hasFailed ==>
            || (e.hasFailed && !Opens(e, snap))
            || (&& WellFormed(snap)
                && snap.menu.value.state == Playing
                && e'.session.Some?
                && !Contains(e'.session.value.mods, "NF")
                && snap.gameplay.value.hpNormal == 0.0
                && snap.gameplay.value.score > 0))
  {
  }

  /**
   * A session marked as a replay yields no record, and it stays marked until it is closed
   * or another session opens.
   */
  lemma ReplayNeverRecorded(e: Engine, snap: Snapshot, now: int, id: int)
    requires e.session.Some? && e.session.value.isReplay
    ensures Step(e, snap, now, id).plays == e.plays
    ensures !Opens(e, snap) ==> Step(e, snap, now, id).session in {None, e.session}
  {
  }

  /** A mismatched player name marks the session of this snapshot as a replay. */
  lemma NameMismatchMarksReplay(e: Engine, snap: Snapshot, now: int, id: int)
    requires WellFormed(snap) && snap.menu.value.state == Playing
    requires NameMismatch(snap.gameplay.value.name, snap.profileName)
    requires e.lastMenuState != Playing || e.session.Some?
    ensures var e' := Step(e, snap, now, id);
      e'.session.Some? && e'.session.value.isReplay && e'.plays == e.plays
    ensures e.lastMenuState != Playing ==>
      var e' := Step(e, snap, now, id);
      e'.maxCombo == 0 && e'.sliderBreaks == 0 && !e'.hasFailed
  {
  }

  /**
   * Entering play and leaving it again without ever scoring leaves the store as it was
   * (a ghost session).
   */
  lemma QuickQuitLeavesNoRecord(e: Engine, enter: Snapshot, leave: Snapshot,
                                now1: int, now2: int, id1: int, id2: int)
    requires e.lastMenuState != Playing
    requires WellFormed(enter) && enter.menu.value.state == Playing && enter.gameplay.value.score == 0
    requires WellFormed(leave) && IsExitState(leave.menu.value.state)
    ensures Step(Step(e, enter, now1, id1), leave, now2, id2).plays == e.plays
  {
    var e1 := Step(e, enter, now1, id1);
    if !NameMismatch(enter.gameplay.value.name, enter.profileName) {
      assert e1.live.score == 0 && !e1.hasFailed && e1.session.Some? && !e1.session.value.isReplay;
    }
  }

  /**
   * An in-place retry closes the running attempt as Fail (if the fail flag was set) or
   * Quit, offers its record to the store, and opens a fresh session from the same snapshot.
   */
  lemma RetryClosesAndReopens(e: Engine, snap: Snapshot, now: int, id: int)
    requires e.lastMenuState == Playing && e.session.Some? && !e.session.value.isReplay
    requires WellFormed(snap) && snap.menu.value.state == Playing
    requires !NameMismatch(snap.gameplay.value.name, snap.profileName)
    requires IsRetry(e.live.time, snap.menu.value.currentTime, snap.gameplay.value.score)
    ensures var e' := Step(e, snap, now, id);
      var status := if e.hasFailed then Fail else Quit;
      && e'.session == Some(Session(now, snap.menu.value.bm.value, ToUpper(snap.menu.value.mods), false))
      && e'.plays == SaveRecord(e.plays, BuildRecord(e.session.value, status, snap.gameplay.value, e.live, e.maxCombo, now, id))
      && e'.sliderBreaks == 0 && e'.maxCombo == 0 && !e'.hasFailed && e'.live == ZeroStats
  {
  }

  /**
   * A results screen right after play commits a Pass record carrying the results figures
   * and the session's best combo, unless its timestamp is stale.
   */
  lemma ResultsScreenCommitsPass(e: Engine, snap: Snapshot, now: int, id: int)
    requires e.lastMenuState == Playing && e.session.Some? && !e.session.value.isReplay
    requires WellFormed(snap) && snap.menu.value.state == Results
    requires !IsStale(snap.resultsPlayTime, e.session.value.startTime)
    ensures var e' := Step(e, snap, now, id);
      var g := snap.gameplay.value;
      var r := BuildRecord(e.session.value, Pass, g, e.live, e.maxCombo, now, id);
      && e'.session == None && e'.lastMenuState == Results
      && e'.plays == SaveRecord(e.plays, r)
      && r.status == Pass && r.maxCombo == e.maxCombo && r.score == g.score
      && r.misses == g.misses && r.n300 == g.n300 && r.n100 == g.n100 && r.n50 == g.n50
      && r.rank == (if g.grade == "" then "?" else g.grade)
  {
  }

  /** A results screen older than the session start minus 60 s closes the session with no record. */
  lemma StaleResultsDiscarded(e: Engine, snap: Snapshot, now: int, id: int)
    requires e.lastMenuState == Playing && e.session.Some?
    requires WellFormed(snap) && snap.menu.value.state == Results
    requires IsStale(snap.resultsPlayTime, e.session.value.startTime)
    ensures var e' := Step(e, snap, now, id);
      e'.session == None && e'.plays == e.plays
  {
  }

  /**
   * Leaving play for menu state 0, 1 or 5 commits a Fail (flag set) or Quit record built
   * from the live statistics, ranked F or -.
   */
  lemma ExitCommitsFailOrQuit(e: Engine, snap: Snapshot, now: int, id: int)
    requires Consistent(e)
    requires e.lastMenuState == Playing && e.session.Some? && !e.session.value.isReplay
    requires WellFormed(snap) && IsExitState(snap.menu.value.state)
    ensures var e' := Step(e, snap, now, id);
      var r := BuildRecord(e.session.value, if e.hasFailed then Fail else Quit,
                           snap.gameplay.value, e.live, e.maxCombo, now, id);
      && e'.session == None
      && e'.plays == SaveRecord(e.plays, r)
      && r.status == (if e.hasFailed then Fail else Quit)
      && r.rank == (if e.hasFailed then "F" else "-")
      && r.score == e.live.score && r.misses == e.live.misses && r.sb == e.sliderBreaks
      && r.n50 == e.live.n50 && r.n100 == e.live.n100 && r.n300 == e.live.n300
      && r.accuracy == e.live.accuracy
  {
  }
}
